/**
 * The configuration check both vendor hubs run over their accessory list, in
 * list order: an entry that is null or has no name stops the whole pass; a
 * named entry marked `ignore` is skipped; an entry without a type, or whose
 * type the hub has no controller for, stops the whole pass. Everything else is
 * admitted. Entries after a stopping entry are never looked at.
 */
module Validation {
  import opened Wrappers
  import opened Platform

  /** One configuration entry; `None` is a null entry. */
  type Entry = Option<Device>

  /** Why a discovery pass ended. */
  datatype Stop =
    | Completed
    | MissingAccessories       // the vendor section has no accessory list
    | NoName                   // "accessory item has no name field"
    | NoType(name: string)     // "<name> accessory field should be populated"
    | NotSupported(name: string) // "<name> is not supported"

  datatype Verdict = Admit | Skip | Abort(why: Stop)

  /** The checks on one entry, in the order the loops make them. */
  function Check(e: Entry, supported: set<string>): (v: Verdict)
    ensures v == Admit <==> e.Some? && e.value.name != "" && !e.value.ignore && e.value.typ != "" && e.value.typ in supported
    ensures v == Skip <==> e.Some? && e.value.name != "" && e.value.ignore
    ensures v == Abort(NoName) <==> e.None? || e.value.name == ""
    ensures e.Some? ==> (v == Abort(NoType(e.value.name))
                         <==> e.value.name != "" && !e.value.ignore && e.value.typ == "")
    ensures e.Some? ==> (v == Abort(NotSupported(e.value.name))
                         <==> e.value.name != "" && !e.value.ignore && e.value.typ != "" && e.value.typ !in supported)
    ensures v.Abort? ==> v.why.NoName? || v.why.NoType? || v.why.NotSupported?
  {
    if e.None? || e.value.name == "" then Abort(NoName)
    else if e.value.ignore then Skip
    else if e.value.typ == "" then Abort(NoType(e.value.name))
    else if e.value.typ !in supported then Abort(NotSupported(e.value.name))
    else Admit
  }

  ghost predicate NoAbort(entries: seq<Entry>, supported: set<string>) {
    forall j :: 0 <= j < |entries| ==> !Check(entries[j], supported).Abort?
  }

  /** The devices a pass hands on, in order: it stops at the first aborting entry. */
  function Admitted(entries: seq<Entry>, supported: set<string>): seq<Device> {
    if entries == [] then []
    else match Check(entries[0], supported)
      case Abort(_) => []
      case Skip => Admitted(entries[1..], supported)
      case Admit => [entries[0].value] + Admitted(entries[1..], supported)
  }

  /** Why the pass over `entries` ends. */
  function StopReason(entries: seq<Entry>, supported: set<string>): Stop {
    if entries == [] then Completed
    else match Check(entries[0], supported)
      case Abort(why) => why
      case _ => StopReason(entries[1..], supported)
  }

  /** The index of the first aborting entry, or the length when none aborts. */
  function FirstAbort(entries: seq<Entry>, supported: set<string>): (k: nat)
    ensures k <= |entries|
    ensures forall j :: 0 <= j < k ==> !Check(entries[j], supported).Abort?
    ensures k < |entries| ==> Check(entries[k], supported).Abort?
  {
    if entries == [] || Check(entries[0], supported).Abort? then 0
    else 1 + FirstAbort(entries[1..], supported)
  }

  /** The admissible entries of a list, ignoring aborts: a plain filter. */
  function Admissible(entries: seq<Entry>, supported: set<string>): seq<Device> {
    if entries == [] then []
    else (if Check(entries[0], supported) == Admit then [entries[0].value] else [])
         + Admissible(entries[1..], supported)
  }

  /**
   * Fail-fast, stated against an independent definition: a pass hands on
   * exactly the admissible entries before the first aborting entry, in order,
   * and ends for that entry's reason.
   */
  lemma {:induction false} AdmittedIsAdmissiblePrefix(entries: seq<Entry>, supported: set<string>)
    ensures Admitted(entries, supported) == Admissible(entries[..FirstAbort(entries, supported)], supported)
    ensures var k := FirstAbort(entries, supported);
      StopReason(entries, supported) == if k < |entries| then Check(entries[k], supported).why else Completed
  {
    if entries != [] && !Check(entries[0], supported).Abort? {
      var k := FirstAbort(entries, supported);
      AdmittedIsAdmissiblePrefix(entries[1..], supported);
      assert entries[..k][1..] == entries[1..][..k - 1];
      assert entries[..k][0] == entries[0];
      if k < |entries| {
        assert entries[1..][k - 1] == entries[k];
      }
    }
  }

  /** Every admitted device is named, not ignored, and of a supported type. */
  lemma {:induction false} AdmittedAreValid(entries: seq<Entry>, supported: set<string>)
    ensures forall k :: 0 <= k < |Admitted(entries, supported)| ==>
      var d := Admitted(entries, supported)[k];
      d.name != "" && !d.ignore && d.typ != "" && d.typ in supported
  {
    if entries != [] {
      AdmittedAreValid(entries[1..], supported);
    }
  }

  /** One more entry after a prefix that did not stop the pass. */
  lemma {:induction false} AdmittedExtend(p: seq<Entry>, e: Entry, supported: set<string>)
    requires NoAbort(p, supported)
    ensures Admitted(p + [e], supported)
      == Admitted(p, supported) + (if Check(e, supported) == Admit then [e.value] else [])
    ensures StopReason(p, supported) == Completed
    ensures StopReason(p + [e], supported)
      == if Check(e, supported).Abort? then Check(e, supported).why else Completed
  {
    if p == [] {
      assert [e][1..] == [];
    } else {
      assert (p + [e])[1..] == p[1..] + [e];
      AdmittedExtend(p[1..], e, supported);
    }
  }

  /** Nothing after an aborting entry matters, however valid it is. */
  lemma {:induction false} AbortIgnoresRest(p: seq<Entry>, e: Entry, rest: seq<Entry>, supported: set<string>)
    requires Check(e, supported).Abort?
    ensures Admitted(p + [e] + rest, supported) == Admitted(p + [e], supported)
    ensures StopReason(p + [e] + rest, supported) == StopReason(p + [e], supported)
  {
    if p == [] {
      assert ([e] + rest)[0] == e;
    } else {
      assert (p + [e] + rest)[1..] == p[1..] + [e] + rest;
      assert (p + [e])[1..] == p[1..] + [e];
      AbortIgnoresRest(p[1..], e, rest, supported);
    }
  }

  /** The loops' step at an aborting entry: what was handed on so far is final. */
  lemma HaltAt(entries: seq<Entry>, i: nat, supported: set<string>)
    requires i < |entries| && NoAbort(entries[..i], supported)
    requires Check(entries[i], supported).Abort?
    ensures Admitted(entries, supported) == Admitted(entries[..i], supported)
    ensures StopReason(entries, supported) == Check(entries[i], supported).why
  {
    assert entries == entries[..i] + [entries[i]] + entries[i + 1..];
    AbortIgnoresRest(entries[..i], entries[i], entries[i + 1..], supported);
    AdmittedExtend(entries[..i], entries[i], supported);
  }

  /** The loops' step at any other entry. */
  lemma StepAt(entries: seq<Entry>, i: nat, supported: set<string>)
    requires i < |entries| && NoAbort(entries[..i], supported)
    requires !Check(entries[i], supported).Abort?
    ensures NoAbort(entries[..i + 1], supported)
    ensures Admitted(entries[..i + 1], supported) == Admitted(entries[..i], supported)
      + (if Check(entries[i], supported) == Admit then [entries[i].value] else [])
  {
    assert entries[..i + 1] == entries[..i] + [entries[i]];
    AdmittedExtend(entries[..i], entries[i], supported);
  }
}
