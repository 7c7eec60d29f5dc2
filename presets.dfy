/**
 * The colour quantiser both LED-strip controllers use when a hue is set: the
 * first matching case wins, low saturation means white whatever the hue, and
 * a hue outside [0, 360) with enough saturation keeps the default code.
 */
module LightPresets {

  datatype Preset = White | Yellow | Red | Violet | Blue | Green | Unmatched

  /** The IR command each preset sends. */
  function Code(p: Preset): string {
    match p
    case White => "a"
    case Yellow => "Light7"
    case Red => "Light1"
    case Violet => "Scene1"
    case Blue => "Light10"
    case Green => "Light2"
    case Unmatched => "Light9"
  }

  /**
   * The first-match ladder, characterised by disjoint conditions: saturation
   * below 5 picks white; otherwise the hue bands pick one colour each and cover
   * [0, 360) exactly.
   */
  function Colour(hue: real, saturation: real): (p: Preset)
    ensures p == White <==> saturation < 5.0
    ensures p == Yellow <==> saturation >= 5.0 && 40.0 <= hue < 70.0
    ensures p == Red <==> saturation >= 5.0 && (0.0 <= hue < 40.0 || 340.0 <= hue < 360.0)
    ensures p == Violet <==> saturation >= 5.0 && 277.0 <= hue < 340.0
    ensures p == Blue <==> saturation >= 5.0 && 164.0 <= hue < 277.0
    ensures p == Green <==> saturation >= 5.0 && 70.0 <= hue < 164.0
    ensures p == Unmatched <==> saturation >= 5.0 && (hue < 0.0 || hue >= 360.0)
  {
    if saturation < 5.0 then White
    else if hue >= 40.0 && hue < 70.0 then Yellow
    else if (hue >= 0.0 && hue < 40.0) || (hue >= 340.0 && hue < 360.0) then Red
    else if hue >= 277.0 && hue < 340.0 then Violet
    else if hue >= 164.0 && hue < 277.0 then Blue
    else if hue >= 70.0 && hue < 164.0 then Green
    else Unmatched
  }

  /** Distinct presets send distinct codes, so the code identifies the colour. */
  lemma CodeInjective(p: Preset, q: Preset)
    requires Code(p) == Code(q)
    ensures p == q
  {
  }

  /**
   * The boundary cases of the quantiser: every band edge belongs to the band
   * above it, and the hue just below it to the band below.
   */
  lemma HueBoundaries()
    ensures Colour(-0.5, 100.0) == Unmatched && Colour(0.0, 100.0) == Red
    ensures Colour(39.5, 100.0) == Red && Colour(40.0, 100.0) == Yellow
    ensures Colour(69.5, 100.0) == Yellow && Colour(70.0, 100.0) == Green
    ensures Colour(163.5, 100.0) == Green && Colour(164.0, 100.0) == Blue
    ensures Colour(276.5, 100.0) == Blue && Colour(277.0, 100.0) == Violet
    ensures Colour(339.5, 100.0) == Violet && Colour(340.0, 100.0) == Red
    ensures Colour(359.5, 100.0) == Red && Colour(360.0, 100.0) == Unmatched
    ensures forall h: real :: Colour(h, 4.0) == White
    ensures Colour(100.0, 5.0) == Green
    ensures Colour(360.0, 50.0) == Unmatched && Colour(-1.0, 50.0) == Unmatched
  {
  }
}
