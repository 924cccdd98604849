/**
 * Colour classification of a map marker (src/scenes/MapScreen.js, marker rendering).
 * A pin is classified by its net score `likes - dislikes`: above 1 it is positive,
 * below -1 negative, otherwise neutral. The iOS branch turns the class into a pin colour,
 * the other branch into a marker image; both branches repeat the same two comparisons.
 */
module MarkerColour {
  import opened Wrappers

  type PinId = string

  /** A trashcan pin as delivered by the pin store: its id and its vote counts. */
  datatype Pin = Pin(id: PinId, likes: int, dislikes: int)

  datatype Tone = Positive | Negative | Neutral

  function Net(p: Pin): int { p.likes - p.dislikes }

  /** The classification both platform branches share; total and exclusive over the net score. */
  function ToneOf(p: Pin): (t: Tone)
    ensures t == Positive <==> Net(p) >= 2
    ensures t == Negative <==> Net(p) <= -2
    ensures t == Neutral <==> -1 <= Net(p) <= 1
  {
    if Net(p) > 1 then Positive else if Net(p) < -1 then Negative else Neutral
  }

  /** The iOS `pinColor` ternary, written as in the source: `null` selects the default colour. */
  function IosPinColor(p: Pin): (c: Option<string>)
    ensures c == None <==> -1 <= Net(p) <= 1
    ensures c == Some("blue") <==> ToneOf(p) == Positive
    ensures c == Some("red") <==> ToneOf(p) == Negative
  {
    if p.likes - p.dislikes > 1 then Some("blue")
    else if p.likes - p.dislikes < -1 then Some("red")
    else None
  }

  /** The marker image ternary of the non-iOS branch, written as in the source. */
  function MarkerImage(p: Pin): (img: string)
    ensures img in {"marker_green.png", "marker_red.png", "marker_gray.png"}
    ensures img == "marker_gray.png" <==> ToneOf(p) == Neutral
    ensures img == "marker_green.png" <==> Net(p) > 1
  {
    if p.likes - p.dislikes > 1 then "marker_green.png"
    else if p.likes - p.dislikes < -1 then "marker_red.png"
    else "marker_gray.png"
  }

  function ColourOfTone(t: Tone): Option<string>
  {
    match t
    case Positive => Some("blue")
    case Negative => Some("red")
    case Neutral => None
  }

  function ImageOfTone(t: Tone): string
  {
    match t
    case Positive => "marker_green.png"
    case Negative => "marker_red.png"
    case Neutral => "marker_gray.png"
  }

  /** Both platform branches factor through the one classification, and distinct tones
      give distinct colours and distinct images, so the two platforms never disagree. */
  lemma PlatformsAgree(p: Pin, q: Pin)
    ensures IosPinColor(p) == ColourOfTone(ToneOf(p))
    ensures MarkerImage(p) == ImageOfTone(ToneOf(p))
    ensures IosPinColor(p) == IosPinColor(q) <==> ToneOf(p) == ToneOf(q)
    ensures MarkerImage(p) == MarkerImage(q) <==> ToneOf(p) == ToneOf(q)
  {
  }
}
