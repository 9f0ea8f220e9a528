/** The fixed table from gesture labels to the direction they signal. */
module Gestures {
  import opened Wrappers

  const GESTURE_MAPPING: map<string, string> := map[
    "like" := "up",
    "dislike" := "down",
    "two_up" := "right",
    "two_up_inverted" := "left"
  ]

  /** `GESTURE_MAPPING.get(gesture, None)`: never fails, absent for unknown labels. */
  function Direction(gesture: string): (d: Option<string>)
    ensures d.Some? <==> gesture in {"like", "dislike", "two_up", "two_up_inverted"}
    ensures gesture == "like" ==> d == Some("up")
    ensures gesture == "dislike" ==> d == Some("down")
    ensures gesture == "two_up" ==> d == Some("right")
    ensures gesture == "two_up_inverted" ==> d == Some("left")
  {
    if gesture in GESTURE_MAPPING then Some(GESTURE_MAPPING[gesture]) else None
  }

  /** No two labels signal the same direction: the table is a bijection onto up, down, right, left. */
  lemma DirectionInjective(g: string, h: string)
    requires Direction(g).Some? && Direction(g) == Direction(h)
    ensures g == h
  {
  }
}
