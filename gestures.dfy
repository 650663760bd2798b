/**
 Classification of a finger-state vector into a named gesture by exact match
 against six patterns, and the adjustment each gesture asks for.
 */
module Gestures {
  import opened Landmarks
  import opened Devices

  datatype Option<T> = None | Some(value: T)

  /** The six poses the loop reacts to, and everything else. */
  datatype Gesture = ThumbsUp | ThumbsDown | Peace | ThreeFingers | Fist | OpenPalm | Unrecognised

  /** The if/elif chain of the main loop: the first pattern equal to the vector wins. */
  function Classify(states: seq<int>): (g: Gesture)
    ensures g != Unrecognised ==> states == Pattern(g)
  {
    if states == [1, 0, 0, 0, 0] then ThumbsUp
    else if states == [0, 0, 0, 0, 1] then ThumbsDown
    else if states == [0, 1, 1, 0, 0] then Peace
    else if states == [0, 1, 1, 1, 0] then ThreeFingers
    else if states == [0, 0, 0, 0, 0] then Fist
    else if states == [1, 1, 1, 1, 1] then OpenPalm
    else Unrecognised
  }

  /** The gesture table read the other way: the one vector each gesture stands for. */
  function Pattern(g: Gesture): (v: seq<int>)
    requires g != Unrecognised
    ensures IsFingerVector(v)
  {
    match g
    case ThumbsUp => [1, 0, 0, 0, 0]
    case ThumbsDown => [0, 0, 0, 0, 1]
    case Peace => [0, 1, 1, 0, 0]
    case ThreeFingers => [0, 1, 1, 1, 0]
    case Fist => [0, 0, 0, 0, 0]
    case OpenPalm => [1, 1, 1, 1, 1]
  }

  /** No two gestures share a pattern, so the order of the chain does not matter. */
  lemma PatternsDistinct(g1: Gesture, g2: Gesture)
    requires g1 != Unrecognised && g2 != Unrecognised
    ensures Pattern(g1) == Pattern(g2) <==> g1 == g2
  {
  }

  /** A vector classifies as a gesture exactly when it is that gesture's pattern. */
  lemma ClassifyIsTableLookup(v: seq<int>, g: Gesture)
    requires g != Unrecognised
    ensures Classify(v) == g <==> v == Pattern(g)
  {
  }

  /** A vector is unrecognised exactly when it is none of the six patterns. */
  lemma UnrecognisedIffNoPattern(v: seq<int>)
    ensures Classify(v) == Unrecognised <==> forall g :: g != Unrecognised ==> v != Pattern(g)
  {
    if Classify(v) != Unrecognised {
      assert v == Pattern(Classify(v));
    }
  }

  /**
   The adjustment each gesture triggers; an unrecognised vector triggers none
   (the loop only draws the vector on the frame).
   */
  function ActionFor(g: Gesture): (r: Option<Action>)
    ensures r.None? <==> g == Unrecognised
  {
    match g
    case ThumbsUp => Some(Louder)
    case ThumbsDown => Some(Quieter)
    case Peace => Some(Unmute)
    case ThreeFingers => Some(FlipMute)
    case Fist => Some(Dimmer)
    case OpenPalm => Some(Brighter)
    case Unrecognised => None
  }

  /** Distinct gestures trigger distinct adjustments (at most one of them none). */
  lemma ActionForInjective(g1: Gesture, g2: Gesture)
    ensures ActionFor(g1) == ActionFor(g2) <==> g1 == g2
  {
  }
}
