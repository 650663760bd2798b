/**
 Finger-state extraction: turning the 21 key points the hand detector reports
 for one hand into the five-slot vector [thumb, index, middle, ring, pinky],
 where 1 means "extended" and 0 means "folded".
 */
module Landmarks {

  /** One key point of a detected hand, normalised to the (mirrored) frame. */
  datatype Landmark = Landmark(x: real, y: real, z: real)

  /** The detector always reports this many key points per hand. */
  const LANDMARK_COUNT: nat := 21

  /** Key points of the five finger tips, thumb first. */
  const TIP_IDS: seq<nat> := [4, 8, 12, 16, 20]

  /** The 0/1 encoding the extraction appends for one finger. */
  function Bit(b: bool): (r: int)
    ensures r == 0 || r == 1
    ensures r == 1 <==> b
  {
    if b then 1 else 0
  }

  /** A five-slot vector whose every slot is 0 or 1. */
  predicate IsFingerVector(v: seq<int>)
  {
    |v| == 5 && forall k :: 0 <= k < 5 ==> v[k] == 0 || v[k] == 1
  }

  /**
   The finger-state vector of a hand: the thumb counts as extended when its tip
   lies left of its interphalangeal joint (smaller x); every other finger when
   its tip lies above (smaller y) the joint two key points below it.
   */
  function FingerStates(hand: seq<Landmark>): (r: seq<int>)
    requires |hand| == LANDMARK_COUNT
    ensures IsFingerVector(r)
  {
    [ Bit(hand[4].x < hand[3].x),
      Bit(hand[8].y < hand[6].y),
      Bit(hand[12].y < hand[10].y),
      Bit(hand[16].y < hand[14].y),
      Bit(hand[20].y < hand[18].y) ]
  }

  /**
   What each slot of the vector means: slot 0 compares x of key points 4 and 3,
   slot k (1 <= k <= 4) compares y of tip 4k+4 and joint 4k+2.
   */
  lemma FingerStatesMeaning(hand: seq<Landmark>)
    requires |hand| == LANDMARK_COUNT
    ensures IsFingerVector(FingerStates(hand))
    ensures FingerStates(hand)[0] == 1 <==> hand[4].x < hand[3].x
    ensures forall k :: 1 <= k < 5 ==>
              (FingerStates(hand)[k] == 1 <==> hand[4 * k + 4].y < hand[4 * k + 2].y)
  {
  }

  /**
   The vector depends only on x of key points 3 and 4 and on y of the tips and
   joints 6, 8, 10, 12, 14, 16, 18, 20: the wrist and z are never consulted.
   */
  lemma FingerStatesReadOnlyTipsAndJoints(h1: seq<Landmark>, h2: seq<Landmark>)
    requires |h1| == LANDMARK_COUNT && |h2| == LANDMARK_COUNT
    requires h1[3].x == h2[3].x && h1[4].x == h2[4].x
    requires h1[6].y == h2[6].y && h1[8].y == h2[8].y
    requires h1[10].y == h2[10].y && h1[12].y == h2[12].y
    requires h1[14].y == h2[14].y && h1[16].y == h2[16].y
    requires h1[18].y == h2[18].y && h1[20].y == h2[20].y
    ensures FingerStates(h1) == FingerStates(h2)
  {
  }

  /** Moving the wrist (key point 0) anywhere leaves the vector unchanged. */
  lemma WristDoesNotMatter(hand: seq<Landmark>, wrist: Landmark)
    requires |hand| == LANDMARK_COUNT
    ensures FingerStates(hand[0 := wrist]) == FingerStates(hand)
  {
    FingerStatesReadOnlyTipsAndJoints(hand[0 := wrist], hand);
  }

  /**
   The extraction loop: append the thumb's bit, then one bit per remaining
   finger, looking up each tip in TIP_IDS and its joint two key points below.
   */
  method GetFingerStates(hand: seq<Landmark>) returns (states: seq<int>)
    requires |hand| == LANDMARK_COUNT
    ensures states == FingerStates(hand)
  {
    var tipIds := TIP_IDS;
    states := [];
    // the wrist is read by the extraction but plays no part in the result
    var wristY := hand[0].y;
    if hand[4].x < hand[3].x {
      states := states + [1];
    } else {
      states := states + [0];
    }
    var id := 1;
    while id < 5
      invariant 1 <= id <= 5
      invariant states == FingerStates(hand)[..id]
    {
      var tip := tipIds[id];
      if hand[tip].y < hand[tip - 2].y {
        states := states + [1];
      } else {
        states := states + [0];
      }
      id := id + 1;
    }
  }

  /**
   A thumb pointing up: its tip lies above both its metacarpophalangeal joint
   (key point 2) and the wrist (key point 0). The gesture loop never calls it.
   */
  function IsThumbUp(hand: seq<Landmark>): (up: bool)
    requires |hand| == LANDMARK_COUNT
    ensures up <==> forall j :: j in {0, 2} ==> hand[4].y < hand[j].y
  {
    hand[4].y < hand[2].y && hand[4].y < hand[0].y
  }

  /** IsThumbUp looks only at y of key points 0, 2 and 4. */
  lemma IsThumbUpReadsOnlyVertical(h1: seq<Landmark>, h2: seq<Landmark>)
    requires |h1| == LANDMARK_COUNT && |h2| == LANDMARK_COUNT
    requires h1[0].y == h2[0].y && h1[2].y == h2[2].y && h1[4].y == h2[4].y
    ensures IsThumbUp(h1) <==> IsThumbUp(h2)
  {
  }

  /**
   A hand that realises a given vector: each tip sits on the side of its joint
   the vector asks for, every other key point at the centre of the frame.
   */
  function PoseHand(v: seq<int>): (hand: seq<Landmark>)
    requires IsFingerVector(v)
    ensures |hand| == LANDMARK_COUNT
    ensures FingerStates(hand) == v
  {
    var hand := seq(21, i =>
      Landmark(
        if i == 4 then (if v[0] == 1 then 0.0 else 1.0) else 0.5,
        if i == 8 || i == 12 || i == 16 || i == 20 then (if v[i / 4 - 1] == 1 then 0.0 else 1.0) else 0.5,
        0.0));
    assert hand[4].x < hand[3].x <==> v[0] == 1;
    assert hand[8].y < hand[6].y <==> v[1] == 1;
    assert hand[12].y < hand[10].y <==> v[2] == 1;
    assert hand[16].y < hand[14].y <==> v[3] == 1;
    assert hand[20].y < hand[18].y <==> v[4] == 1;
    hand
  }

  /** Every one of the 32 finger vectors is the vector of some hand. */
  lemma EveryFingerVectorArises(v: seq<int>)
    requires IsFingerVector(v)
    ensures exists hand :: |hand| == LANDMARK_COUNT && FingerStates(hand) == v
  {
    var hand := PoseHand(v);
    assert |hand| == LANDMARK_COUNT && FingerStates(hand) == v;
  }

  /**
   The extraction's thumb slot is not IsThumbUp: a hand whose vector is the
   thumbs-up vector [1,0,0,0,0] need not have its thumb pointing up.
   */
  lemma ThumbsUpVectorWithoutThumbUp()
    ensures exists hand :: |hand| == LANDMARK_COUNT && FingerStates(hand) == [1, 0, 0, 0, 0] && !IsThumbUp(hand)
  {
    var hand := PoseHand([1, 0, 0, 0, 0]);
    assert hand[4].y == 0.5 && hand[2].y == 0.5;
    assert |hand| == LANDMARK_COUNT && FingerStates(hand) == [1, 0, 0, 0, 0] && !IsThumbUp(hand);
  }
}
