/** `onHandResults`: reduces one MediaPipe result to a status and, on a
    peace sign outside the 2000 ms debounce window, a switch to the next
    template. The pure decision lives here; the class in module App applies
    it to the demo's global state. */
module Gesture {
  import opened Wrappers
  import opened Numbers
  import opened Templates

  /** A normalized hand landmark (image coordinates, y grows downwards). */
  datatype Landmark = Landmark(x: real, y: real, z: real)

  type Hand = seq<Landmark>

  /** MediaPipe reports 21 landmarks per hand. */
  predicate WellFormed(h: Hand) {
    |h| == 21
  }

  const Wrist: nat := 0
  const ThumbTip: nat := 4
  const IndexTip: nat := 8

  /** `filter(Boolean).length`: how many entries are true. */
  function CountTrue(s: seq<bool>): (n: nat)
    ensures n <= |s|
    ensures n == 0 <==> forall i :: 0 <= i < |s| ==> !s[i]
    ensures n == |s| <==> forall i :: 0 <= i < |s| ==> s[i]
  {
    if s == [] then 0
    else
      var rest := CountTrue(s[1..]);
      assert forall i :: 1 <= i < |s| ==> s[i] == s[1..][i - 1];
      (if s[0] then 1 else 0) + rest
  }

  /** The count is the multiplicity of `true`: each true entry adds one. */
  lemma {:induction false} CountTrueIsMultiplicity(s: seq<bool>)
    ensures CountTrue(s) == multiset(s)[true]
  {
    if s != [] {
      CountTrueIsMultiplicity(s[1..]);
      assert s == [s[0]] + s[1..];
      assert multiset(s) == multiset([s[0]]) + multiset(s[1..]);
    }
  }

  /** Fingertip and PIP-joint landmarks of index, middle, ring and pinky. */
  const Tips: seq<nat> := [8, 12, 16, 20]
  const Pips: seq<nat> := [6, 10, 14, 18]

  /** Finger `f` is extended when its tip is above, i.e. at a smaller y
      than, its PIP joint. */
  predicate FingerUp(h: Hand, f: nat)
    requires WellFormed(h) && f < 4
  {
    h[Tips[f]].y < h[Pips[f]].y
  }

  /** The four finger tests, in the order the source lists them. */
  function Extended(h: Hand): (e: seq<bool>)
    requires WellFormed(h)
    ensures |e| == 4
    ensures forall f :: 0 <= f < 4 ==> e[f] == FingerUp(h, f)
  {
    [h[8].y < h[6].y, h[12].y < h[10].y, h[16].y < h[14].y, h[20].y < h[18].y]
  }

  /** Number of extended fingers, thumb not counted. */
  function FingerCount(h: Hand): (n: nat)
    requires WellFormed(h)
    ensures n <= 4
    ensures n == 4 <==> forall f :: 0 <= f < 4 ==> FingerUp(h, f)
    ensures n == 0 <==> forall f :: 0 <= f < 4 ==> !FingerUp(h, f)
  {
    CountTrue(Extended(h))
  }

  /** The finger count is the number of the four finger tests that hold. */
  lemma FingerCountCounts(h: Hand)
    requires WellFormed(h)
    ensures FingerCount(h) == multiset(Extended(h))[true]
  {
    CountTrueIsMultiplicity(Extended(h));
  }

  /** Squared planar distance between two landmarks (z is ignored). */
  function SqDistance(a: Landmark, b: Landmark): real {
    (a.x - b.x) * (a.x - b.x) + (a.y - b.y) * (a.y - b.y)
  }

  const PinchThreshold: real := 0.05

  /** `distance < 0.05` between index tip and thumb tip. The square root is
      avoided by comparing squares; PinchIsStrictDistance relates the two. */
  predicate IsPinch(h: Hand)
    requires WellFormed(h)
  {
    SqDistance(h[IndexTip], h[ThumbTip]) < PinchThreshold * PinchThreshold
  }

  /** For the true distance `dist` (nonnegative, squaring to the squared
      distance), a pinch is exactly `dist < 0.05`, strictly. */
  lemma PinchIsStrictDistance(h: Hand, dist: real)
    requires WellFormed(h)
    requires dist >= 0.0 && dist * dist == SqDistance(h[IndexTip], h[ThumbTip])
    ensures IsPinch(h) <==> dist < PinchThreshold
  {
    if dist < PinchThreshold {
      SquareGap(dist, PinchThreshold);
    } else {
      SquareGap(PinchThreshold, dist);
    }
  }

  /** What the status line reports for one result. */
  datatype Status = Pinch | Switched(to: TemplateName) | OpenHand | HandDetected | Waiting

  /** The global state the handler reads and writes: `currentTemplate` and
      `lastGestureChange` (milliseconds). */
  datatype GestureState = GestureState(template: TemplateName, lastChange: int)

  const DebounceMs: int := 2000

  /** `results.multiHandLandmarks[0]` when some hand was found. */
  function FirstHand(hands: seq<Hand>): (r: Option<Hand>)
    ensures r.Some? <==> |hands| > 0
    ensures r.Some? ==> r.value == hands[0]
  {
    if |hands| > 0 then Some(hands[0]) else None
  }

  predicate HandOk(hand: Option<Hand>) {
    hand.Some? ==> WellFormed(hand.value)
  }

  /** One call of the handler at time `now`: the reported status and the new
      state. Only an accepted peace sign changes the state, and it moves
      the template one step along the key order and stamps the time. */
  function Interpret(s: GestureState, hand: Option<Hand>, now: int): (r: (Status, GestureState))
    requires HandOk(hand)
    ensures r.0.Switched? ==> now - s.lastChange > DebounceMs
    ensures r.0.Switched? ==> r.0.to == Next(s.template) && r.1 == GestureState(Next(s.template), now)
    ensures !r.0.Switched? ==> r.1 == s
  {
    match hand
    case None => (Waiting, s)
    case Some(h) =>
      if IsPinch(h) then (Pinch, s)
      else if FingerCount(h) == 2 && now - s.lastChange > DebounceMs then
        var next := Next(s.template);
        (Switched(next), GestureState(next, now))
      else if FingerCount(h) >= 3 then (OpenHand, s)
      else (HandDetected, s)
  }

  /** The outcomes are tried in priority order: pinch, then the debounced
      peace sign, then open hand, then plain detection; no hand is waiting. */
  lemma Classification(s: GestureState, hand: Option<Hand>, now: int)
    requires HandOk(hand)
    ensures var st := Interpret(s, hand, now).0;
      (st == Waiting <==> hand.None?) &&
      (st == Pinch <==> hand.Some? && IsPinch(hand.value)) &&
      (st.Switched? <==> hand.Some? && !IsPinch(hand.value) &&
                         FingerCount(hand.value) == 2 && now - s.lastChange > DebounceMs) &&
      (st == OpenHand <==> hand.Some? && !IsPinch(hand.value) && FingerCount(hand.value) >= 3) &&
      (st == HandDetected <==> hand.Some? && !IsPinch(hand.value) &&
                               (FingerCount(hand.value) < 2 ||
                                (FingerCount(hand.value) == 2 && now - s.lastChange <= DebounceMs)))
  {
  }

  /** A switch accepted at time `t` blocks every further switch until more
      than 2000 ms have passed, whatever hand is shown in between. */
  lemma DebounceBlocks(s: GestureState, hand: Option<Hand>, t: int, hand2: Option<Hand>, now: int)
    requires HandOk(hand) && HandOk(hand2)
    requires Interpret(s, hand, t).0.Switched?
    requires now - t <= DebounceMs
    ensures var s1 := Interpret(s, hand, t).1;
      !Interpret(s1, hand2, now).0.Switched? && Interpret(s1, hand2, now).1 == s1 &&
      s1.template == Next(s.template)
  {
  }

  /** With all four fingertips above their joints and no pinch, the status
      is "open hand", at any time. */
  lemma FourFingersOpenHand(s: GestureState, h: Hand, now: int)
    requires WellFormed(h) && !IsPinch(h)
    requires forall f :: 0 <= f < 4 ==> FingerUp(h, f)
    ensures Interpret(s, Some(h), now) == (OpenHand, s)
  {
  }

  /** A frame of input: the hand MediaPipe reported (if any) and the clock. */
  datatype Frame = Frame(hand: Option<Hand>, now: int)

  predicate FramesOk(frames: seq<Frame>) {
    forall k :: 0 <= k < |frames| ==> HandOk(frames[k].hand)
  }

  /** The state after feeding a sequence of frames to the handler. */
  function After(s: GestureState, frames: seq<Frame>): GestureState
    requires FramesOk(frames)
    decreases |frames|
  {
    if frames == [] then s
    else After(Interpret(s, frames[0].hand, frames[0].now).1, frames[1..])
  }

  /** The times at which the handler accepted a switch, in order. */
  function SwitchTimes(s: GestureState, frames: seq<Frame>): seq<int>
    requires FramesOk(frames)
    decreases |frames|
  {
    if frames == [] then []
    else
      var r := Interpret(s, frames[0].hand, frames[0].now);
      (if r.0.Switched? then [frames[0].now] else []) + SwitchTimes(r.1, frames[1..])
  }

  lemma FramesOkTail(frames: seq<Frame>)
    requires FramesOk(frames) && frames != []
    ensures FramesOk(frames[1..])
  {
    forall k | 0 <= k < |frames[1..]| ensures HandOk(frames[1..][k].hand) {
      assert frames[1..][k] == frames[k + 1];
    }
  }

  /** Each time in `ts` is more than 2000 ms after the one before it, the
      first more than 2000 ms after `start`. */
  predicate SpacedAfter(start: int, ts: seq<int>)
    decreases |ts|
  {
    ts == [] || (ts[0] > start + DebounceMs && SpacedAfter(ts[0], ts[1..]))
  }

  /** Over any run of frames, in whatever clock order, accepted switches are
      spaced by more than 2000 ms, the first more than 2000 ms after the
      stamp the run started from. */
  lemma {:induction false} SwitchesSpaced(s: GestureState, frames: seq<Frame>)
    requires FramesOk(frames)
    ensures SpacedAfter(s.lastChange, SwitchTimes(s, frames))
    decreases |frames|
  {
    if frames != [] {
      var r := Interpret(s, frames[0].hand, frames[0].now);
      FramesOkTail(frames);
      SwitchesSpaced(r.1, frames[1..]);
      var rest := SwitchTimes(r.1, frames[1..]);
      if r.0.Switched? {
        var ts := [frames[0].now] + rest;
        assert SwitchTimes(s, frames) == ts;
        assert ts[1..] == rest;
      } else {
        assert SwitchTimes(s, frames) == rest;
      }
    }
  }

  /** Spacing is cumulative: any two accepted switches are more than
      2000 ms apart, not only neighbouring ones. */
  lemma {:induction false} SpacedPairwise(start: int, ts: seq<int>, i: nat, j: nat)
    requires SpacedAfter(start, ts) && i < j < |ts|
    ensures ts[j] > ts[i] + DebounceMs
    ensures ts[i] > start + DebounceMs
    decreases |ts|
  {
    if i > 0 {
      SpacedPairwise(ts[0], ts[1..], i - 1, j - 1);
    } else if j > 1 {
      SpacedPairwise(ts[0], ts[1..], 0, j - 1);
    } else {
      assert SpacedAfter(ts[0], ts[1..]);
    }
  }

  /** One frame of a run: the switch times of the whole run are this
      frame's (if it switched) followed by the rest's, and the state after
      the whole run is the state after the rest. */
  lemma RunStep(s: GestureState, frames: seq<Frame>)
    requires FramesOk(frames) && frames != []
    ensures FramesOk(frames[1..])
    ensures var r := Interpret(s, frames[0].hand, frames[0].now);
      SwitchTimes(s, frames) == (if r.0.Switched? then [frames[0].now] else []) + SwitchTimes(r.1, frames[1..]) &&
      After(s, frames) == After(r.1, frames[1..])
  {
    FramesOkTail(frames);
  }

  /** After a run the template is the start template advanced once per
      accepted switch. */
  lemma {:induction false} RunAdvances(s: GestureState, frames: seq<Frame>)
    requires FramesOk(frames)
    ensures After(s, frames).template == NextN(s.template, |SwitchTimes(s, frames)|)
    decreases |frames|
  {
    if frames != [] {
      var r := Interpret(s, frames[0].hand, frames[0].now);
      RunStep(s, frames);
      RunAdvances(r.1, frames[1..]);
      if r.0.Switched? {
        NextNShift(s.template, |SwitchTimes(r.1, frames[1..])|);
      }
    }
  }

  /** After a run the stamp is the time of the last accepted switch, or the
      starting stamp if there was none. */
  lemma {:induction false} RunStamp(s: GestureState, frames: seq<Frame>)
    requires FramesOk(frames)
    ensures var ts := SwitchTimes(s, frames);
      After(s, frames).lastChange == (if ts == [] then s.lastChange else ts[|ts| - 1])
    decreases |frames|
  {
    if frames != [] {
      var r := Interpret(s, frames[0].hand, frames[0].now);
      RunStep(s, frames);
      RunStamp(r.1, frames[1..]);
    }
  }

  /** Advancing once and then `k` times is advancing `k + 1` times. */
  lemma {:induction false} NextNShift(t: TemplateName, k: nat)
    ensures NextN(Next(t), k) == NextN(t, k + 1)
  {
    var u, v := NextN(Next(t), k), NextN(t, k + 1);
    SameIndexAfterShift(t, k);
    assert u == Order[IndexOf(u)] == Order[IndexOf(v)] == v;
  }

  /** Both ways of advancing `k + 1` times land on the same index. */
  lemma SameIndexAfterShift(t: TemplateName, k: nat)
    ensures IndexOf(NextN(Next(t), k)) == IndexOf(NextN(t, k + 1))
  {
    NextNIndex(Next(t), k);
    NextNIndex(t, k + 1);
    SuccShift(IndexOf(t), k);
  }

  /** Wrapping once and then shifting by `k` is shifting by `k + 1`. */
  lemma SuccShift(i: nat, k: nat)
    requires i < 6
    ensures ((i + 1) % 6 + k) % 6 == (i + 1 + k) % 6
  {
    if i == 5 {
      assert i + 1 + k == 6 + k;
    }
  }

  /** Three peace signs from "spiral" with the initial stamp 0, at T,
      T + 500 and T + 2100 (T > 2000): the first switches to heart, the
      second falls inside the 2000 ms window and changes nothing, the third
      switches to flower. */
  lemma PeaceSequence(h: Hand, t: int)
    requires WellFormed(h) && !IsPinch(h) && FingerCount(h) == 2
    requires t > DebounceMs
    ensures var s0 := GestureState(Spiral, 0);
      var r1 := Interpret(s0, Some(h), t);
      var r2 := Interpret(r1.1, Some(h), t + 500);
      var r3 := Interpret(r2.1, Some(h), t + 2100);
      r1.0 == Switched(Heart) && r2.0 == HandDetected && r2.1.template == Heart &&
      r3.0 == Switched(Flower) && r3.1 == GestureState(Flower, t + 2100)
  {
  }

  /** With the initial stamp 0 and the strict comparison, no peace sign at a
      clock reading of 2000 ms or less is accepted. */
  lemma EarlyPeaceIgnored(h: Hand, now: int)
    requires WellFormed(h) && FingerCount(h) == 2 && now <= DebounceMs
    ensures !Interpret(GestureState(Spiral, 0), Some(h), now).0.Switched?
  {
  }

  /** A hand with index and thumb tips exactly 0.05 apart is not pinching;
      at 0.0499 apart it is. */
  lemma PinchBoundary(h: Hand)
    requires WellFormed(h)
    ensures !IsPinch(h[IndexTip := Landmark(0.05, 0.0, 0.0)][ThumbTip := Landmark(0.0, 0.0, 0.0)])
    ensures IsPinch(h[IndexTip := Landmark(0.0499, 0.0, 0.0)][ThumbTip := Landmark(0.0, 0.0, 0.0)])
  {
  }
}
