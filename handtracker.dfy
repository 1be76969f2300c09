/** The headset hand tracker (HandTracker.cs), whose frames give the recorder its
    headset hand location: its state flags and the choice of the hand reported for
    each frame. The Leap Motion SDK is outside the model: its
    presence, its connection state and its frames are inputs. */
module Hands {
  import opened Strings
  import opened Defs

  /** One tracked hand of a frame, positions in millimetres. */
  datatype Hand = Hand(isLeft: bool, palm: Vector, thumbTip: Vector, indexTip: Vector, middleTip: Vector)

  /** The default MaxDistance, in centimetres. */
  const DefaultMaxDistance: real := 80.0

  /** The index of the first hand that is not a left hand, if any. */
  function FirstRightHand(hands: seq<Hand>): (r: Option<nat>)
    ensures r.Some? ==> r.value < |hands| && !hands[r.value].isLeft
    ensures r.Some? ==> forall j :: 0 <= j < r.value ==> hands[j].isLeft
    ensures r.None? ==> forall j :: 0 <= j < |hands| ==> hands[j].isLeft
  {
    if hands == [] then None
    else if !hands[0].isLeft then Some(0)
    else match FirstRightHand(hands[1..])
      case None => None
      case Some(i) => Some(i + 1)
  }

  /** `Math.Sqrt(|palm|^2) < maxDistance`, stated without the square root. */
  predicate WithinReach(palm: Vector, maxDistance: real) {
    maxDistance > 0.0 && palm.NormSquared() < maxDistance * maxDistance
  }

  /** The hand's points converted from millimetres to centimetres. */
  function Location(hand: Hand): HandLocation {
    HandLocation(hand.palm.Scale(0.1), hand.thumbTip.Scale(0.1), hand.indexTip.Scale(0.1), hand.middleTip.Scale(0.1))
  }

  /** The one location a running frame reports: the first non-left hand when its palm
      is within reach, and the empty location otherwise. */
  function FrameLocation(hands: seq<Hand>, maxDistance: real): HandLocation {
    match FirstRightHand(hands)
    case Some(i) => if WithinReach(hands[i].palm.Scale(0.1), maxDistance) then Location(hands[i]) else EmptyHand
    case None => EmptyHand
  }

  /** The first non-left hand of a frame is reported, in centimetres, exactly when its
      palm is within reach; a frame without one, or with it out of reach, reports the
      empty location. */
  lemma FrameLocationChoice(hands: seq<Hand>, maxDistance: real)
    ensures forall i :: 0 <= i < |hands| && !hands[i].isLeft && (forall j :: 0 <= j < i ==> hands[j].isLeft) ==>
      FrameLocation(hands, maxDistance)
        == if WithinReach(Location(hands[i]).palm, maxDistance) then Location(hands[i]) else EmptyHand
    ensures (forall j :: 0 <= j < |hands| ==> hands[j].isLeft) ==> FrameLocation(hands, maxDistance) == EmptyHand
    ensures maxDistance <= 0.0 ==> FrameLocation(hands, maxDistance) == EmptyHand
  {
  }

  /** Left hands in front of the first right hand never change the report. */
  lemma {:induction false} LeftHandsIgnored(lefts: seq<Hand>, rest: seq<Hand>, maxDistance: real)
    requires forall j :: 0 <= j < |lefts| ==> lefts[j].isLeft
    ensures FrameLocation(lefts + rest, maxDistance) == FrameLocation(rest, maxDistance)
  {
    LeftPrefix(lefts, rest);
  }

  lemma {:induction false} LeftPrefix(lefts: seq<Hand>, rest: seq<Hand>)
    requires forall j :: 0 <= j < |lefts| ==> lefts[j].isLeft
    ensures FirstRightHand(lefts + rest) == match FirstRightHand(rest)
      case None => None
      case Some(i) => Some(i + |lefts|)
  {
    if lefts != [] {
      assert (lefts + rest)[1..] == lefts[1..] + rest;
      LeftPrefix(lefts[1..], rest);
    } else {
      assert lefts + rest == rest;
    }
  }

  class HandTracker {
    /** `_lm != null`: the SDK object was created and not disposed. */
    var hasSdk: bool
    var isConnected: bool
    var isRunning: bool
    /** StartConnection was asked of the SDK. */
    var connectionRequested: bool
    var maxDistance: real
    /** The locations raised by the Data event, in order. */
    var emitted: seq<HandLocation>

    /** The constructor: the SDK object exists iff creating it did not throw. */
    constructor (sdkCreated: bool)
      ensures hasSdk == sdkCreated && !isConnected && !isRunning && !connectionRequested
      ensures maxDistance == DefaultMaxDistance && emitted == []
    {
      hasSdk := sdkCreated;
      isConnected, isRunning, connectionRequested := false, false, false;
      maxDistance := DefaultMaxDistance;
      emitted := [];
    }

    /** HandTracker.IsReady. */
    predicate IsReady()
      reads this
    {
      hasSdk
    }

    /** HandTracker.Run; `sdkConnected` is the SDK's own IsConnected. */
    method Run(sdkConnected: bool)
      modifies this
      ensures !old(hasSdk) || old(isConnected) ==> unchanged(this)
      ensures old(hasSdk) && !old(isConnected) ==>
        isRunning && isConnected == sdkConnected && connectionRequested == (old(connectionRequested) || !sdkConnected)
      ensures hasSdk == old(hasSdk) && maxDistance == old(maxDistance) && emitted == old(emitted)
    {
      if !hasSdk || isConnected {
        return;
      }
      if sdkConnected {
        isConnected := true;
      } else {
        connectionRequested := true;
      }
      isRunning := true;
    }

    /** HandTracker.Dispose: the SDK object is released, so the tracker is no longer ready. */
    method Dispose()
      modifies this
      ensures !IsReady()
      ensures isConnected == old(isConnected) && isRunning == old(isRunning) && emitted == old(emitted)
      ensures connectionRequested == old(connectionRequested) && maxDistance == old(maxDistance)
    {
      hasSdk := false;
    }

    /** Lm_Connect. */
    method OnConnect()
      modifies this
      ensures isConnected
      ensures hasSdk == old(hasSdk) && isRunning == old(isRunning) && emitted == old(emitted)
      ensures connectionRequested == old(connectionRequested) && maxDistance == old(maxDistance)
    {
      isConnected := true;
    }

    /** Lm_Disconnect. */
    method OnDisconnect()
      modifies this
      ensures !isConnected
      ensures hasSdk == old(hasSdk) && isRunning == old(isRunning) && emitted == old(emitted)
      ensures connectionRequested == old(connectionRequested) && maxDistance == old(maxDistance)
    {
      isConnected := false;
    }

    /** Lm_FrameReady: while running, the tracker counts as connected and raises exactly
        one Data event for the frame; otherwise nothing happens. */
    method FrameReady(hands: seq<Hand>)
      modifies this
      ensures !old(isRunning) ==> unchanged(this)
      ensures old(isRunning) ==> isConnected && emitted == old(emitted) + [FrameLocation(hands, maxDistance)]
      ensures hasSdk == old(hasSdk) && isRunning == old(isRunning)
      ensures connectionRequested == old(connectionRequested) && maxDistance == old(maxDistance)
    {
      if !isRunning {
        return;
      }
      if !isConnected {
        isConnected := true;
      }
      var handDetected := false;
      var handIndex := 0;
      while handIndex < |hands| && hands[handIndex].isLeft
        invariant 0 <= handIndex <= |hands|
        invariant forall j :: 0 <= j < handIndex ==> hands[j].isLeft
      {
        handIndex := handIndex + 1;
      }
      if handIndex < |hands| {
        assert FirstRightHand(hands) == Some(handIndex);
        var hand := hands[handIndex];
        var palm := hand.palm.Scale(0.1);
        if maxDistance > 0.0 && palm.NormSquared() < maxDistance * maxDistance {
          handDetected := true;
          emitted := emitted + [HandLocation(palm, hand.thumbTip.Scale(0.1), hand.indexTip.Scale(0.1), hand.middleTip.Scale(0.1))];
        }
      }
      if !handDetected {
        emitted := emitted + [EmptyHand];
      }
    }
  }
}
