/**
 * The two idle drivers of bot.js. `Math.random()` draws are passed in as reals
 * in [0, 1); a motion tick turns five draws into control flags by the fixed
 * thresholds and two more into a yaw and a pitch, a chat tick turns one draw
 * into an index of the message list.
 */
module Idle {

  /** The flavour messages of the idle chat broadcaster, in source order. */
  const IdleMessages: seq<string> := [
    "Keeping the server alive!",
    "AFK but online \U{1F60E}",
    "Hello everyone!",
    "I'm a bot \U{1F916}",
    "Ping me if you need me!"
  ]

  /** The six controls `stopAFK` releases, in source order. */
  const Directions: seq<string> := ["forward", "back", "left", "right", "jump", "sneak"]

  /** The five controls a motion tick randomises (never "back"). */
  const MotionControls: set<string> := {"forward", "left", "right", "jump", "sneak"}

  /** Every control of `Directions` released. */
  function Released(): (m: map<string, bool>)
    ensures m.Keys == set d | d in Directions
    ensures forall d :: d in m ==> !m[d]
  {
    map d | d in Directions :: false
  }

  /** The first `n` directions released. */
  function ReleasedUpTo(n: nat): (m: map<string, bool>)
    requires n <= |Directions|
    ensures n == |Directions| ==> m == Released()
  {
    assert Directions[..|Directions|] == Directions;
    map d | d in Directions[..n] :: false
  }

  /** Releasing one more direction extends the released map by that direction. */
  lemma ReleasedUpToStep(controls: map<string, bool>, n: nat)
    requires n < |Directions|
    ensures controls + ReleasedUpTo(n + 1) == (controls + ReleasedUpTo(n))[Directions[n] := false]
  {
    assert Directions[..n + 1] == Directions[..n] + [Directions[n]];
    assert ReleasedUpTo(n + 1) == ReleasedUpTo(n)[Directions[n] := false];
  }

  /** A value of `Math.random()`. */
  predicate IsDraw(r: real) { 0.0 <= r < 1.0 }

  datatype MotionDraws = MotionDraws(forward: real, left: real, right: real, jump: real, sneak: real,
                                     yaw: real, pitch: real)

  predicate ValidDraws(d: MotionDraws)
  {
    IsDraw(d.forward) && IsDraw(d.left) && IsDraw(d.right) && IsDraw(d.jump) && IsDraw(d.sneak)
    && IsDraw(d.yaw) && IsDraw(d.pitch)
  }

  /** The flags one motion tick applies. */
  function MotionFlags(d: MotionDraws): (m: map<string, bool>)
    ensures m.Keys == MotionControls
    ensures "back" !in m
    ensures m["forward"] == (d.forward < 0.7) && m["left"] == (d.left < 0.5) && m["right"] == (d.right < 0.5)
    ensures m["jump"] == (d.jump < 0.3) && m["sneak"] == (d.sneak < 0.2)
  {
    map["forward" := d.forward < 0.7, "left" := d.left < 0.5, "right" := d.right < 0.5,
        "jump" := d.jump < 0.3, "sneak" := d.sneak < 0.2]
  }

  /** Applying the five flags one after the other is applying the tick's flag map. */
  lemma MotionFlagsInOrder(controls: map<string, bool>, d: MotionDraws)
    ensures controls["forward" := d.forward < 0.7]["left" := d.left < 0.5]["right" := d.right < 0.5]
                    ["jump" := d.jump < 0.3]["sneak" := d.sneak < 0.2]
            == controls + MotionFlags(d)
  {
  }

  /** `Math.random() * 360`: a yaw in [0, 360). */
  function Yaw(d: MotionDraws): (y: real)
    requires ValidDraws(d)
    ensures 0.0 <= y < 360.0
  {
    d.yaw * 360.0
  }

  /** `Math.random() * 180 - 90`: a pitch in [-90, 90). */
  function Pitch(d: MotionDraws): (p: real)
    requires ValidDraws(d)
    ensures -90.0 <= p < 90.0
  {
    d.pitch * 180.0 - 90.0
  }

  /** `Math.floor(Math.random() * messages.length)`: always an index of the list. */
  function MessageIndex(r: real): (i: nat)
    requires IsDraw(r)
    ensures i < |IdleMessages|
  {
    var x := r * |IdleMessages| as real;
    assert 0.0 <= x < 5.0;
    x.Floor
  }

  /** Every message of the list can be chosen. */
  lemma EveryMessageReachable(i: nat)
    requires i < |IdleMessages|
    ensures IsDraw(i as real / 5.0) && MessageIndex(i as real / 5.0) == i
  {
  }
}
