/**
 * The presence counter of bot.js (`realPlayersOnline`): other players'
 * joins raise it, their leaves lower it, never below zero, and each step names
 * the vanish command the handler asks to send. Events naming the bot itself
 * are ignored.
 */
module Presence {

  const VanishOn: string := "/vanish on"
  const VanishOff: string := "/vanish off"

  datatype Event = Joined(name: string) | Left(name: string)

  /** The counter after a step, and the chat commands the step asks to send. */
  datatype Outcome = Outcome(count: int, commands: seq<string>)

  /** The `playerJoined` handler. */
  function Join(self: string, count: int, name: string): (o: Outcome)
    ensures name == self ==> o == Outcome(count, [])
    ensures name != self ==> o.count == count + 1 && o.commands == [VanishOn]
  {
    if name == self then Outcome(count, []) else Outcome(count + 1, [VanishOn])
  }

  /** The `playerLeft` handler: the decrement is clamped at zero. */
  function Leave(self: string, count: int, name: string): (o: Outcome)
    ensures name == self ==> o == Outcome(count, [])
    ensures name != self ==> o.count >= 0
    ensures name != self && count >= 1 ==> o.count == count - 1
    ensures name != self && count < 1 ==> o.count == 0
    ensures name != self ==> (o.commands == [VanishOff] <==> o.count == 0)
    ensures o.commands == [] || o.commands == [VanishOff]
  {
    if name == self then Outcome(count, [])
    else
      var c := if count - 1 < 0 then 0 else count - 1;
      Outcome(c, if c == 0 then [VanishOff] else [])
  }

  function Step(self: string, count: int, e: Event): Outcome
  {
    match e
    case Joined(name) => Join(self, count, name)
    case Left(name) => Leave(self, count, name)
  }

  /** A sequence of events applied in order; the commands are collected in order. */
  function Run(self: string, count: int, events: seq<Event>): Outcome
    decreases |events|
  {
    if events == [] then Outcome(count, [])
    else
      var first := Step(self, count, events[0]);
      var rest := Run(self, first.count, events[1..]);
      Outcome(rest.count, first.commands + rest.commands)
  }

  /** The counter never goes negative, whatever the events (a leave with no join included). */
  lemma {:induction false} RunNeverNegative(self: string, count: int, events: seq<Event>)
    requires count >= 0
    ensures Run(self, count, events).count >= 0
    decreases |events|
  {
    if events != [] {
      RunNeverNegative(self, Step(self, count, events[0]).count, events[1..]);
    }
  }


  ghost predicate AllSelf(self: string, events: seq<Event>)
  {
    forall i :: 0 <= i < |events| ==> events[i].name == self
  }

  /** Events that name the bot itself change nothing and send nothing. */
  lemma {:induction false} RunIgnoresSelf(self: string, count: int, events: seq<Event>)
    requires AllSelf(self, events)
    ensures Run(self, count, events) == Outcome(count, [])
    decreases |events|
  {
    if events != [] {
      assert AllSelf(self, events[1..]) by {
        forall i | 0 <= i < |events| - 1 ensures events[1..][i].name == self {
          assert events[1..][i] == events[i + 1];
        }
      }
      RunIgnoresSelf(self, count, events[1..]);
    }
  }

  /** The number of `Joined` events naming someone other than the bot. */
  function OtherJoins(self: string, events: seq<Event>): nat
    decreases |events|
  {
    if events == [] then 0
    else (if events[0].Joined? && events[0].name != self then 1 else 0) + OtherJoins(self, events[1..])
  }

  function Repeat(s: string, n: nat): (r: seq<string>)
    ensures |r| == n && forall i :: 0 <= i < n ==> r[i] == s
  {
    if n == 0 then [] else [s] + Repeat(s, n - 1)
  }

  ghost predicate NoLeaves(events: seq<Event>)
  {
    forall i :: 0 <= i < |events| ==> events[i].Joined?
  }

  /**
   * With joins only, the counter rises by the number of other players, and
   * `/vanish on` is sent once for every one of them (not only on the first).
   */
  lemma {:induction false} RunJoinsOnly(self: string, count: int, events: seq<Event>)
    requires NoLeaves(events)
    ensures Run(self, count, events).count == count + OtherJoins(self, events)
    ensures Run(self, count, events).commands == Repeat(VanishOn, OtherJoins(self, events))
    decreases |events|
  {
    if events != [] {
      assert NoLeaves(events[1..]) by {
        forall i | 0 <= i < |events| - 1 ensures events[1..][i].Joined? {
          assert events[1..][i] == events[i + 1];
        }
      }
      RunJoinsOnly(self, Step(self, count, events[0]).count, events[1..]);
    }
  }

  /** Alice then Bob join: the counter reads two and `/vanish on` went out twice. */
  lemma AliceThenBob(self: string)
    requires self != "Alice" && self != "Bob"
    ensures Run(self, 0, [Joined("Alice"), Joined("Bob")]) == Outcome(2, [VanishOn, VanishOn])
  {
    var events := [Joined("Alice"), Joined("Bob")];
    assert events[1..] == [Joined("Bob")];
    assert events[1..][1..] == [];
  }

}
