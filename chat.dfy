/**
 * The chat trigger responder of bot.js: from the bot's own name, the speaker and
 * the message, the ordered list of lines the `chat` handler asks to send.
 * JavaScript's `/…/i` flag without `u` folds only ASCII letters onto ASCII
 * letters, so ASCII lower-casing followed by a substring search is exact for the
 * two patterns used here ("hi bot", and "afk" whose optional `?` never changes
 * whether the pattern matches).
 */
module Chat {
  import Presence

  const GreetPattern: string := "hi bot"
  const AfkPattern: string := "afk"

  const AfkReply: string := "Yes, I'm keeping the server alive \U{26CF}\U{FE0F}"
  const StateReply: string := "\U{2705} I am online and AFK."

  const VanishOnTrigger: string := "!vanish on"
  const VanishOffTrigger: string := "!vanish off"
  const StateTrigger: string := "!state"

  /** The greeting addressed to the speaker. */
  function Greeting(speaker: string): (g: string)
    ensures |g| == |speaker| + 9 && g[..6] == "Hello " && g[6..6 + |speaker|] == speaker
  {
    "Hello " + speaker + "! \U{1F44B}"
  }

  function LowerChar(c: char): char
  {
    if 'A' <= c <= 'Z' then (c as int - 'A' as int + 'a' as int) as char else c
  }

  /** ASCII lower-casing. */
  function Lower(s: string): (r: string)
    ensures |r| == |s|
    ensures forall i :: 0 <= i < |s| ==> r[i] == LowerChar(s[i])
  {
    seq(|s|, i requires 0 <= i < |s| => LowerChar(s[i]))
  }

  /** `pattern` stands in `s` at position `i`. */
  ghost predicate OccursAt(s: string, pattern: string, i: int)
  {
    0 <= i && i + |pattern| <= |s| && s[i..i + |pattern|] == pattern
  }

  /** Substring search, as the regular-expression engine performs it. */
  predicate Contains(s: string, pattern: string): (found: bool)
    ensures found ==> |pattern| <= |s|
    ensures pattern == [] ==> found
    decreases |s|
  {
    (|pattern| <= |s| && s[..|pattern|] == pattern) || (|s| > 0 && Contains(s[1..], pattern))
  }

  /** A successful search has found an occurrence. */
  lemma {:induction false} ContainsOccurs(s: string, pattern: string) returns (i: nat)
    requires Contains(s, pattern)
    ensures OccursAt(s, pattern, i)
    decreases |s|
  {
    if |pattern| <= |s| && s[..|pattern|] == pattern {
      i := 0;
    } else {
      var j := ContainsOccurs(s[1..], pattern);
      assert s[j + 1..j + 1 + |pattern|] == s[1..][j..j + |pattern|];
      i := j + 1;
    }
  }

  /** An occurrence is found by the search. */
  lemma {:induction false} OccursContains(s: string, pattern: string, i: nat)
    requires OccursAt(s, pattern, i)
    ensures Contains(s, pattern)
    decreases i
  {
    if i > 0 {
      assert s[1..][i - 1..i - 1 + |pattern|] == s[i..i + |pattern|];
      OccursContains(s[1..], pattern, i - 1);
    }
  }

  /** The search finds the pattern exactly when it occurs somewhere. */
  lemma ContainsIff(s: string, pattern: string)
    ensures Contains(s, pattern) <==> exists i :: OccursAt(s, pattern, i)
  {
    if Contains(s, pattern) {
      var i := ContainsOccurs(s, pattern);
    }
    if i :| OccursAt(s, pattern, i) {
      OccursContains(s, pattern, i);
    }
  }

  /** A pattern holding a character the text lacks is not found. */
  lemma {:induction false} MissingCharNotContained(s: string, pattern: string, c: char)
    requires c in pattern && c !in s
    ensures !Contains(s, pattern)
    decreases |s|
  {
    if |s| > 0 {
      MissingCharNotContained(s[1..], pattern, c);
    }
  }

  /** The case-insensitive pattern (written in lower case) occurs in the message. */
  ghost predicate Mentions(message: string, pattern: string)
  {
    exists i :: OccursAt(Lower(message), pattern, i)
  }

  /** The test `/hi bot/i.test(message)` of bot.js:91. */
  predicate Greets(message: string) { Contains(Lower(message), GreetPattern) }
  /** The test `/afk\??/i.test(message)` of bot.js:92. */
  predicate AsksAfk(message: string) { Contains(Lower(message), AfkPattern) }

  /** Lower-casing leaves a string without capitals as it is. */
  lemma LowerNoCapitals(s: string)
    requires forall i :: 0 <= i < |s| ==> !('A' <= s[i] <= 'Z')
    ensures Lower(s) == s
  {
  }

  /** Text that neither pattern can occur in, whatever its case: no capitals, no 'b', no 'k'. */
  ghost predicate Plain(t: string)
  {
    'b' !in t && 'k' !in t && forall i :: 0 <= i < |t| ==> !('A' <= t[i] <= 'Z')
  }

  lemma PlainMentionsNoPattern(t: string)
    requires Plain(t)
    ensures !Greets(t) && !AsksAfk(t)
  {
    LowerNoCapitals(t);
    assert GreetPattern[3] == 'b' && AfkPattern[2] == 'k';
    MissingCharNotContained(t, GreetPattern, 'b');
    MissingCharNotContained(t, AfkPattern, 'k');
  }

  lemma TriggersPlain()
    ensures Plain(VanishOnTrigger)
    ensures Plain(VanishOffTrigger)
    ensures Plain(StateTrigger)
  {
  }

  /** An exact-text trigger mentions neither pattern. */
  lemma TriggerMentionsNoPattern(trigger: string)
    ensures trigger in {VanishOnTrigger, VanishOffTrigger, StateTrigger} ==> !Greets(trigger) && !AsksAfk(trigger)
  {
    TriggersPlain();
    if trigger == VanishOnTrigger || trigger == VanishOffTrigger || trigger == StateTrigger {
      PlainMentionsNoPattern(trigger);
    }
  }

  /** The five possible replies are pairwise different. */
  lemma RepliesDistinct(speaker: string)
    ensures Greeting(speaker) !in {AfkReply, Presence.VanishOn, Presence.VanishOff, StateReply}
    ensures AfkReply !in {Presence.VanishOn, Presence.VanishOff, StateReply}
    ensures Presence.VanishOn != Presence.VanishOff && Presence.VanishOn != StateReply && Presence.VanishOff != StateReply
  {
    var g := Greeting(speaker);
    assert g[0] == 'H';
    assert AfkReply[0] == 'Y' && Presence.VanishOn[0] == '/' && Presence.VanishOff[0] == '/' && StateReply[0] == '\U{2705}';
  }

  /** The `chat` handler's replies, in the order the handler sends them. */
  function Replies(self: string, speaker: string, message: string): (r: seq<string>)
    ensures speaker == self ==> r == []
    ensures speaker != self ==>
      |r| == (if Mentions(message, GreetPattern) then 1 else 0)
           + (if Mentions(message, AfkPattern) then 1 else 0)
           + (if message in {VanishOnTrigger, VanishOffTrigger, StateTrigger} then 1 else 0)
    ensures speaker != self ==> (Greeting(speaker) in r <==> Mentions(message, GreetPattern))
    ensures speaker != self ==> (AfkReply in r <==> Mentions(message, AfkPattern))
    ensures Presence.VanishOn in r <==> speaker != self && message == VanishOnTrigger
    ensures Presence.VanishOff in r <==> speaker != self && message == VanishOffTrigger
    ensures StateReply in r <==> speaker != self && message == StateTrigger
  {
    ContainsIff(Lower(message), GreetPattern);
    ContainsIff(Lower(message), AfkPattern);
    TriggerMentionsNoPattern(message);
    RepliesDistinct(speaker);
    if speaker == self then [] else RuleReplies(speaker, message)
  }

  /** The reply of one rule: present exactly when the rule fires. */
  function Emit(fires: bool, reply: string): seq<string>
  {
    if fires then [reply] else []
  }

  /**
   * The five rules of the handler, each applied on its own, in source order:
   * at most one reply per rule, each reply one of the five, the greeting first
   * when it fires at all.
   */
  function RuleReplies(speaker: string, message: string): (r: seq<string>)
    ensures |r| <= 5
    ensures forall x :: x in r ==> x in [Greeting(speaker), AfkReply, Presence.VanishOn, Presence.VanishOff, StateReply]
    ensures Greets(message) ==> |r| >= 1 && r[0] == Greeting(speaker)
  {
    Emit(Greets(message), Greeting(speaker))
    + Emit(AsksAfk(message), AfkReply)
    + Emit(message == VanishOnTrigger, Presence.VanishOn)
    + Emit(message == VanishOffTrigger, Presence.VanishOff)
    + Emit(message == StateTrigger, StateReply)
  }

  /** When both pattern rules fire, the greeting comes before the affirmation. */
  lemma GreetingBeforeAffirmation(self: string, speaker: string, message: string)
    requires speaker != self && Greets(message) && AsksAfk(message)
    ensures |Replies(self, speaker, message)| >= 2
    ensures Replies(self, speaker, message)[..2] == [Greeting(speaker), AfkReply]
  {
  }

  /** "hi bot" from anyone else yields exactly one greeting, addressed to them. */
  lemma HiBotGreetsSpeaker(self: string, speaker: string)
    requires speaker != self
    ensures Replies(self, speaker, "hi bot") == [Greeting(speaker)]
  {
    LowerNoCapitals("hi bot");
    assert Greets("hi bot");
    var m := "hi bot";
    assert !AsksAfk(m) by {
      assert 'k' !in Lower(m) && AfkPattern[2] == 'k';
      MissingCharNotContained(Lower(m), AfkPattern, 'k');
    }
  }

  /** The match ignores case: "Hi BOT" greets as well. */
  lemma MixedCaseGreets(self: string, speaker: string)
    requires speaker != self
    ensures Replies(self, speaker, "Hi BOT") == [Greeting(speaker)]
  {
    var m := "Hi BOT";
    assert Lower(m) == "hi bot";
    LowerNoCapitals("hi bot");
    assert Greets(m);
    assert !AsksAfk(m) by {
      assert 'k' !in Lower(m) && AfkPattern[2] == 'k';
      MissingCharNotContained(Lower(m), AfkPattern, 'k');
    }
  }

  /** "hi bot afk" yields the greeting and then the affirmation. */
  lemma HiBotAfkTwoReplies(self: string, speaker: string)
    requires speaker != self
    ensures Replies(self, speaker, "hi bot afk") == [Greeting(speaker), AfkReply]
  {
    var m := "hi bot afk";
    LowerNoCapitals(m);
    assert OccursAt(Lower(m), GreetPattern, 0);
    OccursContains(Lower(m), GreetPattern, 0);
    assert OccursAt(Lower(m), AfkPattern, 7);
    OccursContains(Lower(m), AfkPattern, 7);
  }
}
