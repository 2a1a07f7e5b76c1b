/**
 * The session controller of bot.js: the module-level state (`bot`, the two
 * interval handles, `retryCount`, `realPlayersOnline`) as the fields of one
 * object, the safe wrappers and the idle-driver start/stop functions as its
 * methods, and each event handler registered by `createBot` as a method the
 * event loop calls. The chat lines that reach the server and the delays handed
 * to `setTimeout(createBot, …)` are kept as logs.
 */
module Controller {
  import opened Options
  import Config
  import Backoff
  import Chat
  import Presence
  import Idle

  /** The error codes after which the `error` handler forces a reconnect. */
  const NetworkErrorCodes: set<string> := {"ECONNRESET", "ETIMEDOUT"}

  /**
   * One mineflayer session: where it connects, whether it has an entity yet,
   * whether its client is still open (present and not destroyed), the control
   * states last applied and the direction it faces.
   */
  datatype Session = Session(endpoint: Config.Endpoint, username: string, hasEntity: bool, open: bool,
                             controls: map<string, bool>, yaw: real, pitch: real)

  /** The guard of `safeChat` (bot.js:28) lets the line through: there is a bot and its client is open. */
  predicate ChatUsable(b: Option<Session>)
  {
    b.Some? && b.value.open
  }

  /**
   * The guard of `safeSetControl` (bot.js:21) and of the two interval callbacks
   * (bot.js:42, 61) lets the call through: the bot also has an entity.
   */
  predicate ControlUsable(b: Option<Session>)
  {
    ChatUsable(b) && b.value.hasEntity
  }

  /** What `stopAFK` does to the session: every direction released, when controls reach it. */
  function ReleaseAll(b: Option<Session>): (r: Option<Session>)
    ensures ControlUsable(b) ==> r.Some? && forall d :: d in Idle.Directions ==> d in r.value.controls && !r.value.controls[d]
    ensures ControlUsable(b) ==> r.value.(controls := b.value.controls) == b.value
    ensures ControlUsable(b) ==> r.value.controls.Keys == b.value.controls.Keys + (set d | d in Idle.Directions)
    ensures ControlUsable(b) ==>
      forall k :: k in b.value.controls && k !in Idle.Directions ==> r.value.controls[k] == b.value.controls[k]
    ensures !ControlUsable(b) ==> r == b
  {
    if ControlUsable(b) then Some(b.value.(controls := b.value.controls + Idle.Released())) else b
  }

  /** Stopping twice is stopping once: a second `stopAFK` finds every direction released already. */
  lemma ReleaseAllIdempotent(b: Option<Session>)
    ensures ReleaseAll(ReleaseAll(b)) == ReleaseAll(b)
  {
    if ControlUsable(b) {
      var c := b.value.controls;
      assert c + Idle.Released() + Idle.Released() == c + Idle.Released();
    }
  }

  /** What `bot.end()` does when the client is still open. */
  function Close(b: Option<Session>): (r: Option<Session>)
    ensures !ChatUsable(r)
    ensures ChatUsable(b) ==> r == Some(b.value.(open := false))
    ensures !ChatUsable(b) ==> r == b
  {
    if ChatUsable(b) then Some(b.value.(open := false)) else b
  }

  /** Sending two batches through the same guard is sending their concatenation. */
  lemma AppendAssoc(start: seq<string>, a: seq<string>, b: seq<string>, usable: bool)
    ensures start + (if usable then a else []) + (if usable then b else []) == start + (if usable then a + b else [])
  {
  }

  class Bot {
    /** `USERNAME`. */
    const username: string
    /** `host` and `port`. */
    const endpoint: Config.Endpoint

    /** The current mineflayer bot; `None` before the first `createBot`. */
    var bot: Option<Session>
    /** `afkInterval` refers to a running interval. */
    var motionTimer: bool
    /** `chatInterval` refers to a running interval. */
    var chatTimer: bool
    /** Motion intervals still running whose handle `afkInterval` no longer holds. */
    var strayMotionTimers: nat
    /** Chat intervals still running whose handle `chatInterval` no longer holds. */
    var strayChatTimers: nat
    var retryCount: nat
    var realPlayersOnline: int
    /** Every chat line that reached the server, in order. */
    var sent: seq<string>
    /** Every delay handed to `setTimeout(createBot, …)`, in order. */
    var reconnects: seq<nat>

    /** The presence counter never goes negative. */
    ghost predicate Valid()
      reads this`realPlayersOnline
    {
      realPlayersOnline >= 0
    }

    /**
     * The module's top-level bindings, before `createBot` first runs. `name` and
     * `server` are the values of `USERNAME` and of the parsed server entry,
     * `Config.Username` and `Config.ParseServer` of the environment.
     */
    constructor (name: string, server: Config.Endpoint)
      ensures Valid()
      ensures username == name && endpoint == server
      ensures bot == None && !motionTimer && !chatTimer && strayMotionTimers == 0 && strayChatTimers == 0
      ensures retryCount == 0 && realPlayersOnline == 0 && sent == [] && reconnects == []
    {
      username := name;
      endpoint := server;
      bot := None;
      motionTimer, chatTimer := false, false;
      strayMotionTimers, strayChatTimers := 0, 0;
      retryCount, realPlayersOnline := 0, 0;
      sent, reconnects := [], [];
    }

    /** `createBot`: a fresh session replaces the previous one, open, without entity, controls released. */
    method Connect()
      modifies this`bot
      ensures bot == Some(Session(endpoint, username, false, true, Idle.Released(), 0.0, 0.0))
    {
      bot := Some(Session(endpoint, username, false, true, Idle.Released(), 0.0, 0.0));
    }

    /** `safeSetControl`: a no-op unless the bot has an entity and an open client. */
    method SafeSetControl(name: string, value: bool)
      modifies this`bot
      ensures old(ControlUsable(bot)) ==> bot == Some(old(bot).value.(controls := old(bot).value.controls[name := value]))
      ensures !old(ControlUsable(bot)) ==> bot == old(bot)
    {
      if !ControlUsable(bot) {
        return;
      }
      bot := Some(bot.value.(controls := bot.value.controls[name := value]));
    }

    /** `safeChat`: a no-op unless there is a bot with an open client. */
    method SafeChat(msg: string)
      modifies this`sent
      ensures sent == old(sent) + (if ChatUsable(bot) then [msg] else [])
    {
      if !ChatUsable(bot) {
        return;
      }
      sent := sent + [msg];
    }

    /** `stopAFK`: clears the motion interval, then releases the six directions one by one. */
    method StopAFK()
      modifies this`motionTimer, this`bot
      ensures !motionTimer
      ensures bot == ReleaseAll(old(bot))
    {
      motionTimer := false;
      if bot.None? {
        return;
      }
      ghost var before := bot;
      assert before.value.controls + Idle.ReleasedUpTo(0) == before.value.controls;
      var i := 0;
      while i < |Idle.Directions|
        invariant 0 <= i <= |Idle.Directions|
        invariant !motionTimer
        invariant ControlUsable(before) ==>
          bot == Some(before.value.(controls := before.value.controls + Idle.ReleasedUpTo(i)))
        invariant !ControlUsable(before) ==> bot == before
      {
        Idle.ReleasedUpToStep(before.value.controls, i);
        SafeSetControl(Idle.Directions[i], false);
        i := i + 1;
      }
    }

    /** `startAFK`: a new motion interval; one still running under the old handle keeps running. */
    method StartAFK()
      modifies this`motionTimer, this`strayMotionTimers
      ensures motionTimer
      ensures strayMotionTimers == old(strayMotionTimers) + (if old(motionTimer) then 1 else 0)
    {
      if motionTimer {
        strayMotionTimers := strayMotionTimers + 1;
      }
      motionTimer := true;
    }

    /** `startAFKChat`: a new chat interval; one still running under the old handle keeps running. */
    method StartAFKChat()
      modifies this`chatTimer, this`strayChatTimers
      ensures chatTimer
      ensures strayChatTimers == old(strayChatTimers) + (if old(chatTimer) then 1 else 0)
    {
      if chatTimer {
        strayChatTimers := strayChatTimers + 1;
      }
      chatTimer := true;
    }

    /** `stopAFKChat`: clearing an interval that is already cleared changes nothing. */
    method StopAFKChat()
      modifies this`chatTimer
      ensures !chatTimer
    {
      chatTimer := false;
    }

    /** One firing of a motion interval. */
    method MotionTick(d: Idle.MotionDraws)
      requires Idle.ValidDraws(d)
      requires motionTimer || strayMotionTimers > 0
      modifies this`bot
      ensures old(ControlUsable(bot)) ==>
        bot == Some(old(bot).value.(controls := old(bot).value.controls + Idle.MotionFlags(d),
                                    yaw := Idle.Yaw(d), pitch := Idle.Pitch(d)))
      ensures !old(ControlUsable(bot)) ==> bot == old(bot)
    {
      if !ControlUsable(bot) {
        return;
      }
      SafeSetControl("forward", d.forward < 0.7);
      SafeSetControl("left", d.left < 0.5);
      SafeSetControl("right", d.right < 0.5);
      SafeSetControl("jump", d.jump < 0.3);
      SafeSetControl("sneak", d.sneak < 0.2);
      Idle.MotionFlagsInOrder(old(bot).value.controls, d);
      bot := Some(bot.value.(yaw := Idle.Yaw(d), pitch := Idle.Pitch(d)));
    }

    /** One firing of a chat interval. */
    method ChatTick(r: real)
      requires Idle.IsDraw(r)
      requires chatTimer || strayChatTimers > 0
      modifies this`sent
      ensures sent == old(sent) + (if ControlUsable(bot) then [Idle.IdleMessages[Idle.MessageIndex(r)]] else [])
    {
      if !ControlUsable(bot) {
        return;
      }
      SafeChat(Idle.IdleMessages[Idle.MessageIndex(r)]);
    }

    /**
     * The `spawn` handler. The library has given the spawning bot its entity
     * before emitting the event; `current` says whether that bot is still the
     * one `bot` refers to, or has been superseded by a later `createBot`. Only
     * in the first case does the session `bot` holds gain an entity. The
     * handler itself acts on the module-level variables either way.
     */
    method Spawn(current: bool)
      modifies this`bot, this`retryCount, this`motionTimer, this`chatTimer, this`strayMotionTimers, this`strayChatTimers
      ensures bot == if current && old(bot).Some? then Some(old(bot).value.(hasEntity := true)) else old(bot)
      ensures retryCount == 0 && motionTimer && chatTimer
      ensures strayMotionTimers == old(strayMotionTimers) + (if old(motionTimer) then 1 else 0)
      ensures strayChatTimers == old(strayChatTimers) + (if old(chatTimer) then 1 else 0)
    {
      if current && bot.Some? {
        bot := Some(bot.value.(hasEntity := true));
      }
      retryCount := 0;
      StartAFK();
      StartAFKChat();
    }

    /** The `chat` handler: the responder's replies, each through `safeChat`. */
    method ChatReceived(speaker: string, message: string)
      modifies this`sent
      ensures sent == old(sent) + (if ChatUsable(bot) then Chat.Replies(username, speaker, message) else [])
    {
      if speaker == username {
        return;
      }
      ghost var start := sent;
      ghost var expected := Chat.Emit(Chat.Greets(message), Chat.Greeting(speaker));
      Respond(Chat.Greets(message), Chat.Greeting(speaker));
      Respond(Chat.AsksAfk(message), Chat.AfkReply);
      AppendAssoc(start, expected, Chat.Emit(Chat.AsksAfk(message), Chat.AfkReply), ChatUsable(bot));
      expected := expected + Chat.Emit(Chat.AsksAfk(message), Chat.AfkReply);
      Respond(message == Chat.VanishOnTrigger, Presence.VanishOn);
      AppendAssoc(start, expected, Chat.Emit(message == Chat.VanishOnTrigger, Presence.VanishOn), ChatUsable(bot));
      expected := expected + Chat.Emit(message == Chat.VanishOnTrigger, Presence.VanishOn);
      Respond(message == Chat.VanishOffTrigger, Presence.VanishOff);
      AppendAssoc(start, expected, Chat.Emit(message == Chat.VanishOffTrigger, Presence.VanishOff), ChatUsable(bot));
      expected := expected + Chat.Emit(message == Chat.VanishOffTrigger, Presence.VanishOff);
      Respond(message == Chat.StateTrigger, Chat.StateReply);
      AppendAssoc(start, expected, Chat.Emit(message == Chat.StateTrigger, Chat.StateReply), ChatUsable(bot));
      expected := expected + Chat.Emit(message == Chat.StateTrigger, Chat.StateReply);
    }

    /** One rule of the `chat` handler: `if (rule) safeChat(reply)`. */
    method Respond(rule: bool, reply: string)
      modifies this`sent
      ensures sent == old(sent) + (if ChatUsable(bot) then Chat.Emit(rule, reply) else [])
    {
      if rule {
        SafeChat(reply);
      }
    }

    /** The `playerJoined` handler. */
    method PlayerJoined(name: string)
      requires Valid()
      modifies this`realPlayersOnline, this`sent
      ensures Valid()
      ensures old(bot).None? ==> realPlayersOnline == old(realPlayersOnline) && sent == old(sent)
      ensures old(bot).Some? ==>
        var o := Presence.Join(username, old(realPlayersOnline), name);
        realPlayersOnline == o.count && sent == old(sent) + (if ChatUsable(bot) then o.commands else [])
    {
      if bot.None? || name == username {
        return;
      }
      realPlayersOnline := realPlayersOnline + 1;
      SafeChat(Presence.VanishOn);
    }

    /** The `playerLeft` handler. */
    method PlayerLeft(name: string)
      requires Valid()
      modifies this`realPlayersOnline, this`sent
      ensures Valid()
      ensures old(bot).None? ==> realPlayersOnline == old(realPlayersOnline) && sent == old(sent)
      ensures old(bot).Some? ==>
        var o := Presence.Leave(username, old(realPlayersOnline), name);
        realPlayersOnline == o.count && sent == old(sent) + (if ChatUsable(bot) then o.commands else [])
    {
      if bot.None? || name == username {
        return;
      }
      realPlayersOnline := if realPlayersOnline - 1 < 0 then 0 else realPlayersOnline - 1;
      if realPlayersOnline == 0 {
        SafeChat(Presence.VanishOff);
      }
    }

    /** The `end` handler: stop both drivers, count the attempt, schedule the backed-off reconnect. */
    method End()
      modifies this`bot, this`motionTimer, this`chatTimer, this`retryCount, this`reconnects
      ensures !motionTimer && !chatTimer
      ensures bot == ReleaseAll(old(bot))
      ensures retryCount == old(retryCount) + 1
      ensures reconnects == old(reconnects) + [Backoff.EndDelay(retryCount)]
    {
      StopAFK();
      StopAFKChat();
      retryCount := retryCount + 1;
      var delay := Backoff.EndDelay(retryCount);
      reconnects := reconnects + [delay];
    }

    /** The `error` handler: only a network error stops the drivers and ends a still-open client. */
    method Error(code: string)
      modifies this`bot, this`motionTimer, this`chatTimer
      ensures code in NetworkErrorCodes ==> !motionTimer && !chatTimer && bot == Close(ReleaseAll(old(bot)))
      ensures code !in NetworkErrorCodes ==>
        bot == old(bot) && motionTimer == old(motionTimer) && chatTimer == old(chatTimer)
    {
      if code in NetworkErrorCodes {
        StopAFK();
        StopAFKChat();
        if ChatUsable(bot) {
          bot := Some(bot.value.(open := false));
        }
      }
    }

    /** The `kicked` handler: stop both drivers and reconnect after the fixed kick delay. */
    method Kicked()
      modifies this`bot, this`motionTimer, this`chatTimer, this`reconnects
      ensures !motionTimer && !chatTimer
      ensures bot == ReleaseAll(old(bot))
      ensures reconnects == old(reconnects) + [Backoff.KickDelayMs]
    {
      StopAFK();
      StopAFKChat();
      var delay := Backoff.KickDelayMs;
      reconnects := reconnects + [delay];
    }
  }
}
