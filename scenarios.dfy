/**
 * Event sequences driven through the controller, each with what the source
 * then guarantees, for any configured name `self` and server. None of these
 * methods changes existing state: each builds its own controller as the
 * module does at start-up.
 */
module Scenarios {
  import Config
  import Backoff
  import Chat
  import Presence
  import Idle
  import opened Controller

  /** Spawn, then three disconnects in a row whose reconnects never spawn: 20 s, 40 s, 60 s. */
  method ThreeDisconnects(self: string, server: Config.Endpoint) returns (delays: seq<nat>)
    ensures |delays| == 3 && delays[0] == 20000 && delays[1] == 40000 && delays[2] == 60000
  {
    var c := new Bot(self, server);
    c.Connect();
    c.Spawn(true);
    assert c.retryCount == 0 && c.reconnects == [];
    c.End();
    assert c.retryCount == 1 && |c.reconnects| == 1 && c.reconnects[0] == 20000;
    c.Connect();
    c.End();
    assert c.retryCount == 2 && |c.reconnects| == 2 && c.reconnects[0] == 20000 && c.reconnects[1] == 40000;
    c.Connect();
    c.End();
    delays := c.reconnects;
  }

  /** A kick waits the fixed 20 s and leaves both counters as they were. */
  method KickKeepsCounters(self: string, server: Config.Endpoint, player: string)
    returns (retries: nat, players: int, delay: nat)
    requires player != self
    ensures retries == 2 && players == 1 && delay == Backoff.KickDelayMs
  {
    var c := new Bot(self, server);
    c.Connect();
    c.Spawn(true);
    assert c.username == self && c.realPlayersOnline == 0;
    c.PlayerJoined(player);
    assert c.realPlayersOnline == 1 && c.retryCount == 0;
    c.End();
    c.Connect();
    c.End();
    assert c.realPlayersOnline == 1 && c.retryCount == 2;
    c.Kicked();
    retries, players, delay := c.retryCount, c.realPlayersOnline, c.reconnects[|c.reconnects| - 1];
  }

  /** A kick followed by the connection's end schedules two reconnects. */
  method KickThenEnd(self: string, server: Config.Endpoint) returns (delays: seq<nat>, driversStopped: bool)
    ensures |delays| == 2 && delays[0] == 20000 && delays[1] == 20000
    ensures driversStopped
  {
    var c := new Bot(self, server);
    c.Connect();
    c.Spawn(true);
    assert c.retryCount == 0 && c.reconnects == [];
    c.Kicked();
    assert c.retryCount == 0 && |c.reconnects| == 1 && c.reconnects[0] == 20000;
    c.End();
    delays, driversStopped := c.reconnects, !c.motionTimer && !c.chatTimer;
  }

  /**
   * The two reconnects of a kick and an end both spawn: the second `startAFK`
   * and `startAFKChat` overwrite handles whose intervals are still running, so
   * those two intervals are never cleared by later stops.
   */
  method OverlappingReconnects(self: string, server: Config.Endpoint) returns (strayMotion: nat, strayChat: nat, strayMotionAfterStop: nat, strayChatAfterStop: nat)
    ensures strayMotion == 1 && strayChat == 1
    ensures strayMotionAfterStop == 1 && strayChatAfterStop == 1
  {
    var c := new Bot(self, server);
    c.Connect();
    c.Spawn(true);
    c.Kicked();
    c.End();
    assert !c.motionTimer && !c.chatTimer && c.strayMotionTimers == 0 && c.strayChatTimers == 0;
    c.Connect();
    c.Spawn(true);
    assert c.motionTimer && c.chatTimer && c.strayMotionTimers == 0 && c.strayChatTimers == 0;
    c.Connect();
    c.Spawn(true);
    strayMotion, strayChat := c.strayMotionTimers, c.strayChatTimers;
    c.End();
    strayMotionAfterStop, strayChatAfterStop := c.strayMotionTimers, c.strayChatTimers;
  }

  /**
   * After a network error the client is closed: whatever is then said in chat
   * and whoever joins, nothing reaches the server.
   */
  method NetworkErrorSilences(self: string, server: Config.Endpoint, code: string, speaker: string, message: string, player: string)
    returns (sent: seq<string>, driversStopped: bool)
    requires code in NetworkErrorCodes
    ensures |sent| == 0
    ensures driversStopped
  {
    var c := new Bot(self, server);
    c.Connect();
    c.Spawn(true);
    assert c.sent == [];
    c.Error(code);
    assert c.bot.Some? && !ChatUsable(c.bot) && c.sent == [];
    c.ChatReceived(speaker, message);
    assert c.sent == [];
    c.PlayerJoined(player);
    sent, driversStopped := c.sent, !c.motionTimer && !c.chatTimer;
  }

  /** Any other error code changes nothing: the drivers keep running and a greeting still goes out. */
  method OtherErrorIgnored(self: string, server: Config.Endpoint, code: string, speaker: string)
    returns (sent: seq<string>, driversRunning: bool)
    requires code !in NetworkErrorCodes
    requires speaker != self
    ensures |sent| == 1 && sent[0] == Chat.Greeting(speaker)
    ensures driversRunning
  {
    var c := new Bot(self, server);
    c.Connect();
    c.Spawn(true);
    c.Error(code);
    assert c.username == self && ChatUsable(c.bot) && c.sent == [] && c.motionTimer && c.chatTimer;
    Chat.HiBotGreetsSpeaker(c.username, speaker);
    c.ChatReceived(speaker, "hi bot");
    sent, driversRunning := c.sent, c.motionTimer && c.chatTimer;
  }

  /** Two players join and leave: `/vanish on` goes out at each join, `/vanish off` once both have left. */
  method TwoPlayersComeAndGo(self: string, server: Config.Endpoint, alice: string, bob: string)
    returns (sent: seq<string>, players: int)
    requires alice != self && bob != self
    ensures |sent| == 3 && sent[0] == Presence.VanishOn && sent[1] == Presence.VanishOn && sent[2] == Presence.VanishOff
    ensures players == 0
  {
    var c := new Bot(self, server);
    c.Connect();
    c.Spawn(true);
    assert c.username == self && ChatUsable(c.bot) && c.sent == [];
    c.PlayerJoined(alice);
    assert c.realPlayersOnline == 1 && |c.sent| == 1 && c.sent[0] == Presence.VanishOn;
    c.PlayerJoined(bob);
    assert c.realPlayersOnline == 2 && |c.sent| == 2 && c.sent[1] == Presence.VanishOn;
    c.PlayerLeft(alice);
    assert c.realPlayersOnline == 1 && |c.sent| == 2;
    c.PlayerLeft(bob);
    sent, players := c.sent, c.realPlayersOnline;
  }

  /** A player never seen joining leaves an empty world: the count stays 0 and `/vanish off` goes out anyway. */
  method LeaveFromEmpty(self: string, server: Config.Endpoint, player: string) returns (sent: seq<string>, players: int)
    requires player != self
    ensures |sent| == 1 && sent[0] == Presence.VanishOff
    ensures players == 0
  {
    var c := new Bot(self, server);
    c.Connect();
    c.Spawn(true);
    assert c.username == self && ChatUsable(c.bot) && c.sent == [] && c.realPlayersOnline == 0;
    c.PlayerLeft(player);
    sent, players := c.sent, c.realPlayersOnline;
  }

  /** The bot's own join and leave, with another player online, change nothing and send nothing. */
  method OwnEventsInert(self: string, server: Config.Endpoint, player: string) returns (sent: seq<string>, players: int)
    requires player != self
    ensures |sent| == 1 && sent[0] == Presence.VanishOn
    ensures players == 1
  {
    var c := new Bot(self, server);
    c.Connect();
    c.Spawn(true);
    assert c.username == self && ChatUsable(c.bot) && c.sent == [];
    c.PlayerJoined(player);
    assert c.realPlayersOnline == 1 && |c.sent| == 1 && c.sent[0] == Presence.VanishOn;
    c.PlayerJoined(self);
    c.PlayerLeft(self);
    sent, players := c.sent, c.realPlayersOnline;
  }

  /**
   * A kick followed by the end schedules two reconnects. When the first new
   * bot spawns only after the second `createBot` has replaced it, the handler
   * still starts both drivers, but their ticks bail out: the bot the variables
   * now refer to has no entity yet, so nothing is said in chat.
   */
  method SupersededSpawnIdle(self: string, server: Config.Endpoint, r: real)
    returns (sent: seq<string>, timersOn: bool, hasEntity: bool)
    requires Idle.IsDraw(r)
    ensures |sent| == 0 && timersOn && !hasEntity
  {
    var c := new Bot(self, server);
    c.Connect();
    c.Spawn(true);
    c.Kicked();
    c.End();
    c.Connect();
    c.Connect();
    c.Spawn(false);
    c.ChatTick(r);
    sent, timersOn, hasEntity := c.sent, c.motionTimer && c.chatTimer, c.bot.value.hasEntity;
  }
}
