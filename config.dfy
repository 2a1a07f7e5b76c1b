/**
 * Start-up configuration of bot.js: the server address (the first entry of a
 * comma-separated list, a host and an optional port) and the bot's own name.
 * The environment variables are passed in as optional strings.
 */
module Config {
  import opened Options

  const DefaultServer: string := "play.phoenixsmp.qzz.io:20722"
  const DefaultPort: nat := 25565
  const DefaultUsername: string := "PhoenixSMPBot"

  /** The port handed to the client: a number, or a segment left to `parseInt`. */
  datatype Port = Numeric(n: nat) | Unparsed(text: string)

  datatype Endpoint = Endpoint(host: string, port: Port)

  /** JavaScript's `String.prototype.split` with a one-character separator. */
  function Split(s: string, sep: char): (parts: seq<string>)
    ensures |parts| >= 1
    ensures forall i :: 0 <= i < |parts| ==> sep !in parts[i]
    decreases |s|
  {
    if |s| == 0 then [""]
    else if s[0] == sep then [""] + Split(s[1..], sep)
    else
      var rest := Split(s[1..], sep);
      [[s[0]] + rest[0]] + rest[1..]
  }

  /** `Array.prototype.join`: the inverse of `Split`. */
  function Join(parts: seq<string>, sep: char): string
    requires |parts| >= 1
    decreases |parts|
  {
    if |parts| == 1 then parts[0] else parts[0] + [sep] + Join(parts[1..], sep)
  }

  /** Splitting loses nothing: joining the pieces gives back the original string. */
  lemma {:induction false} JoinSplit(s: string, sep: char)
    ensures Join(Split(s, sep), sep) == s
    decreases |s|
  {
    if |s| > 0 {
      JoinSplit(s[1..], sep);
      var rest := Split(s[1..], sep);
      if s[0] == sep {
        assert Split(s, sep)[1..] == rest;
      } else {
        var parts := Split(s, sep);
        assert parts[1..] == rest[1..];
        if |rest| == 1 {
          assert parts == [[s[0]] + rest[0]];
        } else {
          assert Join(parts, sep) == [s[0]] + rest[0] + [sep] + Join(rest[1..], sep);
        }
      }
    }
  }

  /** A string without the separator splits into itself alone. */
  lemma {:induction false} SplitWithoutSeparator(s: string, sep: char)
    requires sep !in s
    ensures Split(s, sep) == [s]
    decreases |s|
  {
    if |s| > 0 {
      assert sep !in s[1..];
      SplitWithoutSeparator(s[1..], sep);
      assert [s[0]] + s[1..] == s;
    }
  }

  /** The first piece is everything before the first separator. */
  lemma {:induction false} SplitAtFirst(a: string, sep: char, b: string)
    requires sep !in a
    ensures Split(a + [sep] + b, sep) == [a] + Split(b, sep)
    decreases |a|
  {
    if |a| == 0 {
      assert a + [sep] + b == [sep] + b;
      assert ([sep] + b)[1..] == b;
    } else {
      assert (a + [sep] + b)[1..] == a[1..] + [sep] + b;
      assert sep !in a[1..];
      SplitAtFirst(a[1..], sep, b);
      assert [a[0]] + a[1..] == a;
    }
  }

  /** `MC_SERVERS?.split(",")[0] || DefaultServer`. */
  function ServerEntry(servers: Option<string>): (entry: string)
    ensures entry != []
    ensures servers.Some? && Split(servers.value, ',')[0] != [] ==> entry == Split(servers.value, ',')[0]
  {
    match servers
    case None => DefaultServer
    case Some(list) =>
      var first := Split(list, ',')[0];
      if first == "" then DefaultServer else first
  }

  predicate IsDigit(c: char) { '0' <= c <= '9' }

  predicate AllDigits(s: string) { forall i :: 0 <= i < |s| ==> IsDigit(s[i]) }

  /** The value of a string of decimal digits: a single digit stands for itself, no digits for zero. */
  function DigitsValue(s: string): (v: nat)
    requires AllDigits(s)
    ensures |s| == 1 ==> v == s[0] as int - '0' as int
    ensures s == [] ==> v == 0
    decreases |s|
  {
    if |s| == 0 then 0
    else DigitsValue(s[..|s| - 1]) * 10 + (s[|s| - 1] as int - '0' as int)
  }

  /** A leading zero adds nothing to the value, as with `parseInt`. */
  lemma {:induction false} DigitsLeadingZero(s: string)
    requires AllDigits(s) && s != [] && s[0] == '0'
    ensures DigitsValue(s) == DigitsValue(s[1..])
    decreases |s|
  {
    if |s| >= 2 {
      var init := s[..|s| - 1];
      assert init[1..] == s[1..][..|s| - 2];
      DigitsLeadingZero(init);
    }
  }

  function DigitChar(d: nat): (c: char)
    requires d < 10
    ensures IsDigit(c) && c as int - '0' as int == d
  {
    ('0' as int + d) as char
  }

  /** The decimal representation of `n`, without leading zeros. */
  function Decimal(n: nat): (s: string)
    ensures |s| >= 1 && AllDigits(s)
    decreases n
  {
    if n < 10 then [DigitChar(n)] else Decimal(n / 10) + [DigitChar(n % 10)]
  }

  /** Reading back a decimal representation gives the number. */
  lemma {:induction false} DigitsValueDecimal(n: nat)
    ensures DigitsValue(Decimal(n)) == n
    decreases n
  {
    if n >= 10 {
      DigitsValueDecimal(n / 10);
      var s := Decimal(n);
      assert s[..|s| - 1] == Decimal(n / 10);
    } else {
      assert Decimal(n)[..0] == [];
    }
  }

  /**
   * `port ? parseInt(port) : 25565`: an absent or empty segment gives the default
   * port, a segment of digits its value.
   */
  function PortOf(segment: Option<string>): (p: Port)
    ensures segment.None? || segment == Some("") ==> p == Numeric(DefaultPort)
    ensures segment.Some? && segment.value != "" && AllDigits(segment.value) ==> p == Numeric(DigitsValue(segment.value))
    ensures segment.Some? && !AllDigits(segment.value) ==> p == Unparsed(segment.value)
  {
    match segment
    case None => Numeric(DefaultPort)
    case Some(text) =>
      if text == "" then Numeric(DefaultPort)
      else if AllDigits(text) then Numeric(DigitsValue(text))
      else Unparsed(text)
  }

  /**
   * The first piece of a split is the text before the first separator; when
   * the separator occurs, the remaining pieces are the split of what follows it.
   */
  lemma SplitHead(s: string, sep: char)
    ensures Split(s, sep)[0] <= s
    ensures sep in s <==> |Split(s, sep)| > 1
    ensures sep !in s ==> Split(s, sep) == [s]
    ensures sep in s ==>
      |Split(s, sep)[0]| < |s| && s[|Split(s, sep)[0]|] == sep
      && Split(s, sep)[1..] == Split(s[|Split(s, sep)[0]| + 1..], sep)
  {
    var parts := Split(s, sep);
    JoinSplit(s, sep);
    if |parts| > 1 {
      var a, b := parts[0], Join(parts[1..], sep);
      assert s == a + [sep] + b;
      assert s[|a| + 1..] == b;
      SplitAtFirst(a, sep, b);
    } else {
      assert s == parts[0];
    }
  }

  /**
   * `const [host, port] = SERVER.split(":")`, followed by the port conversion.
   */
  function ParseEntry(entry: string): (e: Endpoint)
    requires ',' !in entry
    ensures ':' !in e.host && ',' !in e.host
  {
    var parts := Split(entry, ':');
    SplitCommaFree(entry, parts);
    Endpoint(parts[0], PortOf(if |parts| > 1 then Some(parts[1]) else None))
  }

  /**
   * What `ParseEntry` takes from an entry, for every entry: the host is a
   * prefix without colon, and all of the entry when it has no colon;
   * otherwise a colon follows the host, and the port is read from the text
   * after it up to the next colon.
   */
  lemma EntryMeaning(entry: string)
    requires ',' !in entry
    ensures ParseEntry(entry).host <= entry
    ensures ':' !in entry ==> ParseEntry(entry) == Endpoint(entry, Numeric(DefaultPort))
    ensures ':' in entry ==>
      var h := ParseEntry(entry).host;
      |h| < |entry| && entry[|h|] == ':' && ParseEntry(entry).port == PortOf(Some(Split(entry[|h| + 1..], ':')[0]))
  {
    SplitHead(entry, ':');
  }

  /**
   * For every host without a colon: the host alone keeps the default port, and
   * `host:rest` takes its port from the text of `rest` before any further colon.
   */
  lemma EntryHostRest(host: string, rest: string)
    requires ':' !in host && ',' !in host && ',' !in rest
    ensures ParseEntry(host) == Endpoint(host, Numeric(DefaultPort))
    ensures ',' !in host + ":" + rest
    ensures ParseEntry(host + ":" + rest) == Endpoint(host, PortOf(Some(Split(rest, ':')[0])))
  {
    var entry := host + ":" + rest;
    assert entry == host + [':'] + rest;
    SplitAtFirst(host, ':', rest);
    SplitWithoutSeparator(host, ':');
  }

  /** A trailing colon leaves an empty port segment, which keeps the default port. */
  lemma EntryTrailingColon(host: string)
    requires ':' !in host && ',' !in host
    ensures ParseEntry(host + ":") == Endpoint(host, Numeric(DefaultPort))
  {
    EntryHostRest(host, "");
    assert host + ":" + "" == host + ":";
  }

  /** A leading zero in the port is read past: `080` is port 80. */
  lemma EntryLeadingZero(host: string)
    requires ':' !in host && ',' !in host
    ensures ParseEntry(host + ":080") == Endpoint(host, Numeric(80))
  {
    EntryHostRest(host, "080");
    assert host + ":" + "080" == host + ":080";
    SplitWithoutSeparator("080", ':');
    DigitsLeadingZero("080");
    assert "080"[1..] == "80";
    assert DigitsValue("80") == 80 by {
      assert "80"[..1] == "8";
    }
  }

  /** A second colon ends the port segment: `h:1:2` is port 1. */
  lemma EntrySecondColon(host: string)
    requires ':' !in host && ',' !in host
    ensures ParseEntry(host + ":1:2") == Endpoint(host, Numeric(1))
  {
    EntryHostRest(host, "1:2");
    assert host + ":" + "1:2" == host + ":1:2";
    assert "1:2" == "1" + [':'] + "2";
    SplitAtFirst("1", ':', "2");
  }

  /** The endpoint the bot connects to, given the raw `MC_SERVERS` value. */
  function ParseServer(servers: Option<string>): (e: Endpoint)
    ensures ':' !in e.host && ',' !in e.host
  {
    ParseEntry(ServerEntry(servers))
  }

  lemma SplitCommaFree(entry: string, parts: seq<string>)
    requires ',' !in entry
    requires parts == Split(entry, ':')
    ensures ',' !in parts[0]
  {
    JoinSplit(entry, ':');
    if |parts| > 1 {
      assert entry == parts[0] + [':'] + Join(parts[1..], ':');
    }
    assert entry[..|parts[0]|] == parts[0];
  }

  lemma EntryHostPort(host: string, port: nat)
    requires ':' !in host && ',' !in host
    ensures ',' !in host + ":" + Decimal(port)
    ensures ParseEntry(host + ":" + Decimal(port)) == Endpoint(host, Numeric(port))
  {
    var entry := host + ":" + Decimal(port);
    assert entry == host + [':'] + Decimal(port);
    assert ',' !in entry by {
      assert forall i :: 0 <= i < |Decimal(port)| ==> IsDigit(Decimal(port)[i]);
    }
    SplitAtFirst(host, ':', Decimal(port));
    SplitWithoutSeparator(Decimal(port), ':');
    DigitsValueDecimal(port);
  }

  /** A host followed by `:` and a decimal port parses to that host and port. */
  lemma ParseHostPort(host: string, port: nat)
    requires ':' !in host && ',' !in host
    ensures ParseServer(Some(host + ":" + Decimal(port))) == Endpoint(host, Numeric(port))
  {
    EntryHostPort(host, port);
    SplitWithoutSeparator(host + ":" + Decimal(port), ',');
  }

  /** A server entry without a colon keeps the default port. */
  lemma ParseHostOnly(host: string)
    requires host != "" && ':' !in host && ',' !in host
    ensures ParseServer(Some(host)) == Endpoint(host, Numeric(DefaultPort))
  {
    SplitWithoutSeparator(host, ',');
    SplitWithoutSeparator(host, ':');
  }

  /** Only the entry before the first comma is looked at. */
  lemma ParseFirstEntry(first: string, rest: string)
    requires ',' !in first
    ensures ParseServer(Some(first + "," + rest)) == ParseServer(Some(first))
  {
    assert first + "," + rest == first + [','] + rest;
    SplitAtFirst(first, ',', rest);
    SplitWithoutSeparator(first, ',');
  }

  lemma DecimalSteps()
    ensures Decimal(19132) == "19132" && Decimal(20722) == "20722"
  {
    assert Decimal(1) == "1" && Decimal(2) == "2";
    assert Decimal(19) == "19" && Decimal(20) == "20";
    assert Decimal(191) == "191" && Decimal(207) == "207";
    assert Decimal(1913) == "1913" && Decimal(2072) == "2072";
  }

  /** A missing list falls back to the default server. */
  lemma ParseMissingList()
    ensures ParseServer(None) == Endpoint("play.phoenixsmp.qzz.io", Numeric(20722))
  {
    DecimalSteps();
    var host := "play.phoenixsmp.qzz.io";
    assert host + ":" + Decimal(20722) == DefaultServer;
    EntryHostPort(host, 20722);
  }

  /** An empty list, or an empty first entry, falls back to the default server too. */
  lemma ParseEmptyEntry(rest: string)
    ensures ParseServer(Some("")) == ParseServer(None)
    ensures ParseServer(Some("," + rest)) == ParseServer(None)
  {
    assert "," + rest == "" + [','] + rest;
    SplitAtFirst("", ',', rest);
  }

  lemma ParseExampleWithPort()
    ensures ParseServer(Some("example.com:19132")) == Endpoint("example.com", Numeric(19132))
  {
    var host, digits := "example.com", Decimal(19132);
    DecimalSteps();
    assert host + ":" + digits == "example.com:19132";
    ParseHostPort(host, 19132);
  }

  lemma ParseExampleWithoutPort()
    ensures ParseServer(Some("example.com")) == Endpoint("example.com", Numeric(25565))
  {
    ParseHostOnly("example.com");
  }

  /** `process.env.MC_USERNAME || "PhoenixSMPBot"`: the name is never empty. */
  function Username(env: Option<string>): (name: string)
    ensures name != ""
    ensures env.Some? && env.value != "" ==> name == env.value
    ensures env.None? || env == Some("") ==> name == DefaultUsername
  {
    if env.Some? && env.value != "" then env.value else DefaultUsername
  }
}
