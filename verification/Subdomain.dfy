/**
  Host names: splitting and joining on a separator, the subdomain in front of a base domain, and
  the relay URL check of NIP-42 authentication.
 */
module Subdomain {
  import opened Nostr

  // ----- Splitting and joining -----

  /** The parts once one more character is read. */
  function Feed(parts: seq<string>, ch: char, sep: char): (r: seq<string>)
    requires parts != []
  {
    if ch == sep then parts + [""] else parts[..|parts| - 1] + [parts[|parts| - 1] + [ch]]
  }

  /** The parts between separators; always at least one. */
  function Split(s: string, sep: char): (parts: seq<string>)
    ensures |parts| >= 1
    decreases |s|
  {
    if s == "" then [""] else Feed(Split(s[..|s| - 1], sep), s[|s| - 1], sep)
  }

  function Join(parts: seq<string>, sep: char): (s: string)
    decreases |parts|
  {
    if parts == [] then ""
    else if |parts| == 1 then parts[0]
    else Join(parts[..|parts| - 1], sep) + [sep] + parts[|parts| - 1]
  }

  lemma {:induction false} JoinExtend(parts: seq<string>, sep: char, last: char)
    requires parts != []
    ensures Join(parts[..|parts| - 1] + [parts[|parts| - 1] + [last]], sep) == Join(parts, sep) + [last]
  {
    var extended := parts[..|parts| - 1] + [parts[|parts| - 1] + [last]];
    assert extended[..|extended| - 1] == parts[..|parts| - 1];
    if |parts| > 1 {
      assert Join(parts[..|parts| - 1], sep) + [sep] + (parts[|parts| - 1] + [last]) ==
             Join(parts[..|parts| - 1], sep) + [sep] + parts[|parts| - 1] + [last];
    }
  }

  /** Joining the parts gives the string back. */
  lemma {:induction false} JoinSplit(s: string, sep: char)
    ensures Join(Split(s, sep), sep) == s
    decreases |s|
  {
    if s != "" {
      var init, last := s[..|s| - 1], s[|s| - 1];
      JoinSplit(init, sep);
      var parts := Split(init, sep);
      if last == sep {
        assert (parts + [""])[..|parts|] == parts;
        assert init + [sep] + "" == s;
      } else {
        JoinExtend(parts, sep, last);
        assert init + [last] == s;
      }
    }
  }

  lemma FeedLast(a: seq<string>, b: seq<string>, ch: char, sep: char)
    requires b != []
    ensures Feed(a + b, ch, sep) == a + Feed(b, ch, sep)
  {
    assert (a + b)[..|a + b| - 1] == a + b[..|b| - 1];
  }

  lemma SplitSnoc(a: string, ch: char, sep: char)
    ensures Split(a + [ch], sep) == Feed(Split(a, sep), ch, sep)
  {
    assert (a + [ch])[..|a|] == a;
  }

  /** Splitting at a separator in the middle splits both sides. */
  lemma {:induction false} SplitAround(a: string, b: string, sep: char)
    ensures Split(a + [sep] + b, sep) == Split(a, sep) + Split(b, sep)
    decreases |b|
  {
    if b == "" {
      SplitSnoc(a, sep, sep);
      assert a + [sep] + b == a + [sep];
    } else {
      var init, last := b[..|b| - 1], b[|b| - 1];
      assert a + [sep] + b == a + [sep] + init + [last];
      SplitSnoc(a + [sep] + init, last, sep);
      SplitAround(a, init, sep);
      FeedLast(Split(a, sep), Split(init, sep), last, sep);
    }
  }

  /** Joining two lists of parts puts one separator between them. */
  lemma {:induction false} JoinAround(a: seq<string>, b: seq<string>, sep: char)
    requires a != [] && b != []
    ensures Join(a + b, sep) == Join(a, sep) + [sep] + Join(b, sep)
    decreases |b|
  {
    var init, last := b[..|b| - 1], b[|b| - 1];
    assert (a + b)[..|a + b| - 1] == a + init;
    if init == [] {
      assert a + init == a;
    } else {
      JoinAround(a, init, sep);
      assert Join(a, sep) + [sep] + Join(init, sep) + [sep] + last ==
        Join(a, sep) + [sep] + (Join(init, sep) + [sep] + last);
    }
  }

  /** A string without the separator is a single part. */
  lemma {:induction false} SplitWhole(s: string, sep: char)
    requires sep !in s
    ensures Split(s, sep) == [s]
    decreases |s|
  {
    if s != "" {
      assert s[|s| - 1] in s;
      SplitWhole(s[..|s| - 1], sep);
      assert s[..|s| - 1] + [s[|s| - 1]] == s;
    }
  }

  // ----- The subdomain -----

  /** A host whose name is not a domain name; `isIp` recognises address literals. */
  predicate Special(host: string, isIp: string -> bool)
  {
    host == "localhost" || isIp(host)
  }

  function ExtractSubdomain(host: string, baseParts: nat, isIp: string -> bool): (r: Option<string>)
  {
    var h := Split(host, ':')[0];
    if Special(h, isIp) then None
    else
      var parts := Split(h, '.');
      if |parts| <= baseParts then None else Some(Join(parts[..|parts| - baseParts], '.'))
  }

  /** Putting a name in front of a base domain and extracting it again gives the name, whatever dots either contains. */
  lemma ExtractRecoversPrefix(name: string, base: string, isIp: string -> bool)
    requires ':' !in name + "." + base && !Special(name + "." + base, isIp)
    ensures ExtractSubdomain(name + "." + base, |Split(base, '.')|, isIp) == Some(name)
  {
    var host := name + "." + base;
    SplitWhole(host, ':');
    SplitAround(name, base, '.');
    assert (Split(name, '.') + Split(base, '.'))[..|Split(name, '.')|] == Split(name, '.');
    JoinSplit(name, '.');
  }

  lemma {:induction false} PartsAreClean(s: string, sep: char)
    ensures forall part | part in Split(s, sep) :: sep !in part
    decreases |s|
  {
    if s != "" { PartsAreClean(s[..|s| - 1], sep); }
  }

  /** Parts that hold no separator are found again in their join. */
  lemma {:induction false} SplitJoin(parts: seq<string>, sep: char)
    requires parts != [] && forall part | part in parts :: sep !in part
    ensures Split(Join(parts, sep), sep) == parts
    decreases |parts|
  {
    var init, last := parts[..|parts| - 1], parts[|parts| - 1];
    assert last in parts;
    SplitWhole(last, sep);
    if init == [] {
      assert parts == [last];
    } else {
      forall part | part in init ensures sep !in part { assert part in parts; }
      SplitJoin(init, sep);
      SplitAround(Join(init, sep), last, sep);
      assert parts == init + [last];
    }
  }

  /** A port does not matter: what is in front of the first colon is looked at. */
  lemma ExtractIgnoresPort(host: string, port: string, baseParts: nat, isIp: string -> bool)
    requires ':' !in host
    ensures ExtractSubdomain(host + ":" + port, baseParts, isIp) == ExtractSubdomain(host, baseParts, isIp)
  {
    SplitAround(host, port, ':');
    SplitWhole(host, ':');
  }

  /** The name is followed by a dot and a base of that many parts. */
  ghost predicate InFront(name: string, host: string, baseParts: nat)
  {
    exists base :: host == name + "." + base && |Split(base, '.')| == baseParts
  }

  /**
    With or without a port, a host has the subdomain that is in front of a base of the given number
    of parts, and none if there is no such base, or if it is localhost or an address literal.
   */
  lemma ExtractExactly(host: string, port: string, baseParts: nat, isIp: string -> bool, name: string)
    requires ':' !in host && baseParts > 0
    ensures ExtractSubdomain(host + ":" + port, baseParts, isIp) == ExtractSubdomain(host, baseParts, isIp)
    ensures ExtractSubdomain(host, baseParts, isIp) == Some(name) <==>
            host != "localhost" && !isIp(host) && InFront(name, host, baseParts)
  {
    ExtractIgnoresPort(host, port, baseParts, isIp);
    SplitWhole(host, ':');
    var parts := Split(host, '.');
    if ExtractSubdomain(host, baseParts, isIp) == Some(name) {
      var front, back := parts[..|parts| - baseParts], parts[|parts| - baseParts..];
      assert parts == front + back;
      JoinSplit(host, '.');
      JoinAround(front, back, '.');
      PartsAreClean(host, '.');
      SplitJoin(back, '.');
      assert host == name + "." + Join(back, '.');
    }
    if InFront(name, host, baseParts) && !Special(host, isIp) {
      var base :| host == name + "." + base && |Split(base, '.')| == baseParts;
      ExtractRecoversPrefix(name, base, isIp);
    }
  }

  // ----- The relay URL check -----

  datatype AuthConfig = AuthConfig(relayUrl: string, validateSubdomains: bool)

  predicate OccursAt(s: string, part: string, i: nat)
  {
    i + |part| <= |s| && s[i..i + |part|] == part
  }

  predicate Contains(s: string, part: string)
  {
    exists i: nat :: i <= |s| && OccursAt(s, part, i)
  }

  function TrimSlashes(s: string): (r: string)
    decreases |s|
  {
    if s != "" && s[|s| - 1] == '/' then TrimSlashes(s[..|s| - 1]) else s
  }

  predicate Local(url: string)
  {
    Contains(url, "localhost") || Contains(url, "127.0.0.1")
  }

  /** The last parts of a host, as many as the base domain has. */
  function LastParts(parts: seq<string>, n: nat): (r: seq<string>)
  {
    parts[if |parts| >= n then |parts| - n else 0..]
  }

  /** The check as computed; `hostOf` is the URL parser. */
  predicate ValidateRelayUrl(config: AuthConfig, url: string, scope: Scope, hostOf: string -> Option<string>,
                             isIp: string -> bool)
  {
    if Local(url) || Local(config.relayUrl) then TrimSlashes(url) == TrimSlashes(config.relayUrl)
    else if hostOf(url).None? || hostOf(config.relayUrl).None? then false
    else
      var client, relay := hostOf(url).value, hostOf(config.relayUrl).value;
      var base := |Split(relay, '.')|;
      if Join(LastParts(Split(client, '.'), base), '.') != Join(Split(relay, '.'), '.') then false
      else if !config.validateSubdomains then true
      else
        var sub := ExtractSubdomain(client, base, isIp);
        match scope
        case Named(name) => sub == Some(name)
        case Default => sub == None
  }

  /** The host is the relay's, or a name, a dot and the relay's. */
  ghost predicate InDomain(client: string, relay: string)
  {
    client == relay || exists name :: client == name + "." + relay
  }

  predicate Slashes(s: string)
  {
    forall ch | ch in s :: ch == '/'
  }

  /** The URLs are the same but for slashes at their ends. */
  ghost predicate SameButSlashes(a: string, b: string)
  {
    exists start, x, y :: a == start + x && b == start + y && Slashes(x) && Slashes(y)
  }

  lemma {:induction false} TrimRest(s: string) returns (rest: string)
    ensures s == TrimSlashes(s) + rest && Slashes(rest)
    decreases |s|
  {
    if s != "" && s[|s| - 1] == '/' {
      rest := TrimRest(s[..|s| - 1]);
      InitLast(s);
      assert s == TrimSlashes(s) + (rest + ['/']);
      rest := rest + ['/'];
    } else {
      rest := "";
    }
  }

  lemma {:induction false} TrimAppended(start: string, x: string)
    requires Slashes(x)
    ensures TrimSlashes(start + x) == TrimSlashes(start)
    decreases |x|
  {
    if x == "" {
      assert start + x == start;
    } else {
      var init := x[..|x| - 1];
      assert x[|x| - 1] in x && (start + x)[..|start + x| - 1] == start + init;
      forall ch | ch in init ensures ch == '/' { assert ch in x; }
      TrimAppended(start, init);
    }
  }

  lemma SameTrimmed(a: string, b: string)
    ensures TrimSlashes(a) == TrimSlashes(b) <==> SameButSlashes(a, b)
  {
    var x := TrimRest(a);
    var y := TrimRest(b);
    if TrimSlashes(a) == TrimSlashes(b) { assert a == TrimSlashes(a) + x && b == TrimSlashes(a) + y; }
    if start, x, y :| a == start + x && b == start + y && Slashes(x) && Slashes(y) {
      TrimAppended(start, x);
      TrimAppended(start, y);
    }
  }

  /** The text occurs somewhere. */
  ghost predicate Holds(s: string, part: string)
  {
    exists before, after :: s == before + part + after
  }

  lemma ContainsExactly(s: string, part: string)
    ensures Contains(s, part) <==> Holds(s, part)
  {
    if i: nat :| i <= |s| && OccursAt(s, part, i) { assert s == s[..i] + part + s[i + |part|..]; }
    if before, after :| s == before + part + after { assert OccursAt(s, part, |before|); }
  }

  /** The URL names this machine. */
  ghost predicate NamesLocal(url: string)
  {
    Holds(url, "localhost") || Holds(url, "127.0.0.1")
  }

  lemma LocalExactly(url: string)
    ensures Local(url) <==> NamesLocal(url)
  {
    ContainsExactly(url, "localhost");
    ContainsExactly(url, "127.0.0.1");
  }

  /**
    A URL that names this machine, or is judged by a relay whose own URL does, is accepted exactly if
    it is the relay's but for trailing slashes; of any other two, both must have a host.
   */
  lemma LocalUrlAccepted(config: AuthConfig, url: string, scope: Scope, hostOf: string -> Option<string>,
                         isIp: string -> bool)
    ensures var isLocal := NamesLocal(url) || NamesLocal(config.relayUrl);
            var ok := ValidateRelayUrl(config, url, scope, hostOf, isIp);
            && (isLocal ==> (ok <==> SameButSlashes(url, config.relayUrl)))
            && (!isLocal && (hostOf(url).None? || hostOf(config.relayUrl).None?) ==> !ok)
  {
    SameTrimmed(url, config.relayUrl);
    LocalExactly(url);
    LocalExactly(config.relayUrl);
  }

  /** Equal joins of parts that come from splitting are equal part lists. */
  lemma BaseMatches(client: string, relay: string)
    ensures var n := |Split(relay, '.')|;
            Join(LastParts(Split(client, '.'), n), '.') == Join(Split(relay, '.'), '.') <==> InDomain(client, relay)
  {
    var c, r := Split(client, '.'), Split(relay, '.');
    var n := |r|;
    JoinSplit(relay, '.');
    JoinSplit(client, '.');
    if |c| <= n {
      assert LastParts(c, n) == c;
      if name :| client == name + "." + relay {
        SplitAround(name, relay, '.');
      }
    } else {
      var front := c[..|c| - n];
      assert c == front + LastParts(c, n);
      JoinAround(front, LastParts(c, n), '.');
      if Join(LastParts(c, n), '.') == relay {
        assert client == Join(front, '.') + "." + relay;
      }
      if name :| client == name + "." + relay {
        SplitAround(name, relay, '.');
        assert LastParts(c, n) == r;
      }
    }
  }

  /** Within the domain, the base host has no subdomain and any other host has the name in front of it. */
  lemma SubdomainOf(client: string, relay: string, isIp: string -> bool, name: string)
    requires ':' !in client && InDomain(client, relay) && !Special(client, isIp)
    ensures ExtractSubdomain(client, |Split(relay, '.')|, isIp) == None <==> client == relay
    ensures ExtractSubdomain(client, |Split(relay, '.')|, isIp) == Some(name) <==> client == name + "." + relay
  {
    SplitWhole(client, ':');
    assert |name + "." + relay| > |relay|;
    if client != relay {
      var found :| client == found + "." + relay;
      ExtractRecoversPrefix(found, relay, isIp);
      SamePrefix(found, name, relay);
    }
  }

  lemma SamePrefix(a: string, b: string, relay: string)
    ensures a + "." + relay == b + "." + relay <==> a == b
  {
    var x, y := a + "." + relay, b + "." + relay;
    if x == y {
      assert |a| == |b|;
      assert a == x[..|a|] && b == y[..|b|];
    }
  }

  /** A bracketed address literal holds colons but no dot, so it has no subdomain. */
  lemma NoDotNoSubdomain(client: string, relay: string, isIp: string -> bool)
    requires '.' !in client
    ensures InDomain(client, relay) <==> client == relay
    ensures ExtractSubdomain(client, |Split(relay, '.')|, isIp) == None
  {
    forall name ensures client != name + "." + relay { assert (name + "." + relay)[|name|] == '.'; }
    FirstPartWithin(client, ':', '.');
    SplitWhole(Split(client, ':')[0], '.');
  }

  lemma {:induction false} FirstPartWithin(s: string, sep: char, ch: char)
    requires ch !in s
    ensures ch !in Split(s, sep)[0]
    decreases |s|
  {
    if s != "" {
      assert s[|s| - 1] in s;
      FirstPartWithin(s[..|s| - 1], sep, ch);
    }
  }

  /**
    With subdomain validation on, for every host a URL parser yields (one that names no port, or a
    bracketed address literal): a named scope accepts exactly its name in front of the relay host,
    the default scope exactly the relay host; an address literal is never accepted for a named
    scope, and for the default one if it lies in the domain.
   */
  lemma RelayUrlAccepted(config: AuthConfig, url: string, scope: Scope, hostOf: string -> Option<string>,
                         isIp: string -> bool, client: string, relay: string)
    requires config.validateSubdomains && !Local(url) && !Local(config.relayUrl)
    requires hostOf(url) == Some(client) && hostOf(config.relayUrl) == Some(relay) && (':' !in client || '.' !in client)
    ensures ValidateRelayUrl(config, url, scope, hostOf, isIp) <==>
            match scope
            case Named(name) => !Special(client, isIp) && client == name + "." + relay
            case Default => client == relay || (Special(client, isIp) && InDomain(client, relay))
  {
    BaseMatches(client, relay);
    if '.' !in client {
      NoDotNoSubdomain(client, relay, isIp);
    } else {
      SplitWhole(client, ':');
      if InDomain(client, relay) && !Special(client, isIp) {
        SubdomainOf(client, relay, isIp, if scope.Named? then scope.name else "");
      }
    }
  }

  /** With subdomain validation off, any host in the relay's domain is accepted, whatever the scope. */
  lemma RelayUrlAcceptedInDomain(config: AuthConfig, url: string, scope: Scope, hostOf: string -> Option<string>,
                                 isIp: string -> bool, client: string, relay: string)
    requires !config.validateSubdomains && !Local(url) && !Local(config.relayUrl)
    requires hostOf(url) == Some(client) && hostOf(config.relayUrl) == Some(relay)
    ensures ValidateRelayUrl(config, url, scope, hostOf, isIp) <==> InDomain(client, relay)
  {
    BaseMatches(client, relay);
  }
}
