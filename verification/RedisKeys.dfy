/**
 The flat Redis key space: every key is a string, every value has one of Redis' types,
 and the registry's maps are read off from it.
 */
module RedisKeys {
  import opened Types
  import opened Names
  import opened Registry

  predicate ColonFree(s: string) { ':' !in s }

  /** Parts separated by colons. */
  function Colons(parts: seq<string>): string
    requires parts != []
  {
    if |parts| == 1 then parts[0] else parts[0] + ":" + Colons(parts[1..])
  }

  ghost predicate AllColonFree(parts: seq<string>) { forall k :: 0 <= k < |parts| ==> ColonFree(parts[k]) }

  /** Where the first colon is; the length if there is none. */
  function ColonAt(s: string): nat {
    if s == "" || s[0] == ':' then 0 else 1 + ColonAt(s[1..])
  }

  lemma {:induction false} FirstColon(a: string, x: string)
    requires ColonFree(a)
    ensures ColonAt(a + ":" + x) == |a|
  {
    if a != "" {
      assert (a + ":" + x)[1..] == a[1..] + ":" + x;
      FirstColon(a[1..], x);
    }
  }

  lemma FirstPart(a: string, x: string, b: string, y: string)
    requires ColonFree(a) && ColonFree(b) && a + ":" + x == b + ":" + y
    ensures a == b && x == y
  {
    FirstColon(a, x);
    FirstColon(b, y);
    assert a == (a + ":" + x)[..|a|] && b == (b + ":" + y)[..|b|];
    assert x == (a + ":" + x)[|a| + 1..] && y == (b + ":" + y)[|b| + 1..];
  }

  lemma ColonIff(p: seq<string>)
    requires p != [] && AllColonFree(p)
    ensures ':' in Colons(p) <==> |p| > 1
  {
    if |p| > 1 {
      assert Colons(p)[|p[0]|] == ':';
    }
  }

  /** Keys built from colon-free parts are equal only if their parts are. */
  lemma {:induction false} ColonsInjective(p: seq<string>, q: seq<string>)
    requires p != [] && q != [] && AllColonFree(p) && AllColonFree(q) && Colons(p) == Colons(q)
    ensures p == q
    decreases |p|
  {
    ColonIff(p);
    ColonIff(q);
    if |p| > 1 {
      FirstPart(p[0], Colons(p[1..]), q[0], Colons(q[1..]));
      ColonsInjective(p[1..], q[1..]);
      assert p == [p[0]] + p[1..] && q == [q[0]] + q[1..];
    }
  }

  // ---------- the key strings ----------

  function ConnKey(app: string, s: SocketId): string { "ipe:app:" + app + ":connection:" + s }

  function SetKey(app: string, c: string): string { "ipe:app:" + app + ":channel:" + c + ":subscriptions" }

  function MetaKey(app: string, c: string, s: SocketId): string { "ipe:app:" + app + ":channel:" + c + ":subscription:" + s }

  function HashKey(app: string, c: string): string { "ipe:app:" + app + ":channel:" + c + ":presence" }

  function InfoKey(app: string, c: string, s: SocketId): string {
    "ipe:app:" + app + ":channel:" + c + ":presence:" + s + ":info"
  }

  /** The five shapes of stored keys. */
  datatype Key =
    | OfConn(app: string, s: SocketId)
    | OfSet(app: string, c: string)
    | OfMeta(app: string, c: string, s: SocketId)
    | OfHash(app: string, c: string)
    | OfInfo(app: string, c: string, s: SocketId)

  function Text(k: Key): string {
    match k
    case OfConn(app, s) => ConnKey(app, s)
    case OfSet(app, c) => SetKey(app, c)
    case OfMeta(app, c, s) => MetaKey(app, c, s)
    case OfHash(app, c) => HashKey(app, c)
    case OfInfo(app, c, s) => InfoKey(app, c, s)
  }

  function Parts(k: Key): (parts: seq<string>)
    ensures parts != []
  {
    match k
    case OfConn(app, s) => ["ipe", "app", app, "connection", s]
    case OfSet(app, c) => ["ipe", "app", app, "channel", c, "subscriptions"]
    case OfMeta(app, c, s) => ["ipe", "app", app, "channel", c, "subscription", s]
    case OfHash(app, c) => ["ipe", "app", app, "channel", c, "presence"]
    case OfInfo(app, c, s) => ["ipe", "app", app, "channel", c, "presence", s, "info"]
  }

  /** Application IDs and channel names without colons, socket IDs as they are generated. */
  predicate Plain(k: Key) {
    ColonFree(k.app) && (k.OfConn? || ColonFree(k.c)) && (k.OfSet? || k.OfHash? || IsSocketId(k.s))
  }

  lemma ColonsStep(head: string, rest: seq<string>)
    requires rest != []
    ensures Colons([head] + rest) == head + ":" + Colons(rest)
  {
    assert ([head] + rest)[1..] == rest;
  }

  lemma Two(a: string, b: string)
    ensures Colons([a, b]) == a + ":" + b
  {
    ColonsStep(a, [b]);
    assert [a] + [b] == [a, b];
  }

  lemma Three(a: string, b: string, c: string)
    ensures Colons([a, b, c]) == a + ":" + b + ":" + c
  {
    Two(b, c);
    ColonsStep(a, [b, c]);
    assert [a] + [b, c] == [a, b, c];
    assert a + ":" + (b + ":" + c) == a + ":" + b + ":" + c;
  }

  lemma Then(a: string, b: string, rest: seq<string>)
    requires rest != []
    ensures Colons([a, b] + rest) == a + ":" + b + ":" + Colons(rest)
  {
    ColonsStep(b, rest);
    ColonsStep(a, [b] + rest);
    assert [a] + ([b] + rest) == [a, b] + rest;
    assert a + ":" + (b + ":" + Colons(rest)) == a + ":" + b + ":" + Colons(rest);
  }

  /** What follows the application ID in a key. */
  function Tail(k: Key): seq<string> {
    match k
    case OfConn(_, s) => ["connection", s]
    case OfSet(_, c) => ["channel", c, "subscriptions"]
    case OfMeta(_, c, s) => ["channel", c, "subscription", s]
    case OfHash(_, c) => ["channel", c, "presence"]
    case OfInfo(_, c, s) => ["channel", c, "presence", s, "info"]
  }

  lemma ConnTail(app: string, s: SocketId)
    ensures ConnKey(app, s) == "ipe:app:" + app + ":" + Colons(["connection", s])
  {
    Two("connection", s);
    assert ConnKey(app, s) == "ipe:app:" + app + ":" + ("connection" + ":" + s);
  }

  lemma SetTail(app: string, c: string)
    ensures SetKey(app, c) == "ipe:app:" + app + ":" + Colons(["channel", c, "subscriptions"])
  {
    Three("channel", c, "subscriptions");
    assert SetKey(app, c) == "ipe:app:" + app + ":" + ("channel" + ":" + c + ":" + "subscriptions");
  }

  lemma MetaTail(app: string, c: string, s: SocketId)
    ensures MetaKey(app, c, s) == "ipe:app:" + app + ":" + Colons(["channel", c, "subscription", s])
  {
    Two("subscription", s);
    Then("channel", c, ["subscription", s]);
    assert ["channel", c, "subscription", s] == ["channel", c] + ["subscription", s];
    assert MetaKey(app, c, s) == "ipe:app:" + app + ":" + ("channel" + ":" + c + ":" + ("subscription" + ":" + s));
  }

  lemma HashTail(app: string, c: string)
    ensures HashKey(app, c) == "ipe:app:" + app + ":" + Colons(["channel", c, "presence"])
  {
    Three("channel", c, "presence");
    assert HashKey(app, c) == "ipe:app:" + app + ":" + ("channel" + ":" + c + ":" + "presence");
  }

  lemma InfoTail(app: string, c: string, s: SocketId)
    ensures InfoKey(app, c, s) == "ipe:app:" + app + ":" + Colons(["channel", c, "presence", s, "info"])
  {
    Three("presence", s, "info");
    Then("channel", c, ["presence", s, "info"]);
    assert ["channel", c, "presence", s, "info"] == ["channel", c] + ["presence", s, "info"];
    InfoGroups("ipe:app:" + app, c, s);
  }

  lemma Regroup(h: string, a: string, c: string, b: string, s: string, e: string)
    ensures h + (":" + a + ":") + c + (":" + b + ":") + s + (":" + e) == h + ":" + (a + ":" + c + ":" + (b + ":" + s + ":" + e))
  {
  }

  lemma InfoGroups(h: string, c: string, s: string)
    ensures h + ":channel:" + c + ":presence:" + s + ":info" ==
      h + ":" + ("channel" + ":" + c + ":" + ("presence" + ":" + s + ":" + "info"))
  {
    assert ":" + "channel" + ":" == ":channel:" && ":" + "presence" + ":" == ":presence:" && ":" + "info" == ":info";
    Regroup(h, "channel", c, "presence", s, "info");
  }

  lemma TailIsColons(k: Key)
    ensures Text(k) == "ipe:app:" + k.app + ":" + Colons(Tail(k))
  {
    match k
    case OfConn(app, s) => ConnTail(app, s);
    case OfSet(app, c) => SetTail(app, c);
    case OfMeta(app, c, s) => MetaTail(app, c, s);
    case OfHash(app, c) => HashTail(app, c);
    case OfInfo(app, c, s) => InfoTail(app, c, s);
  }

  /** The formatted key is its parts with colons between them. */
  lemma TextIsColons(k: Key)
    ensures Text(k) == Colons(Parts(k))
  {
    TailIsColons(k);
    ColonsStep(k.app, Tail(k));
    Then("ipe", "app", [k.app] + Tail(k));
    assert Parts(k) == ["ipe", "app"] + ([k.app] + Tail(k));
    HeadGroups(k.app, Colons(Tail(k)));
  }

  lemma HeadGroups(app: string, tail: string)
    ensures "ipe" + ":" + "app" + ":" + (app + ":" + tail) == "ipe:app:" + app + ":" + tail
  {
    assert "ipe" + ":" + "app" + ":" == "ipe:app:";
    Assoc("ipe:app:", app, ":", tail);
  }

  lemma Assoc(a: string, b: string, c: string, d: string)
    ensures a + (b + c + d) == a + b + c + d
  {
  }

  /** No part has a colon. */
  predicate Delimited(k: Key) {
    ColonFree(k.app) && (k.OfConn? || ColonFree(k.c)) && (k.OfSet? || k.OfHash? || ColonFree(k.s))
  }

  lemma DelimitedParts(k: Key)
    requires Delimited(k)
    ensures AllColonFree(Parts(k))
  {
  }

  lemma PlainIsDelimited(k: Key)
    requires Plain(k)
    ensures Delimited(k) && AllColonFree(Parts(k))
  {
    if !k.OfSet? && !k.OfHash? {
      SocketIdIsPlain(k.s);
    }
    DelimitedParts(k);
  }

  lemma PartsDistinct(k: Key, l: Key)
    requires Parts(k) == Parts(l)
    ensures k == l
  {
    var p, q := Parts(k), Parts(l);
    assert p[2] == q[2] && p[4] == q[4] && p[3] == q[3] && p[|p| - 1] == q[|q| - 1];
    if |p| == 8 {
      assert p[6] == q[6];
    }
    assert |p| == 6 ==> p[5] == q[5];
  }

  /** Colon-free applications, channels and sockets: the five key shapes are injective and pairwise disjoint. */
  lemma KeysDistinct(k: Key, l: Key)
    requires Delimited(k) && Delimited(l) && Text(k) == Text(l)
    ensures k == l
  {
    TextIsColons(k);
    TextIsColons(l);
    DelimitedParts(k);
    DelimitedParts(l);
    ColonsInjective(Parts(k), Parts(l));
    PartsDistinct(k, l);
  }

  /** Without that the shapes are not injective: a colon in a channel name can shift the parts. */
  lemma ColonsCollide(app: string)
    ensures MetaKey(app, "c", "d:subscription:s") == MetaKey(app, "c:subscription:d", "s")
  {
    var head := "ipe:app:" + app + ":channel:";
    assert MetaKey(app, "c", "d:subscription:s") == head + "c:subscription:d:subscription:s";
    assert MetaKey(app, "c:subscription:d", "s") == head + "c:subscription:d:subscription:s";
  }

  // ---------- names that are not colon-free ----------

  /** Every string is some colon-free parts with colons between them. */
  lemma {:induction false} Split(c: string) returns (parts: seq<string>)
    ensures parts != [] && AllColonFree(parts) && Colons(parts) == c
    decreases |c|
  {
    var k := ColonAt(c);
    ColonAtIsFirst(c);
    if k == |c| {
      parts := [c];
    } else {
      var rest := Split(c[k + 1..]);
      parts := [c[..k]] + rest;
      ColonsStep(c[..k], rest);
      assert c == c[..k] + ":" + c[k + 1..];
    }
  }

  lemma {:induction false} ColonAtIsFirst(c: string)
    ensures ColonAt(c) <= |c| && ColonFree(c[..ColonAt(c)]) && (ColonAt(c) < |c| ==> c[ColonAt(c)] == ':')
  {
    if c != "" && c[0] != ':' {
      ColonAtIsFirst(c[1..]);
      assert c[..ColonAt(c)] == [c[0]] + c[1..][..ColonAt(c[1..])];
    }
  }

  lemma {:induction false} ColonsConcat(p: seq<string>, q: seq<string>)
    requires p != [] && q != []
    ensures Colons(p + q) == Colons(p) + ":" + Colons(q)
  {
    if |p| == 1 {
      ColonsStep(p[0], q);
      assert p + q == [p[0]] + q;
    } else {
      ColonsConcat(p[1..], q);
      assert p + q == [p[0]] + (p[1..] + q);
      ColonsStep(p[0], p[1..] + q);
      assert p[0] + ":" + (Colons(p[1..]) + ":" + Colons(q)) == p[0] + ":" + Colons(p[1..]) + ":" + Colons(q);
    }
  }

  /** The set key of a channel name with a colon is no plain key, so it is never written. */
  lemma OddSetKey(app: string, c: string, k: Key)
    requires ColonFree(app) && !ColonFree(c) && Plain(k)
    ensures SetKey(app, c) != Text(k)
  {
    var parts := Split(c);
    var all := ["ipe", "app", app, "channel"] + parts + ["subscriptions"];
    OddSetParts(app, c, parts);
    TextIsColons(k);
    PlainIsDelimited(k);
    assert |parts| >= 2 && all[|all| - 1] == "subscriptions";
    assert all != Parts(k) by {
      if k.OfMeta? {
        assert Parts(k)[6] == k.s && k.s[0] != 's';
      }
    }
    if SetKey(app, c) == Text(k) {
      ColonsInjective(all, Parts(k));
    }
  }

  lemma SetGroups(h: string, c: string)
    ensures h + ":channel" + ":" + c + ":" + "subscriptions" == h + ":channel:" + c + ":subscriptions"
  {
    assert ":channel" + ":" == ":channel:" && ":" + "subscriptions" == ":subscriptions";
    assert h + ":channel" + ":" == h + (":channel" + ":");
    assert (h + ":channel:" + c) + ":" + "subscriptions" == (h + ":channel:" + c) + (":" + "subscriptions");
  }

  lemma OddSetParts(app: string, c: string, parts: seq<string>)
    requires ColonFree(app) && parts != [] && AllColonFree(parts) && Colons(parts) == c
    ensures var all := ["ipe", "app", app, "channel"] + parts + ["subscriptions"];
      AllColonFree(all) && Colons(all) == SetKey(app, c)
  {
    var head := ["ipe", "app", app, "channel"];
    ColonsConcat(head + parts, ["subscriptions"]);
    ColonsConcat(head, parts);
    Two(app, "channel");
    Then("ipe", "app", [app, "channel"]);
    assert head == ["ipe", "app"] + [app, "channel"];
    assert Colons(head) == "ipe:app:" + app + ":channel";
    SetGroups("ipe:app:" + app, c);
  }

  /** A connection key is the key of no other shape, whatever the socket ID. */
  lemma OddConnKey(app: string, s: SocketId, k: Key)
    requires ColonFree(app) && Plain(k) && ConnKey(app, s) == Text(k)
    ensures k == OfConn(app, s)
  {
    var parts := Split(s);
    var all := ["ipe", "app", app, "connection"] + parts;
    ConnParts(app, s, parts);
    TextIsColons(k);
    PlainIsDelimited(k);
    ColonsInjective(all, Parts(k));
    assert Parts(k)[3] == "connection" && Parts(k)[2] == app;
    assert |parts| == 1 && Parts(k)[4] == parts[0];
  }

  lemma ConnParts(app: string, s: SocketId, parts: seq<string>)
    requires ColonFree(app) && parts != [] && AllColonFree(parts) && Colons(parts) == s
    ensures var all := ["ipe", "app", app, "connection"] + parts;
      AllColonFree(all) && Colons(all) == ConnKey(app, s)
  {
    var head := ["ipe", "app", app, "connection"];
    ColonsConcat(head, parts);
    Two(app, "connection");
    Then("ipe", "app", [app, "connection"]);
    assert head == ["ipe", "app"] + [app, "connection"];
    assert Colons(head) == "ipe:app:" + app + ":connection";
    assert "ipe:app:" + app + ":connection" + ":" + s == ConnKey(app, s);
  }
}
