/** Channel names, event names and socket IDs. */
module Names {
  predicate IsPrivate(chan: string) { "private-" <= chan }

  predicate IsPresence(chan: string) { "presence-" <= chan }

  predicate IsPresenceOrPrivate(chan: string) { IsPresence(chan) || IsPrivate(chan) }

  predicate IsPublic(chan: string) { !IsPresenceOrPrivate(chan) }

  predicate IsClientEvent(event: string) { "client-" <= event }

  /** The character class of the validation expression. */
  predicate IsNameChar(c: char) {
    'A' <= c <= 'Z' || 'a' <= c <= 'z' || '0' <= c <= '9' || c in "_-=@,.;"
  }

  predicate IsChannelNameValid(chan: string) {
    chan != "" && forall k :: 0 <= k < |chan| ==> IsNameChar(chan[k])
  }

  /** A name cannot carry both prefixes, so the three kinds partition the names. */
  lemma KindsAreDisjoint(chan: string)
    ensures !(IsPresence(chan) && IsPrivate(chan))
  {
    if IsPresence(chan) {
      assert chan[2] == 'e';
    }
  }

  /** The characters of a generated socket ID. */
  predicate IsSocketId(s: string) {
    s != "" && forall k :: 0 <= k < |s| ==> '0' <= s[k] <= '9' || s[k] == '.'
  }

  function Digit(n: nat): char
    requires n < 10
  {
    '0' + n as char
  }

  function Decimal(n: nat): string {
    if n < 10 then [Digit(n)] else Decimal(n / 10) + [Digit(n % 10)]
  }

  /** GenerateSessionID: two random numbers, which are parameters here, around a dot. */
  function SessionId(a: nat, b: nat): string { Decimal(a) + "." + Decimal(b) }

  lemma {:induction false} DecimalDigits(n: nat)
    ensures Decimal(n) != "" && forall k :: 0 <= k < |Decimal(n)| ==> '0' <= Decimal(n)[k] <= '9'
  {
    if n >= 10 {
      DecimalDigits(n / 10);
    }
  }

  lemma {:induction false} DecimalInjective(m: nat, n: nat)
    requires Decimal(m) == Decimal(n)
    ensures m == n
  {
    var p, q := Decimal(m), Decimal(n);
    assert p[|p| - 1] == Digit(m % 10) && q[|q| - 1] == Digit(n % 10);
    DecimalLength(m);
    DecimalLength(n);
    if m >= 10 {
      assert p[..|p| - 1] == Decimal(m / 10) && q[..|q| - 1] == Decimal(n / 10);
      DecimalInjective(m / 10, n / 10);
    }
  }

  lemma {:induction false} DecimalLength(n: nat)
    ensures |Decimal(n)| >= 1 && (|Decimal(n)| == 1 <==> n < 10)
  {
    if n >= 10 {
      DecimalLength(n / 10);
    }
  }

  function DotAt(s: string): nat {
    if s == "" || s[0] == '.' then 0 else 1 + DotAt(s[1..])
  }

  lemma {:induction false} FirstDot(a: string, x: string)
    requires '.' !in a
    ensures DotAt(a + "." + x) == |a|
  {
    if a != "" {
      assert (a + "." + x)[1..] == a[1..] + "." + x;
      FirstDot(a[1..], x);
    }
  }

  /** Generated IDs have digits and a dot, and are fresh as long as the pair of numbers is. */
  lemma SessionIds(a: nat, b: nat, a': nat, b': nat)
    ensures IsSocketId(SessionId(a, b))
    ensures SessionId(a, b) == SessionId(a', b') ==> a == a' && b == b'
  {
    DecimalDigits(a);
    DecimalDigits(b);
    DecimalDigits(a');
    FirstDot(Decimal(a), Decimal(b));
    FirstDot(Decimal(a'), Decimal(b'));
    if SessionId(a, b) == SessionId(a', b') {
      var s, t := SessionId(a, b), SessionId(a', b');
      assert s[..|Decimal(a)|] == Decimal(a) && t[..|Decimal(a')|] == Decimal(a');
      assert s[|Decimal(a)| + 1..] == Decimal(b) && t[|Decimal(a')| + 1..] == Decimal(b');
      DecimalInjective(a, a');
      DecimalInjective(b, b');
    }
  }

  lemma SocketIdIsPlain(s: string)
    requires IsSocketId(s)
    ensures ':' !in s
  {
  }

  lemma ChannelNameIsPlain(c: string)
    requires IsChannelNameValid(c)
    ensures ':' !in c
  {
    forall k | 0 <= k < |c| ensures c[k] != ':' { assert IsNameChar(c[k]); }
  }
}
