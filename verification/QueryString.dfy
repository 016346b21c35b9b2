/** The query string that an API request signs. */
module QueryString {

  // ---------- the order of strings ----------

  predicate Leq(a: string, b: string) {
    a == "" || (b != "" && (a[0] < b[0] || (a[0] == b[0] && Leq(a[1..], b[1..]))))
  }

  lemma {:induction false} LeqTotal(a: string, b: string)
    ensures Leq(a, b) || Leq(b, a)
  {
    if a != "" && b != "" && a[0] == b[0] {
      LeqTotal(a[1..], b[1..]);
    }
  }

  lemma {:induction false} LeqAntisymmetric(a: string, b: string)
    requires Leq(a, b) && Leq(b, a)
    ensures a == b
  {
    if a != "" && b != "" {
      LeqAntisymmetric(a[1..], b[1..]);
      assert a == [a[0]] + a[1..] && b == [b[0]] + b[1..];
    }
  }

  lemma {:induction false} LeqTransitive(a: string, b: string, c: string)
    requires Leq(a, b) && Leq(b, c)
    ensures Leq(a, c)
  {
    if a != "" && a[0] == b[0] == c[0] {
      LeqTransitive(a[1..], b[1..], c[1..]);
    }
  }

  ghost predicate IsSorted(s: seq<string>) {
    forall j, k :: 0 <= j < k < |s| ==> Leq(s[j], s[k])
  }

  function Inserted(s: seq<string>, x: string): (r: seq<string>)
    ensures multiset(r) == multiset(s) + multiset{x}
  {
    if s == [] then [x]
    else if Leq(x, s[0]) then [x] + s
    else
      assert s == [s[0]] + s[1..];
      [s[0]] + Inserted(s[1..], x)
  }

  /** sort.Strings. */
  function Sorted(s: seq<string>): (r: seq<string>)
    ensures multiset(r) == multiset(s)
  {
    if s == [] then []
    else
      assert s == [s[0]] + s[1..];
      Inserted(Sorted(s[1..]), s[0])
  }

  lemma {:induction false} InsertedSorted(s: seq<string>, x: string)
    requires IsSorted(s)
    ensures IsSorted(Inserted(s, x))
  {
    if s != [] && !Leq(x, s[0]) {
      LeqTotal(x, s[0]);
      InsertedSorted(s[1..], x);
      var r := Inserted(s[1..], x);
      forall k | 0 <= k < |r|
        ensures Leq(s[0], r[k])
      {
        assert r[k] in multiset(r);
        assert r[k] == x || r[k] in s[1..];
      }
    } else if s != [] {
      forall k | 0 <= k < |s|
        ensures Leq(x, s[k])
      {
        if k > 0 {
          LeqTransitive(x, s[0], s[k]);
        }
      }
    }
  }

  lemma {:induction false} SortedSorts(s: seq<string>)
    ensures IsSorted(Sorted(s))
  {
    if s != [] {
      SortedSorts(s[1..]);
      InsertedSorted(Sorted(s[1..]), s[0]);
    }
  }

  /** A sorted permutation is unique. */
  lemma {:induction false} SortedUnique(a: seq<string>, b: seq<string>)
    requires IsSorted(a) && IsSorted(b) && multiset(a) == multiset(b)
    ensures a == b
  {
    if a == [] {
      assert |b| == |multiset(b)| == |multiset(a)|;
    } else {
      assert a[0] in multiset(a);
      assert a[0] in b;
      assert b[0] in multiset(b);
      assert b[0] in a;
      SmallestFirst(a, b);
      assert a == [a[0]] + a[1..] && b == [b[0]] + b[1..];
      assert multiset(a[1..]) == multiset(a) - multiset{a[0]};
      assert multiset(b[1..]) == multiset(b) - multiset{b[0]};
      SortedUnique(a[1..], b[1..]);
    }
  }

  lemma SmallestFirst(a: seq<string>, b: seq<string>)
    requires IsSorted(a) && IsSorted(b) && a != [] && b != [] && a[0] in b && b[0] in a
    ensures a[0] == b[0]
  {
    var j :| 0 <= j < |a| && a[j] == b[0];
    var k :| 0 <= k < |b| && b[k] == a[0];
    if j > 0 && k > 0 {
      LeqAntisymmetric(a[0], b[0]);
    }
  }

  // ---------- the parameters ----------

  /** url.Values: every key has a list of values. */
  type Params = map<string, seq<string>>

  function First(values: seq<string>): string { if values == [] then "" else values[0] }

  /** Get: the first value of a key, or the empty string. */
  function Get(params: Params, key: string): string { if key in params then First(params[key]) else "" }

  function LowerChar(c: char): char { if 'A' <= c <= 'Z' then c - 'A' + 'a' else c }

  function ToLower(s: string): (r: string)
    ensures |r| == |s|
  {
    seq(|s|, k requires 0 <= k < |s| => LowerChar(s[k]))
  }

  function Lowered(keys: seq<string>): seq<string> {
    seq(|keys|, k requires 0 <= k < |keys| => ToLower(keys[k]))
  }

  function Piece(key: string, value: string): string { key + "=" + value }

  function Pieces(params: Params, keys: seq<string>): seq<string> {
    seq(|keys|, k requires 0 <= k < |keys| => Piece(keys[k], Get(params, keys[k])))
  }

  function Join(pieces: seq<string>): string {
    if pieces == [] then "" else if |pieces| == 1 then pieces[0] else Join(pieces[..|pieces| - 1]) + "&" + pieces[|pieces| - 1]
  }

  /** `order` is an enumeration of the keys. */
  ghost predicate Enumerates(order: seq<string>, keys: set<string>) { multiset(order) == multiset(keys) }

  function Signed(params: Params, order: seq<string>): string { Join(Pieces(params, Sorted(Lowered(order)))) }

  lemma TakenOut<T>(s: seq<T>, j: nat)
    requires j < |s|
    ensures multiset(s) == multiset(s[..j] + s[j + 1..]) + multiset{s[j]}
    ensures multiset(s[..j] + s[j + 1..]) == multiset(s) - multiset{s[j]}
  {
    assert s == s[..j] + [s[j]] + s[j + 1..];
  }

  lemma LoweredTakenOut(s: seq<string>, j: nat)
    requires j < |s|
    ensures multiset(Lowered(s)) == multiset(Lowered(s[..j] + s[j + 1..])) + multiset{ToLower(s[j])}
  {
    TakenOut(Lowered(s), j);
    assert Lowered(s)[..j] + Lowered(s)[j + 1..] == Lowered(s[..j] + s[j + 1..]);
  }

  lemma SameRest(a: seq<string>, b: seq<string>, j: nat)
    requires multiset(a) == multiset(b) && a != [] && j < |b| && b[j] == a[0]
    ensures multiset(a[..0] + a[1..]) == multiset(b[..j] + b[j + 1..])
  {
    TakenOut(a, 0);
    TakenOut(b, j);
  }

  lemma {:induction false} LoweredPermuted(a: seq<string>, b: seq<string>)
    requires multiset(a) == multiset(b)
    ensures multiset(Lowered(a)) == multiset(Lowered(b))
    decreases |a|
  {
    assert |a| == |multiset(a)| == |multiset(b)| == |b|;
    if a != [] {
      assert a[0] in multiset(b);
      var j :| 0 <= j < |b| && b[j] == a[0];
      SameRest(a, b, j);
      LoweredPermuted(a[..0] + a[1..], b[..j] + b[j + 1..]);
      LoweredTakenOut(a, 0);
      LoweredTakenOut(b, j);
    }
  }

  /** The string to sign does not depend on the iteration order of the map. */
  lemma OrderIndependent(params: Params, a: seq<string>, b: seq<string>)
    requires Enumerates(a, params.Keys) && Enumerates(b, params.Keys)
    ensures Signed(params, a) == Signed(params, b)
  {
    LoweredPermuted(a, b);
    SortedSorts(Lowered(a));
    SortedSorts(Lowered(b));
    SortedUnique(Sorted(Lowered(a)), Sorted(Lowered(b)));
  }

  lemma OneMore(seen: seq<string>, key: string, keys: set<string>, left: set<string>)
    requires multiset(seen) == multiset(keys - left) && key in left && left <= keys
    ensures multiset(seen + [key]) == multiset(keys - (left - {key}))
    ensures Lowered(seen + [key]) == Lowered(seen) + [ToLower(key)]
  {
    assert keys - (left - {key}) == (keys - left) + {key};
  }

  /** The lower-case keys, in the map's iteration order. */
  method LowerKeys(params: Params) returns (keys: seq<string>, ghost seen: seq<string>)
    ensures Enumerates(seen, params.Keys) && keys == Lowered(seen)
  {
    var left := params.Keys;
    keys, seen := [], [];
    while left != {}
      invariant left <= params.Keys
      invariant multiset(seen) == multiset(params.Keys - left) && keys == Lowered(seen)
      decreases left
    {
      var key :| key in left;
      OneMore(seen, key, params.Keys, left);
      left := left - {key};
      keys := keys + [ToLower(key)];
      seen := seen + [key];
    }
    assert params.Keys - {} == params.Keys;
  }

  /** prepareQueryString: the keys in the map's order, sorted, each with its first value. */
  method PrepareQueryString(params: Params) returns (r: string)
    ensures forall order :: Enumerates(order, params.Keys) ==> r == Signed(params, order)
  {
    var keys, seen := LowerKeys(params);
    keys := Sorted(keys);
    var pieces: seq<string> := [];
    for k := 0 to |keys|
      invariant pieces == Pieces(params, keys[..k])
    {
      pieces := pieces + [Piece(keys[k], Get(params, keys[k]))];
    }
    assert keys[..|keys|] == keys;
    r := Join(pieces);
    forall order | Enumerates(order, params.Keys)
      ensures r == Signed(params, order)
    {
      OrderIndependent(params, order, seen);
    }
  }

  // ---------- lower-case keys ----------

  lemma LowerAgain(s: string)
    ensures ToLower(ToLower(s)) == ToLower(s)
  {
  }

  /** For lower-case keys it lists each key once, in strictly ascending order, with its first value. */
  lemma LowerCaseKeys(params: Params, order: seq<string>)
    requires Enumerates(order, params.Keys) && forall key :: key in params ==> ToLower(key) == key
    ensures var keys := Sorted(Lowered(order));
      && Enumerates(keys, params.Keys)
      && (forall j, k :: 0 <= j < k < |keys| ==> Leq(keys[j], keys[k]) && keys[j] != keys[k])
      && (forall k :: 0 <= k < |keys| ==> keys[k] in params && Pieces(params, keys)[k] == Piece(keys[k], First(params[keys[k]])))
  {
    forall k | 0 <= k < |order|
      ensures order[k] in params
    {
      assert order[k] in multiset(order);
    }
    assert Lowered(order) == order;
    SortedSorts(order);
    var keys := Sorted(order);
    forall j, k | 0 <= j < k < |keys|
      ensures keys[j] != keys[k]
    {
      if keys[j] == keys[k] {
        TwiceCounts(keys, j, k);
      }
    }
    forall k | 0 <= k < |keys|
      ensures keys[k] in params
    {
      assert keys[k] in multiset(keys);
    }
  }

  lemma TwiceCounts(s: seq<string>, j: nat, k: nat)
    requires j < k < |s| && s[j] == s[k]
    ensures multiset(s)[s[j]] >= 2
  {
    assert s == s[..j] + [s[j]] + s[j + 1..k] + [s[k]] + s[k + 1..];
  }

  // ---------- the documented string ----------

  /** The documented pieces: each parameter's own value under its lower-case key, in the order given. */
  function Documented(params: Params, order: seq<string>): seq<string>
    requires forall key :: key in order ==> key in params
  {
    seq(|order|, k requires 0 <= k < |order| => Piece(ToLower(order[k]), First(params[order[k]])))
  }

  /** The keys ordered by their lower-case forms. */
  ghost predicate Arranged(order: seq<string>, keys: set<string>) {
    Enumerates(order, keys) && IsSorted(Lowered(order))
  }

  lemma ArrangedIn(order: seq<string>, keys: set<string>)
    requires Enumerates(order, keys)
    ensures forall key :: key in order <==> key in keys
  {
    forall key: string
      ensures key in order <==> key in keys
    {
      assert key in order <==> key in multiset(order);
    }
  }

  /**
   The code looks a value up under the lower-case key. Its pieces are the documented ones if and
   only if every key has the value of its lower-case form; a key that is not lower-case, and whose
   lower-case form is no parameter, must have an empty value.
   */
  lemma CodeMeetsDocument(params: Params, order: seq<string>)
    requires Arranged(order, params.Keys)
    ensures forall key :: key in order ==> key in params
    ensures Pieces(params, Sorted(Lowered(order))) == Documented(params, order) <==>
      forall key :: key in params ==> First(params[key]) == Get(params, ToLower(key))
  {
    ArrangedIn(order, params.Keys);
    SortedSorts(Lowered(order));
    SortedUnique(Sorted(Lowered(order)), Lowered(order));
    var code, doc := Pieces(params, Lowered(order)), Documented(params, order);
    forall k | 0 <= k < |order|
      ensures code[k] == doc[k] <==> First(params[order[k]]) == Get(params, ToLower(order[k]))
    {
      PieceInjective(ToLower(order[k]), Get(params, ToLower(order[k])), First(params[order[k]]));
    }
    if code == doc {
      forall key | key in params
        ensures First(params[key]) == Get(params, ToLower(key))
      {
        assert key in order;
        var k :| 0 <= k < |order| && order[k] == key;
        assert code[k] == doc[k];
      }
    }
  }

  lemma PieceInjective(key: string, v: string, w: string)
    ensures Piece(key, v) == Piece(key, w) <==> v == w
  {
    var n := |key + "="|;
    assert Piece(key, v)[n..] == v && Piece(key, w)[n..] == w;
  }

  /** One parameter with an upper-case key: its value is lost. */
  lemma UpperCaseLosesValue()
    ensures var params := map["N" := ["x"]];
      && Arranged(["N"], params.Keys)
      && Documented(params, ["N"]) == ["n=x"] && Pieces(params, Sorted(Lowered(["N"]))) == ["n="]
  {
    assert ToLower("N") == "n" && Lowered(["N"]) == ["n"];
    assert Sorted(["n"]) == ["n"];
    assert Piece("n", "x") == "n=x" && Piece("n", "") == "n=";
  }

  lemma {:induction false} JoinLength(p: seq<string>, q: seq<string>)
    requires |p| == |q| && forall k :: 0 <= k < |p| ==> |p[k]| <= |q[k]|
    ensures |Join(p)| <= |Join(q)|
    ensures |Join(p)| == |Join(q)| ==> forall k :: 0 <= k < |p| ==> |p[k]| == |q[k]|
  {
    if |p| > 1 {
      JoinLength(p[..|p| - 1], q[..|q| - 1]);
    }
  }

  /** No two keys share a lower-case form. */
  ghost predicate Unambiguous(params: Params) {
    forall j, k :: j in params && k in params && ToLower(j) == ToLower(k) ==> j == k
  }

  /**
   Where the documented string is well defined, the code signs it if and only if every key
   that is not lower-case has an empty value.
   */
  lemma SignedMeetsDocument(params: Params, order: seq<string>)
    requires Arranged(order, params.Keys) && Unambiguous(params)
    ensures forall key :: key in order ==> key in params
    ensures Signed(params, order) == Join(Documented(params, order)) <==>
      forall key :: key in params && ToLower(key) != key ==> First(params[key]) == ""
  {
    CodeMeetsDocument(params, order);
    forall key | key in params
      ensures Get(params, ToLower(key)) == if ToLower(key) == key then First(params[key]) else ""
    {
      LowerAgain(key);
    }
    SortedSorts(Lowered(order));
    SortedUnique(Sorted(Lowered(order)), Lowered(order));
    var code, doc := Pieces(params, Lowered(order)), Documented(params, order);
    if Join(code) == Join(doc) {
      JoinLength(code, doc);
      forall key | key in params && ToLower(key) != key
        ensures First(params[key]) == ""
      {
        ArrangedIn(order, params.Keys);
        var k :| 0 <= k < |order| && order[k] == key;
        assert |code[k]| == |doc[k]|;
      }
    }
  }
}
