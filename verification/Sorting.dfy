// The stable sort that the standard library gives the operator (`sort_by_key`, `sort`),
// as a function, with the facts that pin it down: it is the only sorted rearrangement that
// keeps the order of equivalent elements, and it commutes with filtering.
module Sorting {

  ghost predicate TotalPreorder<T(!new)>(le: (T, T) -> bool) {
    && (forall x, y :: le(x, y) || le(y, x))
    && (forall x, y, z :: le(x, y) && le(y, z) ==> le(x, z))
  }

  ghost predicate SortedBy<T>(le: (T, T) -> bool, s: seq<T>) {
    forall i, j :: 0 <= i < j < |s| ==> le(s[i], s[j])
  }

  function Insert<T>(le: (T, T) -> bool, x: T, s: seq<T>): (r: seq<T>)
    ensures |r| == |s| + 1
  {
    if s == [] || le(x, s[0]) then [x] + s
    else [s[0]] + Insert(le, x, s[1..])
  }

  function Sort<T>(le: (T, T) -> bool, s: seq<T>): (r: seq<T>)
    ensures |r| == |s|
  {
    if s == [] then []
    else Insert(le, s[0], Sort(le, s[1..]))
  }

  function Filter<T(!new)>(p: T -> bool, s: seq<T>): (r: seq<T>)
    ensures |r| <= |s|
    ensures forall x :: x in r <==> x in s && p(x)
  {
    if s == [] then []
    else if p(s[0]) then [s[0]] + Filter(p, s[1..])
    else Filter(p, s[1..])
  }

  lemma FilterCons<T(!new)>(p: T -> bool, x: T, s: seq<T>)
    ensures Filter(p, [x] + s) == if p(x) then [x] + Filter(p, s) else Filter(p, s)
  {
  }

  // Equivalence with c under the preorder: a tie class.
  function Tied<T>(le: (T, T) -> bool, c: T): T -> bool {
    (x: T) => le(c, x) && le(x, c)
  }

  lemma {:induction false} InsertPermutes<T>(le: (T, T) -> bool, x: T, s: seq<T>)
    ensures multiset(Insert(le, x, s)) == multiset(s) + multiset{x}
  {
    if s != [] && !le(x, s[0]) {
      assert s == [s[0]] + s[1..];
      InsertPermutes(le, x, s[1..]);
    }
  }

  lemma {:induction false} SortPermutes<T>(le: (T, T) -> bool, s: seq<T>)
    ensures multiset(Sort(le, s)) == multiset(s)
  {
    if s != [] {
      assert s == [s[0]] + s[1..];
      SortPermutes(le, s[1..]);
      InsertPermutes(le, s[0], Sort(le, s[1..]));
    }
  }

  lemma SameElements<T>(a: seq<T>, b: seq<T>)
    requires multiset(a) == multiset(b)
    ensures forall x :: x in a <==> x in b
  {
    forall x ensures x in a <==> x in b {
      assert x in a <==> x in multiset(a);
      assert x in b <==> x in multiset(b);
    }
  }

  lemma {:induction false} InsertSorted<T(!new)>(le: (T, T) -> bool, x: T, s: seq<T>)
    requires TotalPreorder(le) && SortedBy(le, s)
    ensures SortedBy(le, Insert(le, x, s))
  {
    if s != [] && !le(x, s[0]) {
      var t := Insert(le, x, s[1..]);
      InsertSorted(le, x, s[1..]);
      forall y | y in t ensures le(s[0], y) {
        InsertPermutes(le, x, s[1..]);
        assert y in multiset(t);
        if y != x { assert y in s[1..]; }
      }
    } else if s != [] {
      forall i | 0 <= i < |s| ensures le(x, s[i]) {
        if i > 0 { assert le(s[0], s[i]); }
      }
    }
  }

  lemma {:induction false} SortSorted<T(!new)>(le: (T, T) -> bool, s: seq<T>)
    requires TotalPreorder(le)
    ensures SortedBy(le, Sort(le, s))
  {
    if s != [] {
      SortSorted(le, s[1..]);
      InsertSorted(le, s[0], Sort(le, s[1..]));
    }
  }

  // Sorting a sorted sequence changes nothing, not even the order of ties.
  lemma {:induction false} SortIdentity<T>(le: (T, T) -> bool, s: seq<T>)
    requires SortedBy(le, s)
    ensures Sort(le, s) == s
  {
    if s != [] {
      SortIdentity(le, s[1..]);
      if |s| > 1 { assert le(s[0], s[1]); }
    }
  }

  lemma {:induction false} InsertFilter<T(!new)>(le: (T, T) -> bool, p: T -> bool, x: T, s: seq<T>)
    requires TotalPreorder(le) && SortedBy(le, s)
    ensures Filter(p, Insert(le, x, s)) ==
            if p(x) then Insert(le, x, Filter(p, s)) else Filter(p, s)
  {
    var r := Insert(le, x, s);
    if s == [] || le(x, s[0]) {
      assert r[1..] == s;
      var f := Filter(p, s);
      if f != [] {
        assert f[0] in s;
        var i :| 0 <= i < |s| && s[i] == f[0];
        assert i > 0 ==> le(s[0], s[i]);
      }
    } else {
      assert r[1..] == Insert(le, x, s[1..]);
      InsertFilter(le, p, x, s[1..]);
      if p(s[0]) { assert ([s[0]] + Filter(p, s[1..]))[1..] == Filter(p, s[1..]); }
    }
  }

  lemma {:induction false} FilterSnoc<T(!new)>(p: T -> bool, s: seq<T>, x: T)
    ensures Filter(p, s + [x]) == Filter(p, s) + if p(x) then [x] else []
  {
    if s == [] {
      assert [] + [x] == [x];
    } else {
      assert (s + [x])[1..] == s[1..] + [x];
      FilterSnoc(p, s[1..], x);
    }
  }

  // Stable sorting commutes with dropping elements.
  lemma {:induction false} SortFilter<T(!new)>(le: (T, T) -> bool, p: T -> bool, s: seq<T>)
    requires TotalPreorder(le)
    ensures Filter(p, Sort(le, s)) == Sort(le, Filter(p, s))
  {
    if s != [] {
      SortFilter(le, p, s[1..]);
      SortSorted(le, s[1..]);
      InsertFilter(le, p, s[0], Sort(le, s[1..]));
      if p(s[0]) { assert ([s[0]] + Filter(p, s[1..]))[1..] == Filter(p, s[1..]); }
    }
  }

  lemma {:induction false} FilterSorted<T(!new)>(le: (T, T) -> bool, p: T -> bool, s: seq<T>)
    requires SortedBy(le, s)
    ensures SortedBy(le, Filter(p, s))
  {
    if s != [] {
      FilterSorted(le, p, s[1..]);
      forall y | y in Filter(p, s[1..]) ensures le(s[0], y) {
        var i :| 0 <= i < |s[1..]| && s[1..][i] == y;
        assert s[i + 1] == y;
      }
    }
  }

  // Stability: within every tie class the order is that of the input.
  lemma SortStable<T(!new)>(le: (T, T) -> bool, s: seq<T>, c: T)
    requires TotalPreorder(le)
    ensures Filter(Tied(le, c), Sort(le, s)) == Filter(Tied(le, c), s)
  {
    var f := Filter(Tied(le, c), s);
    SortFilter(le, Tied(le, c), s);
    forall i, j | 0 <= i < j < |f| ensures le(f[i], f[j]) {
      assert f[i] in f && f[j] in f;
      assert Tied(le, c)(f[i]) && Tied(le, c)(f[j]);
    }
    SortIdentity(le, f);
  }

  lemma SameClassMember<T(!new)>(le: (T, T) -> bool, t: seq<T>, u: seq<T>, x: T)
    requires TotalPreorder(le) && x in t
    requires Filter(Tied(le, x), t) == Filter(Tied(le, x), u)
    ensures x in u
  {
  }

  // Sortedness and stability leave no choice.
  lemma {:induction false} SortedStableUnique<T(!new)>(le: (T, T) -> bool, t: seq<T>, u: seq<T>)
    requires TotalPreorder(le) && SortedBy(le, t) && SortedBy(le, u)
    requires forall c :: Filter(Tied(le, c), t) == Filter(Tied(le, c), u)
    ensures t == u
  {
    if t != [] { SameClassMember(le, t, u, t[0]); }
    if u != [] { SameClassMember(le, u, t, u[0]); }
    if t != [] && u != [] {
      assert t[0] in u && u[0] in t;
      assert le(t[0], u[0]) && le(u[0], t[0]);
      assert Filter(Tied(le, t[0]), t)[0] == t[0];
      assert Filter(Tied(le, t[0]), u)[0] == u[0];
      forall c ensures Filter(Tied(le, c), t[1..]) == Filter(Tied(le, c), u[1..]) {
        assert Filter(Tied(le, c), t) == Filter(Tied(le, c), u);
        if Tied(le, c)(t[0]) {
          assert Filter(Tied(le, c), t)[1..] == Filter(Tied(le, c), t[1..]);
          assert Filter(Tied(le, c), u)[1..] == Filter(Tied(le, c), u[1..]);
        }
      }
      SortedStableUnique(le, t[1..], u[1..]);
      assert t == [t[0]] + t[1..] && u == [u[0]] + u[1..];
    }
  }

  // Lexicographic order of strings: the order of `keys.sort()`.
  predicate Lexicographic(a: string, b: string) {
    a == [] || (b != [] && (a[0] < b[0] || (a[0] == b[0] && Lexicographic(a[1..], b[1..]))))
  }

  lemma {:induction false} LexicographicTotal(a: string, b: string)
    ensures Lexicographic(a, b) || Lexicographic(b, a)
  {
    if a != [] && b != [] && a[0] == b[0] { LexicographicTotal(a[1..], b[1..]); }
  }

  lemma {:induction false} LexicographicTransitive(a: string, b: string, c: string)
    requires Lexicographic(a, b) && Lexicographic(b, c)
    ensures Lexicographic(a, c)
  {
    if a != [] && a[0] == b[0] == c[0] { LexicographicTransitive(a[1..], b[1..], c[1..]); }
  }

  lemma LexicographicPreorder()
    ensures TotalPreorder(Lexicographic)
  {
    forall x: string, y: string ensures Lexicographic(x, y) || Lexicographic(y, x) { LexicographicTotal(x, y); }
    forall x: string, y: string, z: string | Lexicographic(x, y) && Lexicographic(y, z)
      ensures Lexicographic(x, z)
    {
      LexicographicTransitive(x, y, z);
    }
  }

  lemma {:induction false} LexicographicAntisymmetric(a: string, b: string)
    requires Lexicographic(a, b) && Lexicographic(b, a)
    ensures a == b
  {
    if a != [] {
      LexicographicAntisymmetric(a[1..], b[1..]);
      assert a == [a[0]] + a[1..] && b == [b[0]] + b[1..];
    }
  }

  ghost predicate Distinct<T>(s: seq<T>) { forall i, j :: 0 <= i < j < |s| ==> s[i] != s[j] }

  // The sorted enumeration of a set of strings.
  ghost predicate Enumerates(s: seq<string>, keys: set<string>) {
    Distinct(s) && SortedBy(Lexicographic, s) && forall k :: k in s <==> k in keys
  }

  lemma {:induction false} EnumerationUnique(s: seq<string>, t: seq<string>, keys: set<string>)
    requires Enumerates(s, keys) && Enumerates(t, keys)
    ensures s == t
  {
    assert t == [] || t[0] in keys;
    if s != [] {
      assert s[0] in keys && s[0] in t && t[0] in s;
      LexicographicPreorder();
      LexicographicAntisymmetric(s[0], t[0]);
      assert s == [s[0]] + s[1..] && t == [t[0]] + t[1..];
      EnumerationUnique(s[1..], t[1..], keys - {s[0]});
    }
  }

  lemma SortEnumerates(s: seq<string>, keys: set<string>)
    requires Distinct(s) && forall k :: k in s <==> k in keys
    ensures Enumerates(Sort(Lexicographic, s), keys)
  {
    LexicographicPreorder();
    SortSorted(Lexicographic, s);
    SortPermutes(Lexicographic, s);
    SameElements(Sort(Lexicographic, s), s);
    DistinctPermuted(s, Sort(Lexicographic, s));
  }

  lemma {:induction false} DistinctCounts<T>(s: seq<T>)
    ensures Distinct(s) <==> forall x :: x in s ==> multiset(s)[x] == 1
  {
    if s != [] {
      assert s == [s[0]] + s[1..];
      DistinctCounts(s[1..]);
      assert multiset(s) == multiset{s[0]} + multiset(s[1..]);
      if Distinct(s) {
        assert s[0] !in s[1..];
      } else if Distinct(s[1..]) {
        assert s[0] in s[1..];
        assert multiset(s)[s[0]] >= 2;
      } else {
        var x :| x in s[1..] && multiset(s[1..])[x] != 1;
        assert multiset(s)[x] > 1;
      }
    }
  }

  lemma DistinctPermuted<T>(s: seq<T>, t: seq<T>)
    requires multiset(s) == multiset(t) && Distinct(s)
    ensures Distinct(t)
  {
    DistinctCounts(s);
    DistinctCounts(t);
    SameElements(s, t);
  }

  ghost function SortedKeys(keys: set<string>): (s: seq<string>)
    ensures Distinct(s) && forall k :: k in s <==> k in keys
  {
    var s := Listing(keys);
    SortEnumerates(s, keys);
    Sort(Lexicographic, s)
  }

  lemma SortedKeysEnumerates(keys: set<string>)
    ensures Enumerates(SortedKeys(keys), keys)
  {
    SortEnumerates(Listing(keys), keys);
  }

  // Some enumeration of a set.
  ghost function Listing(keys: set<string>): (s: seq<string>)
    ensures Distinct(s) && forall k :: k in s <==> k in keys
  {
    if keys == {} then [] else
      var k :| k in keys;
      [k] + Listing(keys - {k})
  }

  lemma SortedKeysOf(s: seq<string>, keys: set<string>)
    requires Distinct(s) && forall k :: k in s <==> k in keys
    ensures Sort(Lexicographic, s) == SortedKeys(keys)
  {
    SortEnumerates(s, keys);
    SortedKeysEnumerates(keys);
    EnumerationUnique(Sort(Lexicographic, s), SortedKeys(keys), keys);
  }

  // Enumerating fewer keys is enumerating them all and dropping the others.
  lemma SortedKeysFilter(keys: set<string>, p: string -> bool)
    ensures SortedKeys(set k | k in keys && p(k)) == Filter(p, SortedKeys(keys))
  {
    var f := Filter(p, SortedKeys(keys));
    SortedKeysEnumerates(keys);
    SortedKeysEnumerates(set k | k in keys && p(k));
    FilterSorted(Lexicographic, p, SortedKeys(keys));
    FilterDistinct(p, SortedKeys(keys));
    EnumerationUnique(SortedKeys(set k | k in keys && p(k)), f, set k | k in keys && p(k));
  }

  lemma {:induction false} FilterDistinct<T(!new)>(p: T -> bool, s: seq<T>)
    requires Distinct(s)
    ensures Distinct(Filter(p, s))
  {
    if s != [] { FilterDistinct(p, s[1..]); }
  }
}
