/** Sequence and ordering facts used by every other module. */
module Seqs {
  import opened Protocol

  ghost predicate Distinct<T>(s: seq<T>) {
    forall i, j :: 0 <= i < j < |s| ==> s[i] != s[j]
  }

  /** std::erase: every occurrence of `x` goes, the order of the rest stays. */
  function Without(s: seq<Id>, x: Id): (r: seq<Id>)
    ensures forall y :: y in r <==> y in s && y != x
    ensures x !in s ==> r == s
    ensures |r| <= |s|
  {
    if s == [] then []
    else if s[0] == x then Without(s[1..], x)
    else [s[0]] + Without(s[1..], x)
  }

  lemma {:induction false} WithoutDistinct(s: seq<Id>, x: Id)
    requires Distinct(s)
    ensures Distinct(Without(s, x))
  {
    if s != [] {
      WithoutDistinct(s[1..], x);
      var r := Without(s[1..], x);
      if s[0] != x {
        assert s[0] !in r by { assert s[0] !in s[1..]; }
      }
    }
  }

  lemma {:induction false} WithoutConcat(s: seq<Id>, t: seq<Id>, x: Id)
    ensures Without(s + t, x) == Without(s, x) + Without(t, x)
  {
    if s == [] {
      assert s + t == t;
    } else {
      assert (s + t)[1..] == s[1..] + t;
      WithoutConcat(s[1..], t, x);
    }
  }

  lemma {:induction false} WithoutCommutes(s: seq<Id>, x: Id, y: Id)
    ensures Without(Without(s, x), y) == Without(Without(s, y), x)
  {
    if s != [] {
      WithoutCommutes(s[1..], x, y);
    }
  }

  lemma WithoutHead(x: Id, s: seq<Id>, y: Id)
    requires x != y
    ensures Without([x] + s, y) == [x] + Without(s, y)
  {
    assert ([x] + s)[1..] == s;
  }

  /** Appending a stranger and viewing the list from either side. */
  lemma WithoutLast(s: seq<Id>, c: Id, x: Id)
    requires c !in s
    ensures Without(s + [c], x) == if x == c then s else Without(s, x) + [c]
  {
    WithoutConcat(s, [c], x);
    assert [c][1..] == [];
  }

  /** Byte-wise lexicographic order, the order of std::map<std::string, _>. */
  predicate Le(a: Str, b: Str) {
    a == [] || (b != [] && (a[0] < b[0] || (a[0] == b[0] && Le(a[1..], b[1..]))))
  }

  lemma {:induction false} LeTotal(a: Str, b: Str)
    ensures Le(a, b) || Le(b, a)
    ensures Le(a, b) && Le(b, a) ==> a == b
  {
    if a != [] && b != [] && a[0] == b[0] {
      LeTotal(a[1..], b[1..]);
      assert a == [a[0]] + a[1..] && b == [b[0]] + b[1..];
    }
  }

  lemma {:induction false} LeTransitive(a: Str, b: Str, c: Str)
    requires Le(a, b) && Le(b, c)
    ensures Le(a, c)
  {
    if a != [] && b != [] && a[0] == b[0] == c[0] {
      LeTransitive(a[1..], b[1..], c[1..]);
    }
  }

  predicate IsLeast(k: Str, keys: set<Str>) {
    k in keys && forall j :: j in keys ==> Le(k, j)
  }

  lemma {:induction false} LeastExists(keys: set<Str>) returns (k: Str)
    requires keys != {}
    ensures IsLeast(k, keys)
  {
    k :| k in keys;
    var rest := keys - {k};
    LeTotal(k, k);
    if rest == {} {
      assert keys == {k};
    } else {
      var x := k;
      var best := LeastExists(rest);
      LeTotal(x, best);
      k := if Le(x, best) then x else best;
      forall j | j in keys ensures Le(k, j) {
        if j != x && k == x { LeTransitive(x, best, j); }
      }
    }
  }

  lemma LeastUnique(a: Str, b: Str, keys: set<Str>)
    requires IsLeast(a, keys) && IsLeast(b, keys)
    ensures a == b
  {
    LeTotal(a, b);
  }

  /** The key a std::map iteration visits first. */
  function Least(keys: set<Str>): (k: Str)
    requires keys != {}
    ensures k in keys
  {
    assert exists k :: IsLeast(k, keys) by { var k := LeastExists(keys); }
    assert forall a, b :: IsLeast(a, keys) && IsLeast(b, keys) ==> a == b by {
      forall a, b | IsLeast(a, keys) && IsLeast(b, keys) ensures a == b { LeastUnique(a, b, keys); }
    }
    var k :| IsLeast(k, keys);
    k
  }

  predicate IsLeastId(k: Id, ids: set<Id>) {
    k in ids && forall j :: j in ids ==> k <= j
  }

  lemma {:induction false} LeastIdExists(ids: set<Id>) returns (k: Id)
    requires ids != {}
    ensures IsLeastId(k, ids)
  {
    k :| k in ids;
    var rest := ids - {k};
    if rest == {} {
      assert ids == {k};
    } else {
      var best := LeastIdExists(rest);
      forall j | j in ids ensures (if k <= best then k else best) <= j {
        assert j == k || j in rest;
      }
      k := if k <= best then k else best;
    }
  }

  function LeastId(ids: set<Id>): (k: Id)
    requires ids != {}
    ensures k in ids
  {
    assert exists k :: IsLeastId(k, ids) by { var k := LeastIdExists(ids); }
    var k :| IsLeastId(k, ids);
    k
  }

  lemma MergeStep<K, V>(a: map<K, V>, b: map<K, V>, k: K)
    requires k in b
    ensures a[k := b[k]] + (b - {k}) == a + b
  {
  }

  lemma MergeEmpty<K, V>(b: map<K, V>)
    ensures map[] + b == b
  {
  }

  lemma ConcatCons<T>(s: seq<T>, x: T, t: seq<T>)
    ensures s + ([x] + t) == (s + [x]) + t
  {
  }

  lemma Assoc<T>(a: seq<T>, b: seq<T>, c: seq<T>)
    ensures (a + b) + c == a + (b + c)
  {
  }
}
