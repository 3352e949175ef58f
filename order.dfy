/** The order in which the cross visits traits: Python compares strings
    lexicographically by code point, a proper prefix coming first, and
    `sorted` of a set lists its elements in that order. */
module Order {

  /** a < b on strings. */
  predicate Below(a: string, b: string)
    decreases |a|
  {
    if |a| == 0 then |b| > 0
    else if |b| == 0 then false
    else if a[0] != b[0] then a[0] < b[0]
    else Below(a[1..], b[1..])
  }

  lemma {:induction false} BelowIrreflexive(a: string)
    ensures !Below(a, a)
    decreases |a|
  {
    if |a| > 0 {
      BelowIrreflexive(a[1..]);
    }
  }

  lemma {:induction false} BelowTransitive(a: string, b: string, c: string)
    requires Below(a, b) && Below(b, c)
    ensures Below(a, c)
    decreases |a|
  {
    if |a| > 0 && a[0] == b[0] && b[0] == c[0] {
      BelowTransitive(a[1..], b[1..], c[1..]);
    }
  }

  lemma {:induction false} BelowTotal(a: string, b: string)
    requires a != b
    ensures Below(a, b) || Below(b, a)
    decreases |a|
  {
    if |a| > 0 && |b| > 0 && a[0] == b[0] {
      assert a == [a[0]] + a[1..] && b == [b[0]] + b[1..];
      BelowTotal(a[1..], b[1..]);
    }
  }

  /** `k` comes before every other element of `s`. */
  predicate IsLeast(k: string, s: set<string>) {
    k in s && forall y :: y in s && y != k ==> Below(k, y)
  }

  lemma {:induction false} LeastExists(s: set<string>)
    requires s != {}
    ensures exists k :: IsLeast(k, s)
    decreases |s|
  {
    var x :| x in s;
    if s != {x} {
      LeastExists(s - {x});
      var y :| IsLeast(y, s - {x});
      BelowTotal(x, y);
      if Below(x, y) {
        forall z | z in s && z != x ensures Below(x, z) {
          if z != y {
            BelowTransitive(x, y, z);
          }
        }
        assert IsLeast(x, s);
      } else {
        assert IsLeast(y, s);
      }
    } else {
      assert IsLeast(x, s);
    }
  }

  lemma LeastUnique(s: set<string>)
    ensures forall k1, k2 :: IsLeast(k1, s) && IsLeast(k2, s) ==> k1 == k2
  {
    forall k1, k2 | IsLeast(k1, s) && IsLeast(k2, s) ensures k1 == k2 {
      if k1 != k2 {
        BelowTransitive(k1, k2, k1);
        BelowIrreflexive(k1);
      }
    }
  }

  /** The first element `sorted` yields. */
  function Least(s: set<string>): (k: string)
    requires s != {}
    ensures IsLeast(k, s)
  {
    LeastExists(s);
    LeastUnique(s);
    var k :| IsLeast(k, s);
    k
  }

  /** Strictly increasing. */
  predicate Ascending(ks: seq<string>) {
    forall i, j :: 0 <= i < j < |ks| ==> Below(ks[i], ks[j])
  }

  /** sorted(s): the elements of `s`, least first. */
  function SortKeys(s: set<string>): (ks: seq<string>)
    ensures forall x :: x in ks <==> x in s
    ensures |ks| == |s|
    decreases |s|
  {
    if s == {} then []
    else
      var k := Least(s);
      var rest := SortKeys(s - {k});
      assert forall j :: 0 <= j < |rest| ==> rest[j] in s - {k};
      [k] + rest
  }

  /** sorted lists the elements in increasing order. */
  lemma {:induction false} SortKeysAscending(s: set<string>)
    ensures Ascending(SortKeys(s))
    decreases |s|
  {
    if s != {} {
      var k := Least(s);
      var rest := SortKeys(s - {k});
      SortKeysAscending(s - {k});
      var ks := [k] + rest;
      assert SortKeys(s) == ks;
      forall i, j | 0 <= i < j < |ks| ensures Below(ks[i], ks[j]) {
        if i == 0 {
          assert ks[j] == rest[j - 1];
          assert rest[j - 1] in s - {k};
        } else {
          assert ks[i] == rest[i - 1] && ks[j] == rest[j - 1];
        }
      }
    }
  }

  /** An ascending sequence has no repeated element. */
  lemma AscendingDistinct(ks: seq<string>, i: int, j: int)
    requires Ascending(ks) && 0 <= i < |ks| && 0 <= j < |ks| && i != j
    ensures ks[i] != ks[j]
  {
    if i < j {
      BelowIrreflexive(ks[i]);
    } else {
      BelowIrreflexive(ks[j]);
    }
  }

  /** The head of an ascending listing of `s` is the least element, and its
      tail lists the rest. */
  lemma AscendingHead(s: set<string>, ks: seq<string>)
    requires Ascending(ks) && |ks| > 0 && forall x :: x in ks <==> x in s
    ensures IsLeast(ks[0], s)
    ensures Ascending(ks[1..]) && forall x :: x in ks[1..] <==> x in s - {ks[0]}
  {
    forall y | y in s && y != ks[0] ensures Below(ks[0], y) {
      var j :| 0 <= j < |ks| && ks[j] == y;
    }
    forall x | x in ks[1..] ensures x != ks[0] {
      var j :| 1 <= j < |ks| && ks[j] == x;
      AscendingDistinct(ks, 0, j);
    }
    forall x | x in s - {ks[0]} ensures x in ks[1..] {
      var j :| 0 <= j < |ks| && ks[j] == x;
      assert j != 0;
      assert ks[1..][j - 1] == x;
    }
  }

  /** Sorting depends on the set alone: the listing `sorted` returns is the
      only ascending sequence with these elements, so no order in which the
      keys were gathered can change it. */
  lemma {:induction false} SortedIsUnique(s: set<string>, ks: seq<string>)
    requires Ascending(ks) && forall x :: x in ks <==> x in s
    ensures ks == SortKeys(s)
    decreases |ks|
  {
    if ks == [] {
      assert s == {};
    } else {
      AscendingHead(s, ks);
      LeastUnique(s);
      SortKeysAscending(s);
      SortedIsUnique(s - {ks[0]}, ks[1..]);
      assert ks == [ks[0]] + ks[1..];
    }
  }
}
