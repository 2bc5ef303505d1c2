/** CPU id sets, and the strictly ascending slices that represent them. */
module CpuSets {
  function Elems<T>(s: seq<T>): set<T> {
    set x | x in s
  }

  ghost predicate StrictlyAscending(s: seq<int>) {
    forall p, q :: 0 <= p < q < |s| ==> s[p] < s[q]
  }

  lemma Member<T>(s: set<T>) returns (y: T)
    requires s != {}
    ensures y in s
  {
    y :| y in s;
  }

  ghost predicate IsLeast(m: int, s: set<int>) {
    m in s && forall x :: x in s ==> m <= x
  }

  lemma {:induction false} LeastExists(s: set<int>)
    requires s != {}
    ensures exists m :: IsLeast(m, s)
  {
    var y := Member(s);
    var rest := s - {y};
    if rest == {} {
      assert s == {y};
      assert IsLeast(y, s);
    } else {
      LeastExists(rest);
      var m :| IsLeast(m, rest);
      assert forall x :: x in s ==> x == y || x in rest;
      assert IsLeast(if y < m then y else m, s);
    }
  }

  ghost predicate Enumerates(r: seq<int>, s: set<int>) {
    StrictlyAscending(r) && Elems(r) == s && |r| == |s|
  }

  lemma {:induction false} EnumerationExists(s: set<int>)
    ensures exists r :: Enumerates(r, s)
  {
    if s == {} {
      assert Enumerates([], s);
    } else {
      LeastExists(s);
      var m :| IsLeast(m, s);
      EnumerationExists(s - {m});
      var rest :| Enumerates(rest, s - {m});
      var r := [m] + rest;
      forall p, q | 0 <= p < q < |r| ensures r[p] < r[q] {
        assert rest[q - 1] in Elems(rest);
      }
      assert forall x :: x in r <==> x == m || x in Elems(rest);
      assert Elems(r) == s;
      assert Enumerates(r, s);
    }
  }

  /** The one strictly ascending enumeration of a finite set of CPU ids. */
  ghost function Ascending(s: set<int>): (r: seq<int>)
    ensures Enumerates(r, s)
  {
    EnumerationExists(s);
    var r :| Enumerates(r, s);
    r
  }

  lemma {:induction false} AscendingUnique(a: seq<int>, b: seq<int>)
    requires StrictlyAscending(a) && StrictlyAscending(b) && Elems(a) == Elems(b)
    ensures a == b
  {
    assert a != [] ==> a[0] in Elems(b);
    assert b != [] ==> b[0] in Elems(a);
    if a != [] && b != [] {
      assert a[0] in Elems(b);
      assert b[0] in Elems(a);
      assert a[0] == b[0];
      forall x ensures x in Elems(a[1..]) <==> x in Elems(b[1..]) {
        assert x in Elems(a[1..]) <==> x in Elems(a) && x != a[0] by {
          if x in Elems(a) && x != a[0] {
            var k :| 0 <= k < |a| && a[k] == x;
            assert a[1..][k - 1] == x;
          }
        }
        assert x in Elems(b[1..]) <==> x in Elems(b) && x != b[0] by {
          if x in Elems(b) && x != b[0] {
            var k :| 0 <= k < |b| && b[k] == x;
            assert b[1..][k - 1] == x;
          }
        }
      }
      AscendingUnique(a[1..], b[1..]);
      assert a == [a[0]] + a[1..] && b == [b[0]] + b[1..];
    }
  }
}
