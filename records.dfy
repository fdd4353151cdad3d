/**
 * The records getResults collects, and its last step,
 * sorted(results, key=itemgetter("Field", "Aperatures")): a stable sort,
 * ascending by open area and then by aperture count.
 */
module Records {

  datatype Option<T> = None | Some(value: T)

  /**
   * One accepted pattern. `height` is present only for the full sweep: the
   * fast sweep's record carries no "Height" key.
   */
  datatype Record = Record(
    lineLength: real,
    field: real,
    apertures: int,
    height: Option<real>,
    intervalX: real,
    intervalY: real,
    suppr: real,
    rowCounts: seq<int>)

  /**
   * The placeholder first entry of the results list. The Python dictionary
   * holds only "Line length", "Interval X" and "Field", all 0; the other
   * components here are never read.
   */
  const Sentinel := Record(0.0, 0.0, 0, None, 0.0, 0.0, 0.0, [])

  /** The sort key (Field, Aperatures), compared as a Python tuple. */
  predicate KeyLe(a: Record, b: Record) {
    a.field < b.field || (a.field == b.field && a.apertures <= b.apertures)
  }

  predicate Sorted(s: seq<Record>) {
    forall i, j :: 0 <= i < j < |s| ==> KeyLe(s[i], s[j])
  }

  /** Places x after every record of t whose key does not exceed x's. */
  function Insert(t: seq<Record>, x: Record): seq<Record>
  {
    if t == [] || KeyLe(t[|t| - 1], x) then t + [x]
    else Insert(t[..|t| - 1], x) + [t[|t| - 1]]
  }

  /** sorted(s, key=itemgetter("Field", "Aperatures")), as an insertion sort. */
  function SortByKey(s: seq<Record>): seq<Record>
  {
    if s == [] then [] else Insert(SortByKey(s[..|s| - 1]), s[|s| - 1])
  }

  /** The records of s whose key is (f, n), in their order in s. */
  function WithKey(s: seq<Record>, f: real, n: int): seq<Record>
  {
    if s == [] then []
    else WithKey(s[..|s| - 1], f, n) + Single(s[|s| - 1], f, n)
  }

  function Single(x: Record, f: real, n: int): seq<Record>
  {
    if x.field == f && x.apertures == n then [x] else []
  }

  lemma {:induction false} InsertPermutes(t: seq<Record>, x: Record)
    ensures multiset(Insert(t, x)) == multiset(t) + multiset{x}
  {
    if t == [] || KeyLe(t[|t| - 1], x) {
    } else {
      var u := t[..|t| - 1];
      InsertPermutes(u, x);
      assert t == u + [t[|t| - 1]];
    }
  }

  lemma {:induction false} InsertSorted(t: seq<Record>, x: Record)
    requires Sorted(t)
    ensures Sorted(Insert(t, x))
  {
    if t == [] || KeyLe(t[|t| - 1], x) {
    } else {
      var u, last := t[..|t| - 1], t[|t| - 1];
      var v := Insert(u, x);
      InsertSorted(u, x);
      InsertPermutes(u, x);
      forall i | 0 <= i < |v|
        ensures KeyLe(v[i], last)
      {
        assert v[i] in multiset(v);
        if v[i] != x {
          assert v[i] in multiset(u);
          var k :| 0 <= k < |u| && u[k] == v[i];
          assert t[k] == v[i];
        }
      }
    }
  }

  /** The output is ordered by (Field, Aperatures) and holds exactly the input records. */
  lemma {:induction false} SortByKeySorts(s: seq<Record>)
    ensures Sorted(SortByKey(s))
    ensures multiset(SortByKey(s)) == multiset(s)
  {
    if s != [] {
      var u := s[..|s| - 1];
      SortByKeySorts(u);
      InsertSorted(SortByKey(u), s[|s| - 1]);
      InsertPermutes(SortByKey(u), s[|s| - 1]);
      assert s == u + [s[|s| - 1]];
    }
  }

  lemma {:induction false} WithKeyAppend(a: seq<Record>, b: seq<Record>, f: real, n: int)
    ensures WithKey(a + b, f, n) == WithKey(a, f, n) + WithKey(b, f, n)
  {
    if b == [] {
      assert a + b == a;
    } else {
      var c := b[..|b| - 1];
      WithKeyAppend(a, c, f, n);
      assert (a + b)[..|a + b| - 1] == a + c;
    }
  }

  lemma {:induction false} InsertStable(t: seq<Record>, x: Record, f: real, n: int)
    requires Sorted(t)
    ensures WithKey(Insert(t, x), f, n) == WithKey(t, f, n) + Single(x, f, n)
  {
    if t == [] || KeyLe(t[|t| - 1], x) {
      WithKeyAppend(t, [x], f, n);
      assert WithKey([x], f, n) == Single(x, f, n) by {
        assert [x][..0] == [];
      }
    } else {
      var u, last := t[..|t| - 1], t[|t| - 1];
      var v := Insert(u, x);
      assert Insert(t, x) == v + [last];
      assert WithKey(t, f, n) == WithKey(u, f, n) + Single(last, f, n);
      InsertStable(u, x, f, n);
      WithKeyAppend(v, [last], f, n);
      assert WithKey([last], f, n) == Single(last, f, n) by {
        assert [last][..0] == [];
      }
      assert WithKey(Insert(t, x), f, n) == WithKey(u, f, n) + Single(x, f, n) + Single(last, f, n);
      if Single(x, f, n) == [] {
        assert WithKey(u, f, n) + Single(x, f, n) == WithKey(u, f, n);
      } else {
        assert Single(last, f, n) == [];
      }
    }
  }

  /**
   * Python's sort is stable: records with equal (Field, Aperatures) keep
   * the order in which the sweep appended them.
   */
  lemma {:induction false} SortByKeyStable(s: seq<Record>, f: real, n: int)
    ensures WithKey(SortByKey(s), f, n) == WithKey(s, f, n)
  {
    if s != [] {
      var u := s[..|s| - 1];
      SortByKeyStable(u, f, n);
      SortByKeySorts(u);
      InsertStable(SortByKey(u), s[|s| - 1], f, n);
    }
  }
}
