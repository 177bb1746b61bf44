/**
 The order in which the aggregator lists dates. Dates are kept as strings, and
 grouping sorts the distinct keys ascending; for strings that is lexicographic
 order on code points.
 */
module DateOrder {

  /** `a` sorts strictly before `b`: lexicographic order on characters, a
      proper prefix before any extension of it. */
  predicate Below(a: string, b: string) {
    if a == [] then b != []
    else if b == [] then false
    else a[0] < b[0] || (a[0] == b[0] && Below(a[1..], b[1..]))
  }

  lemma {:induction false} BelowIrreflexive(a: string)
    ensures !Below(a, a)
  {
    if a != [] {
      BelowIrreflexive(a[1..]);
    }
  }

  lemma {:induction false} BelowTransitive(a: string, b: string, c: string)
    requires Below(a, b) && Below(b, c)
    ensures Below(a, c)
  {
    if a != [] && a[0] == b[0] && b[0] == c[0] {
      BelowTransitive(a[1..], b[1..], c[1..]);
    }
  }

  /** Any two distinct dates are ordered one way or the other. */
  lemma {:induction false} BelowTotal(a: string, b: string)
    requires a != b
    ensures Below(a, b) || Below(b, a)
  {
    if a != [] && b != [] && a[0] == b[0] {
      assert a == [a[0]] + a[1..] && b == [b[0]] + b[1..];
      BelowTotal(a[1..], b[1..]);
    }
  }

  /** Strictly ascending, hence free of repeats. */
  predicate Ascending(ds: seq<string>) {
    forall i, j :: 0 <= i < j < |ds| ==> Below(ds[i], ds[j])
  }

  lemma AscendingDistinct(ds: seq<string>)
    requires Ascending(ds)
    ensures forall i, j :: 0 <= i < j < |ds| ==> ds[i] != ds[j]
  {
    forall i, j | 0 <= i < j < |ds|
      ensures ds[i] != ds[j]
    {
      BelowIrreflexive(ds[i]);
    }
  }

  /** `d` added at its place in the ascending list `ds`, unless already there. */
  function Insert(d: string, ds: seq<string>): seq<string> {
    if ds == [] then [d]
    else if d == ds[0] then ds
    else if Below(d, ds[0]) then [d] + ds
    else [ds[0]] + Insert(d, ds[1..])
  }

  lemma {:induction false} InsertAscending(d: string, ds: seq<string>)
    requires Ascending(ds)
    ensures Ascending(Insert(d, ds))
    ensures forall x :: x in Insert(d, ds) <==> x == d || x in ds
  {
    if ds == [] {
    } else if d == ds[0] {
    } else if Below(d, ds[0]) {
      var r := [d] + ds;
      forall i, j | 0 <= i < j < |r|
        ensures Below(r[i], r[j])
      {
        if i == 0 && j > 1 {
          BelowTransitive(d, ds[0], ds[j - 1]);
        }
      }
    } else {
      var rest := ds[1..];
      assert Ascending(rest);
      InsertAscending(d, rest);
      BelowTotal(d, ds[0]);
      var r := [ds[0]] + Insert(d, rest);
      assert ds == [ds[0]] + rest;
      forall i, j | 0 <= i < j < |r|
        ensures Below(r[i], r[j])
      {
        if i == 0 {
          assert r[j] in Insert(d, rest);
          if r[j] != d {
            var k :| 0 <= k < |rest| && rest[k] == r[j];
            assert ds[k + 1] == rest[k];
          }
        }
      }
    }
  }
}
