/** What the handlers do with the rows a query yields: keep the ones that scan,
    reverse a newest-first result, and what an `ORDER BY ... DESC LIMIT n` query
    returns from a chronological log. A row is `Some(v)` when `rows.Scan`
    succeeded with `v` and `None` when it returned an error. */
module Rows {
  import opened Wrappers

  /** The values of the rows that scanned, in row order. */
  function Scanned<T>(rows: seq<Option<T>>): (r: seq<T>)
    ensures |r| <= |rows|
  {
    if rows == [] then []
    else Scanned(rows[..|rows| - 1]) + Value(rows[|rows| - 1])
  }

  function Value<T>(row: Option<T>): seq<T>
  {
    if row.Some? then [row.value] else []
  }

  predicate AllScan<T>(rows: seq<Option<T>>)
  {
    forall i :: 0 <= i < |rows| ==> rows[i].Some?
  }

  /** The rows a query yields when every one of them scans. */
  function AllScanned<T>(xs: seq<T>): (r: seq<Option<T>>)
    ensures |r| == |xs| && AllScan(r)
    ensures forall i :: 0 <= i < |xs| ==> r[i] == Some(xs[i])
  {
    seq(|xs|, i requires 0 <= i < |xs| => Some(xs[i]))
  }

  function Reverse<T>(s: seq<T>): seq<T>
  {
    if s == [] then [] else [s[|s| - 1]] + Reverse(s[..|s| - 1])
  }

  /** `ORDER BY created_at DESC LIMIT limit` over a log kept oldest-first. */
  function LatestFirst<T>(log: seq<T>, limit: nat): (r: seq<T>)
    ensures |r| == if |log| < limit then |log| else limit
  {
    ReverseAt(log);
    var n := if |log| < limit then |log| else limit;
    Reverse(log)[..n]
  }

  lemma {:induction false} ReverseAt<T>(s: seq<T>)
    ensures |Reverse(s)| == |s|
    ensures forall k :: 0 <= k < |s| ==> Reverse(s)[k] == s[|s| - 1 - k]
  {
    if s != [] {
      ReverseAt(s[..|s| - 1]);
    }
  }

  /** Prepending to the front of a reversed sequence extends the original at its end. */
  lemma ReversePush<T>(s: seq<T>, x: T)
    ensures Reverse(s + [x]) == [x] + Reverse(s)
  {
    assert (s + [x])[..|s|] == s;
  }

  /** Scanning one more row keeps its value, if it scanned. */
  lemma ScannedStep<T>(rows: seq<Option<T>>, i: nat)
    requires i < |rows|
    ensures Scanned(rows[..i + 1]) == Scanned(rows[..i]) + Value(rows[i])
    ensures rows[i].None? ==> Scanned(rows[..i + 1]) == Scanned(rows[..i])
  {
    assert rows[..i + 1][..i] == rows[..i];
    assert Scanned(rows[..i]) + [] == Scanned(rows[..i]);
  }

  /** Scanning keeps a row's value exactly when the row scanned. */
  lemma {:induction false} ScannedMembers<T>(rows: seq<Option<T>>, x: T)
    ensures x in Scanned(rows) <==> Some(x) in rows
  {
    if rows != [] {
      var init := rows[..|rows| - 1];
      ScannedMembers(init, x);
      assert rows == init + [rows[|rows| - 1]];
    }
  }

  /** When every row scans, the result is the rows' values, one for one. */
  lemma {:induction false} ScannedWhenAllScan<T>(rows: seq<Option<T>>)
    requires AllScan(rows)
    ensures |Scanned(rows)| == |rows|
    ensures forall i :: 0 <= i < |rows| ==> Scanned(rows)[i] == rows[i].value
  {
    if rows != [] {
      ScannedWhenAllScan(rows[..|rows| - 1]);
    }
  }

  /** When every row scans, nothing is dropped. */
  lemma {:induction false} ScannedAll<T>(xs: seq<T>)
    ensures Scanned(AllScanned(xs)) == xs
  {
    if xs != [] {
      var init := xs[..|xs| - 1];
      ScannedAll(init);
      assert AllScanned(xs)[..|xs| - 1] == AllScanned(init);
    }
  }

  /** Scanning never reorders: if the scanned rows come in `before` order, so
      does the result (e.g. the `created_at ASC` order of a query). */
  lemma {:induction false} ScannedKeepsOrder<T>(rows: seq<Option<T>>, before: (T, T) -> bool)
    requires forall i, j :: 0 <= i < j < |rows| && rows[i].Some? && rows[j].Some? ==>
                              before(rows[i].value, rows[j].value)
    ensures forall i, j :: 0 <= i < j < |Scanned(rows)| ==> before(Scanned(rows)[i], Scanned(rows)[j])
  {
    if rows != [] {
      var n := |rows| - 1;
      var init := rows[..n];
      ScannedKeepsOrder(init, before);
      var s := Scanned(rows);
      var si := Scanned(init);
      forall i, j | 0 <= i < j < |s|
        ensures before(s[i], s[j])
      {
        if j >= |si| {
          assert rows[n].Some? && s[j] == rows[n].value;
          assert s[i] == si[i] && s[i] in si;
          ScannedMembers(init, s[i]);
          var k :| 0 <= k < n && init[k] == Some(s[i]);
          assert rows[k] == Some(s[i]);
        }
      }
    }
  }

  /** Reversing what an `ORDER BY ... DESC LIMIT n` query returns gives the
      newest `n` entries of the log, oldest first. */
  lemma LatestFirstReversed<T>(log: seq<T>, limit: nat)
    ensures Reverse(LatestFirst(log, limit)) ==
            log[|log| - (if |log| < limit then |log| else limit)..]
  {
    var r := LatestFirst(log, limit);
    ReverseAt(log);
    ReverseAt(r);
    var n := |r|;
    var tail := log[|log| - n..];
    assert |Reverse(r)| == |tail|;
    forall k | 0 <= k < n
      ensures Reverse(r)[k] == tail[k]
    {
      assert Reverse(r)[k] == r[n - 1 - k] == Reverse(log)[n - 1 - k];
    }
  }
}
