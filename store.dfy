/** The relational store as the adapters see it through the driver: what a
    query returned, row by row. The database engine itself is not modelled;
    its answers are inputs of the adapters. */
module Store {
  import opened Wrappers
  import opened Errors

  /** One rows.Next() step: the row's columns, or the error rows.Scan gave. */
  datatype Scan<+T> = Scanned(row: T) | ScanFailed(err: Error)

  /** The rows a query produced, then the error rows.Err() reports
      (an error ends the iteration). */
  datatype Rows<+T> = Rows(scans: seq<Scan<T>>, err: Option<Error>)

  /** pool.Query: either the query failed or it produced rows. */
  datatype Query<+T> = QueryFailed(err: Error) | Queried(rows: Rows<T>)

  /** The error of the first row that failed to scan, if any. */
  function FirstScanError<T>(scans: seq<Scan<T>>): (r: Option<Error>)
    ensures r.None? <==> forall i :: 0 <= i < |scans| ==> scans[i].Scanned?
    ensures r.Some? ==> exists i :: 0 <= i < |scans| && scans[i] == ScanFailed(r.value)
                          && forall j :: 0 <= j < i ==> scans[j].Scanned?
  {
    if |scans| == 0 then None
    else if scans[0].ScanFailed? then Some(scans[0].err)
    else
      var r := FirstScanError(scans[1..]);
      assert forall i :: 1 <= i < |scans| ==> scans[i] == scans[1..][i - 1];
      r
  }

  /** When every row before position i scanned and row i did not, the
      first scan error is row i's. */
  lemma {:induction false} FirstScanErrorAt<T>(scans: seq<Scan<T>>, i: nat)
    requires i < |scans| && scans[i].ScanFailed?
    requires forall k :: 0 <= k < i ==> scans[k].Scanned?
    ensures FirstScanError(scans) == Some(scans[i].err)
  {
    if i > 0 {
      assert scans[1..][i - 1] == scans[i];
      FirstScanErrorAt(scans[1..], i - 1);
    }
  }
}

/** src/infra/utils/utils.go */
module Utils {
  import opened Wrappers
  import opened GoTime

  /** PtrIfNotZero: nil for the type's zero value, a pointer to the value
      otherwise. Go finds the zero value from the type; here it is passed. */
  function PtrIfNotZero<T(==)>(v: T, zero: T): (r: Option<T>)
    ensures r.None? <==> v == zero
    ensures r.Some? ==> r.value == v
  {
    if v == zero then None else Some(v)
  }

  /** The zero values of the types it is applied to. */
  function PtrIfNotZeroString(s: string): (r: Option<string>)
    ensures r.None? <==> s == ""
    ensures r.Some? ==> r.value == s
  {
    PtrIfNotZero(s, "")
  }

  function PtrIfNotZeroCode(c: int): (r: Option<int>)
    ensures r.None? <==> c == 0
    ensures r.Some? ==> r.value == c
  {
    PtrIfNotZero(c, 0)
  }

  function PtrIfNotZeroTime(t: Time): (r: Option<Time>)
    ensures r.None? <==> IsZero(t)
    ensures r.Some? ==> r.value == t
  {
    PtrIfNotZero(t, ZeroTime)
  }

  /** Applying the conversion to what it returned (read back with the zero
      value for nil) changes nothing. */
  lemma PtrIfNotZeroIdempotent<T>(v: T, zero: T)
    ensures PtrIfNotZero(PtrIfNotZero(v, zero).GetOr(zero), zero) == PtrIfNotZero(v, zero)
  {
  }
}
