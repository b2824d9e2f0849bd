/** src/repositories/reviews/postgres.go: the reviews adapter, which loads
    moving.reviews once and then answers from memory. */
module ReviewsRepo {
  import opened Wrappers
  import opened Errors
  import opened GoTime
  import opened Store

  datatype Review = Review(
    id: nat,
    rate: int,
    text: string,
    name: string,
    photoURL: string,
    url: string,
    createdAt: Time,
    updatedAt: Time)

  /** The rows of a scan that had no failure. */
  function ScannedRows(scans: seq<Scan<Review>>): (rs: seq<Review>)
    requires forall i :: 0 <= i < |scans| ==> scans[i].Scanned?
    ensures |rs| == |scans|
    ensures forall i :: 0 <= i < |rs| ==> rs[i] == scans[i].row
  {
    if |scans| == 0 then []
    else ScannedRows(scans[..|scans| - 1]) + [scans[|scans| - 1].row]
  }

  /** What one load of the table yields: the query's error, the first scan
      error, the iteration error, NotFound for an empty table, or every row
      in the order the store returned them. */
  function Loaded(q: Query<Review>): (r: Result<seq<Review>>)
    ensures r.Ok? ==> q.Queried? && |r.value| > 0 && |r.value| == |q.rows.scans|
  {
    if q.QueryFailed? then Err(Wrapped("failed to query reviews | ", q.err))
    else if FirstScanError(q.rows.scans).Some? then
      Err(Wrapped("failed scan review | ", FirstScanError(q.rows.scans).value))
    else if q.rows.err.Some? then Err(Wrapped("failed get all reviews | ", q.rows.err.value))
    else if |q.rows.scans| == 0 then Err(Sentinel(ReviewsRepoNotFound))
    else Ok(ScannedRows(q.rows.scans))
  }

  /** The select orders by id. */
  predicate AscendingIds(rs: seq<Review>) {
    forall i, j :: 0 <= i < j < |rs| ==> rs[i].id < rs[j].id
  }

  /** A successful load holds exactly the scanned rows, so rows returned in
      id order stay in id order; an empty table is NotFound and nothing else. */
  lemma LoadedRows(q: Query<Review>)
    ensures Loaded(q).Ok? ==> forall i :: 0 <= i < |Loaded(q).value| ==> Loaded(q).value[i] == q.rows.scans[i].row
    ensures Loaded(q).Ok? && AscendingIds(ScannedRows(q.rows.scans)) ==> AscendingIds(Loaded(q).value)
    ensures Loaded(q) == Err(Sentinel(ReviewsRepoNotFound)) <==>
      q.Queried? && q.rows == Rows([], None)
  {
  }

  class Postgres {
    /** p.reviews: nil until a load succeeds, then the loaded list. */
    var cache: Option<seq<Review>>
    /** How many times the table was queried (the model's observer). */
    ghost var queries: nat

    /** The cache is only ever set to a non-empty list. */
    ghost predicate Valid()
      reads this
    {
      cache.Some? ==> |cache.value| > 0
    }

    /** NewPostgres */
    constructor ()
      ensures Valid() && cache == None && queries == 0
    {
      cache := None;
      queries := 0;
    }

    /** The query and the loop over its rows. */
    static method Load(q: Query<Review>) returns (r: Result<seq<Review>>)
      ensures r == Loaded(q)
    {
      if q.QueryFailed? {
        return Err(Wrapped("failed to query reviews | ", q.err));
      }
      var scans := q.rows.scans;
      var reviews: seq<Review> := [];
      var i := 0;
      while i < |scans|
        invariant 0 <= i <= |scans|
        invariant forall k :: 0 <= k < i ==> scans[k].Scanned?
        invariant reviews == ScannedRows(scans[..i])
      {
        match scans[i]
        case ScanFailed(e) =>
          FirstScanErrorAt(scans, i);
          return Err(Wrapped("failed scan review | ", e));
        case Scanned(review) =>
          assert scans[..i + 1][..i] == scans[..i];
          reviews := reviews + [review];
        i := i + 1;
      }
      assert scans[..i] == scans;
      if q.rows.err.Some? {
        return Err(Wrapped("failed get all reviews | ", q.rows.err.value));
      }
      if |reviews| == 0 {
        return Err(Sentinel(ReviewsRepoNotFound));
      }
      return Ok(reviews);
    }

    /** Reviews: a cached list is returned without touching the table;
        otherwise the table is loaded (q is what it answers) and a
        successful load is cached. A failed load leaves the cache empty, so
        the next call queries again. */
    method Reviews(q: Query<Review>) returns (r: Result<seq<Review>>)
      requires Valid()
      modifies this
      ensures Valid()
      ensures old(cache).Some? ==>
        r == Ok(old(cache).value) && cache == old(cache) && queries == old(queries)
      ensures old(cache).None? ==>
        r == Loaded(q) && queries == old(queries) + 1
        && cache == (if r.Ok? then Some(r.value) else None)
    {
      if cache.Some? {
        return Ok(cache.value);
      }
      queries := queries + 1;
      r := Load(q);
      if r.Ok? {
        cache := Some(r.value);
      }
    }
  }
}
