/**
 * What the HTTP routers share: an endpoint's outcome, the authenticated
 * caller, and the `.offset(skip).limit(limit)` paging the list endpoints
 * apply to their queries.
 */
module ApiCommon {
  /** An endpoint's outcome: an `HTTPException` with its status and detail, or the body it returns. */
  datatype Http<T> = Rejected(status: int, detail: string) | Ok(body: T)

  /** `UserRole` */
  datatype Role = Admin | Member

  /** The authenticated caller. */
  datatype Caller = Caller(id: int, role: Role)

  /** Where a page starts: a negative offset counts as 0, and an offset past the end gives the end. */
  function PageStart(n: nat, skip: int): (lo: nat)
    ensures lo <= n
    ensures 0 <= skip <= n ==> lo == skip
  {
    if skip <= 0 then 0 else if skip >= n then n else skip
  }

  /**
   * `.offset(skip).limit(limit)` with SQLite's reading: a negative offset is
   * 0 and a negative limit means no limit.
   */
  function Page<T>(xs: seq<T>, skip: int, limit: int): (r: seq<T>)
    ensures PageStart(|xs|, skip) + |r| <= |xs|
    ensures r == xs[PageStart(|xs|, skip)..PageStart(|xs|, skip) + |r|]
    ensures limit < 0 ==> r == xs[PageStart(|xs|, skip)..]
    ensures limit >= 0 ==> |r| == if PageStart(|xs|, skip) + limit <= |xs| then limit else |xs| - PageStart(|xs|, skip)
    ensures skip <= 0 && (limit < 0 || limit >= |xs|) ==> r == xs
  {
    var lo := PageStart(|xs|, skip);
    var hi := if limit < 0 || lo + limit >= |xs| then |xs| else lo + limit;
    xs[lo..hi]
  }

  /** Consecutive pages tile the rows: the page at `skip` of size `limit`, then everything after it. */
  lemma {:induction false} PagesTile<T>(xs: seq<T>, skip: nat, limit: nat)
    ensures Page(xs, skip, limit) + Page(xs, skip + limit, -1) == Page(xs, skip, -1)
  {
    var lo := PageStart(|xs|, skip);
    var mid := PageStart(|xs|, skip + limit);
    assert mid == if lo + limit <= |xs| then lo + limit else |xs|;
    assert xs[lo..mid] + xs[mid..] == xs[lo..];
  }
}
