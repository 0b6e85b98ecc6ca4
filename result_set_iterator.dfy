/**
 * The synchronous result-page cursor: offset-based pagination over the
 * matches of a query, with an optional cap on the number of records returned.
 * The store's answer to a query is an abstract sequence of records; a page
 * request at 1-based offset `start` with page length `len` yields the records
 * at offsets start .. start + len - 1 that exist, and reports another page when
 * records remain after them.
 */
module ResultSet {
  import opened Optional
  import ExportListening

  function Clamp(x: int, lo: int, hi: int): (r: int)
    requires lo <= hi
    ensures lo <= r <= hi
    ensures lo <= x <= hi ==> r == x
  {
    if x < lo then lo else if x > hi then hi else x
  }

  /** The records a page request at `start` with length `len` returns, in store order. */
  function PageAt<D>(store: seq<D>, start: int, len: int): (page: seq<D>)
    ensures |page| <= (if len > 0 then len else 0)
    ensures 1 <= start <= |store| + 1 && len >= 0 ==>
              page == store[start - 1 .. Clamp(start - 1 + len, start - 1, |store|)]
    ensures start > |store| ==> page == []
  {
    var lo := Clamp(start - 1, 0, |store|);
    store[lo .. Clamp(start - 1 + len, lo, |store|)]
  }

  /** `DocumentPage.hasNextPage()` of the page requested at `start`. */
  predicate HasNextPage<D>(store: seq<D>, start: int, len: int) {
    start - 1 + len < |store|
  }

  function Min(a: int, b: int): int {
    if a < b then a else b
  }

  function Max(a: int, b: int): int {
    if a < b then b else a
  }

  /**
   * Whether the page loop hits the cap check with the counter already at the
   * cap: it does when a positive cap leaves fewer than `avail` records to take.
   */
  predicate Breaks(avail: nat, maxResults: int, count: int) {
    maxResults > 0 && Max(0, maxResults - count) < avail
  }

  /** How many of the `avail` records of a page the loop takes. */
  function Taken(avail: nat, maxResults: int, count: int): (k: nat)
    ensures k <= avail
    ensures maxResults > 0 && count <= maxResults ==> k <= maxResults - count
    ensures maxResults <= 0 ==> k == avail
  {
    if maxResults > 0 then Min(avail, Max(0, maxResults - count)) else avail
  }

  /** The counter after the page loop: one increment per record taken, plus one for the check that breaks. */
  function CountAfter(avail: nat, maxResults: int, count: int): int {
    if maxResults <= 0 then count
    else count + Taken(avail, maxResults, count) + (if Breaks(avail, maxResults, count) then 1 else 0)
  }

  /**
   * The cursor's invariant, on values: everything returned so far is the
   * store's prefix of that length, either every record before `start`
   * (all pages so far were taken whole) or exactly `maxResults` records once
   * the cap has been reached; and with a positive cap the counter equals the
   * number returned until it passes the cap.
   */
  ghost predicate CursorInv<D>(store: seq<D>, pageLength: int, maxResults: int, start: int, count: int, returned: seq<D>) {
    && (maxResults <= 0 ==> count == 0)
    && (maxResults > 0 ==>
          (count == |returned| <= maxResults) || (count > maxResults && |returned| == maxResults))
    && (pageLength >= 1 ==>
          && start >= 1
          && |returned| <= |store| && returned == store[..|returned|]
          && (|returned| == Min(start - 1, |store|)
              || (maxResults > 0 && |returned| == maxResults && count >= maxResults)))
  }

  /**
   * How the page loop ends: either it took every available record, or the cap
   * check broke out of it with the counter at the cap; either way it took
   * Taken records and left the counter at CountAfter.
   */
  lemma PageLoopCount(avail: nat, maxResults: int, count0: int, i: nat, broke: bool)
    requires i <= avail
    requires maxResults > 0 ==> i == 0 || count0 + i <= maxResults
    requires broke ==> maxResults > 0 && count0 + i >= maxResults && i < avail
    requires !broke ==> i == avail
    ensures i == Taken(avail, maxResults, count0)
    ensures CountAfter(avail, maxResults, count0)
            == if maxResults > 0 then count0 + i + (if broke then 1 else 0) else count0
  {
  }

  /** One `next()` keeps the invariant. */
  lemma NextKeepsInv<D>(store: seq<D>, pageLength: int, maxResults: int, start: int, count: int, returned: seq<D>)
    requires CursorInv(store, pageLength, maxResults, start, count, returned)
    ensures var page := PageAt(store, start, pageLength);
      var k := Taken(|page|, maxResults, count);
      CursorInv(store, pageLength, maxResults, start + pageLength,
                CountAfter(|page|, maxResults, count), returned + page[..k])
  {
    var page := PageAt(store, start, pageLength);
    var k := Taken(|page|, maxResults, count);
    var r := returned + page[..k];
    if pageLength >= 1 {
      if |returned| == Min(start - 1, |store|) && start - 1 <= |store| {
        assert page == store[start - 1 .. Clamp(start - 1 + pageLength, start - 1, |store|)];
        assert r == store[..|returned| + k];
      } else {
        assert k == 0;
        assert r == returned;
      }
    }
  }

  /** The state of the page a cursor fetched last: whether another page follows, and whether it was closed. */
  datatype PageHandle = PageHandle(hasNextPage: bool, closed: bool)

  /**
   * The page loop of next(): takes the fetched records in order, at most
   * `fetchSize` of them, and with a positive cap increments the counter
   * before each record, breaking out when the counter was already at the cap.
   */
  method TakeRecords<D, R>(extract: D -> R, fetched: seq<D>, fetchSize: int, maxResults: int, count0: int)
    returns (page: seq<R>, count: int)
    requires |fetched| <= (if fetchSize > 0 then fetchSize else 0)
    ensures page == ExportListening.ExtractAll(extract, fetched[..Taken(|fetched|, maxResults, count0)])
    ensures count == CountAfter(|fetched|, maxResults, count0)
  {
    ghost var broke := false;
    count := count0;
    page := [];
    var i := 0;
    while i < fetchSize && i < |fetched|
      invariant 0 <= i <= |fetched|
      invariant !broke
      invariant page == ExportListening.ExtractAll(extract, fetched[..i])
      invariant maxResults > 0 ==> count == count0 + i && (i == 0 || count0 + i <= maxResults)
      invariant maxResults <= 0 ==> count == count0
    {
      if maxResults > 0 {
        var previous := count;
        count := count + 1;
        if previous >= maxResults {
          broke := true;
          break;
        }
      }
      ExportListening.ExtractAllSnoc(extract, fetched[..i], fetched[i]);
      assert fetched[..i + 1] == fetched[..i] + [fetched[i]];
      page := page + [extract(fetched[i])];
      i := i + 1;
    }
    PageLoopCount(|fetched|, maxResults, count0, i, broke);
  }

  /**
   * MarkLogicResultSetIterator over an abstract store; `extract` stands for
   * `MarkLogicRecordExtractor.extractRecord`.
   */
  class ResultSetIterator<D, R> {
    const store: seq<D>
    const extract: D -> R
    /** The document manager's page length. */
    const pageLength: int
    const maxResults: int
    var start: int
    var resultCount: int
    /** The last page fetched (`documents`), None before the first `next()`. */
    var documents: Option<PageHandle>
    /** The records returned by all `next()` calls so far, before extraction. */
    ghost var returned: seq<D>

    ghost predicate Valid()
      reads this
    {
      && (documents.None? ==> start == 1)
      && (documents.Some? ==>
            documents.value.closed
            && documents.value.hasNextPage == HasNextPage(store, start - pageLength, pageLength)
            && (pageLength >= 1 ==> start > pageLength))
      && CursorInv(store, pageLength, maxResults, start, resultCount, returned)
    }

    /**
     * The constructor: the page length is overridden only when one is given
     * (otherwise the document manager's default stays), and maxResults stays
     * 0 when none is given.
     */
    constructor (store: seq<D>, extract: D -> R, pageLength: Option<int>, defaultPageLength: int, maxResults: Option<int>)
      ensures Valid()
      ensures this.store == store && this.extract == extract
      ensures this.pageLength == (if pageLength.Some? then pageLength.value else defaultPageLength)
      ensures this.maxResults == (if maxResults.Some? then maxResults.value else 0)
      ensures start == 1 && resultCount == 0 && documents == None
      ensures returned == []
    {
      this.store := store;
      this.extract := extract;
      this.pageLength := if pageLength.Some? then pageLength.value else defaultPageLength;
      this.maxResults := if maxResults.Some? then maxResults.value else 0;
      start := 1;
      resultCount := 0;
      documents := None;
      returned := [];
    }

    /** hasNext(): no page fetched yet or the store reports another, and the cap is not reached. */
    function HasNext(): bool
      reads this
      requires Valid()
    {
      (start == 1 || documents.value.hasNextPage) && (maxResults == 0 || resultCount < maxResults)
    }

    /**
     * next(): fetches the page at the current offset, advances the offset by
     * the page length whatever the number of records returned, takes records
     * in store order until the page ends or the cap check breaks, and closes
     * the page on both paths.
     */
    method Next() returns (page: seq<R>)
      requires Valid()
      modifies this
      ensures Valid()
      ensures var fetched := PageAt(store, old(start), pageLength);
        && page == ExportListening.ExtractAll(extract, fetched[..Taken(|fetched|, maxResults, old(resultCount))])
        && resultCount == CountAfter(|fetched|, maxResults, old(resultCount))
        && returned == old(returned) + fetched[..Taken(|fetched|, maxResults, old(resultCount))]
      ensures |page| <= (if pageLength > 0 then pageLength else 0)
      ensures maxResults <= 0 ==> resultCount == old(resultCount)
      ensures start == old(start) + pageLength
      ensures documents == Some(PageHandle(HasNextPage(store, old(start), pageLength), true))
    {
      var fetchSize := pageLength;
      var at := start;
      start := start + fetchSize;
      var fetched := PageAt(store, at, fetchSize);
      documents := Some(PageHandle(HasNextPage(store, at, fetchSize), false));
      ghost var count0 := resultCount;
      page, resultCount := TakeRecords(extract, fetched, fetchSize, maxResults, resultCount);
      documents := Some(PageHandle(documents.value.hasNextPage, true));
      NextKeepsInv(store, pageLength, maxResults, at, count0, returned);
      returned := returned + fetched[..Taken(|fetched|, maxResults, count0)];
    }
  }

  /**
   * Draining the cursor: once at least one page was fetched and hasNext() is
   * false, the records returned are the store's first min(T, cap) records in
   * store order (all T of them when there is no cap).
   */
  lemma DrainedReturnsPrefix<D, R>(it: ResultSetIterator<D, R>)
    requires it.Valid() && it.pageLength >= 1 && it.maxResults >= 0
    requires it.documents.Some? && !it.HasNext()
    ensures |it.returned| == (if it.maxResults > 0 then Min(|it.store|, it.maxResults) else |it.store|)
    ensures it.returned == it.store[..|it.returned|]
  {
  }

  /**
   * The converse of DrainedReturnsPrefix: once a page was fetched, while
   * hasNext() holds some of the records the cursor will return are still
   * to come.
   */
  lemma HasNextWhileRecordsRemain<D, R>(it: ResultSetIterator<D, R>)
    requires it.Valid() && it.pageLength >= 1 && it.maxResults >= 0
    requires it.documents.Some? && it.HasNext()
    ensures |it.returned| < (if it.maxResults > 0 then Min(|it.store|, it.maxResults) else |it.store|)
  {
  }

  /** With a positive cap, the records returned over all `next()` calls never exceed it. */
  lemma CapBoundsReturned<D, R>(it: ResultSetIterator<D, R>)
    requires it.Valid() && it.maxResults > 0
    ensures |it.returned| <= it.maxResults
    ensures it.resultCount <= it.maxResults ==> it.resultCount == |it.returned|
  {
  }
}
