/**
 * The capped export listener: the per-document callback of a bulk query job,
 * which appends each extracted document to a buffer until a positive cap is
 * reached. The counter is read and incremented in one step and the value read
 * BEFORE the increment is compared with the cap, so with cap N the first N
 * deliveries are kept, delivery N + 1 sets the one-way latch and is dropped,
 * and every later delivery is ignored. Each callback is one sequential step.
 */
module ExportListening {

  /** `extractSingleRecord` applied to each document, in order. */
  function ExtractAll<D, R>(extract: D -> R, ds: seq<D>): (rs: seq<R>)
    ensures |rs| == |ds|
    ensures forall i :: 0 <= i < |ds| ==> rs[i] == extract(ds[i])
  {
    seq(|ds|, i requires 0 <= i < |ds| => extract(ds[i]))
  }

  lemma ExtractAllSnoc<D, R>(extract: D -> R, ds: seq<D>, d: D)
    ensures ExtractAll(extract, ds + [d]) == ExtractAll(extract, ds) + [extract(d)]
  {
  }

  /** The listener's counter, latch and everything it has ever appended. */
  datatype CapState<R> = CapState(resultCount: int, maxDocsReached: bool, appended: seq<R>)

  function Initial<R>(): CapState<R> {
    CapState(0, false, [])
  }

  /** One delivery to the callback, with the cap captured at construction. */
  function Step<D, R>(cap: int, extract: D -> R, s: CapState<R>, doc: D): (t: CapState<R>)
    ensures s.maxDocsReached ==> t == s
    ensures t.maxDocsReached ==> s.maxDocsReached || (cap > 0 && s.resultCount >= cap)
    ensures s.resultCount <= t.resultCount <= s.resultCount + 1
    ensures t.appended == s.appended || t.appended == s.appended + [extract(doc)]
  {
    if s.maxDocsReached then s
    else if cap > 0 && s.resultCount >= cap then
      CapState(s.resultCount + 1, true, s.appended)
    else if cap > 0 then
      CapState(s.resultCount + 1, false, s.appended + [extract(doc)])
    else
      CapState(s.resultCount, false, s.appended + [extract(doc)])
  }

  /** The state after delivering `ds`, one callback after another, from a fresh listener. */
  function Run<D, R>(cap: int, extract: D -> R, ds: seq<D>): CapState<R>
  {
    if ds == [] then Initial()
    else Step(cap, extract, Run(cap, extract, ds[..|ds| - 1]), ds[|ds| - 1])
  }

  /** Delivering one more document is one more step. */
  lemma RunSnoc<D, R>(cap: int, extract: D -> R, ds: seq<D>, d: D)
    ensures Run(cap, extract, ds + [d]) == Step(cap, extract, Run(cap, extract, ds), d)
  {
    assert (ds + [d])[..|ds + [d]| - 1] == ds;
  }

  /** How many of `n` deliveries are kept. */
  function Admitted(cap: int, n: nat): nat {
    if cap > 0 && n > cap then cap else n
  }

  /**
   * The closed form of a run: the counter stops at cap + 1, the latch is set
   * exactly when more than cap documents were delivered, and what was appended
   * is the first min(n, cap) documents, extracted, in delivery order (all of
   * them when the cap is not positive).
   */
  lemma {:induction false} RunClosedForm<D, R>(cap: int, extract: D -> R, ds: seq<D>)
    ensures Run(cap, extract, ds).resultCount == if cap > 0 then (if |ds| <= cap then |ds| else cap + 1) else 0
    ensures Run(cap, extract, ds).maxDocsReached <==> cap > 0 && |ds| > cap
    ensures Run(cap, extract, ds).appended == ExtractAll(extract, ds[..Admitted(cap, |ds|)])
  {
    if ds != [] {
      var front := ds[..|ds| - 1];
      RunClosedForm(cap, extract, front);
      assert front[..Admitted(cap, |front|)] == ds[..Admitted(cap, |front|)];
      if !(cap > 0 && |ds| > cap) {
        assert ds[..Admitted(cap, |ds|)] == ds[..Admitted(cap, |front|)] + [ds[|ds| - 1]];
      }
    }
  }

  /** With cap N >= 1 and at least N deliveries, exactly N documents are kept. */
  lemma CapIsExact<D, R>(cap: int, extract: D -> R, ds: seq<D>)
    requires cap >= 1 && |ds| >= cap
    ensures |Run(cap, extract, ds).appended| == cap
  {
    RunClosedForm(cap, extract, ds);
  }

  /** With no positive cap every delivered document is kept, in order, and the counter stays 0. */
  lemma UncappedKeepsAll<D, R>(cap: int, extract: D -> R, ds: seq<D>)
    requires cap <= 0
    ensures Run(cap, extract, ds).appended == ExtractAll(extract, ds)
    ensures Run(cap, extract, ds).resultCount == 0
  {
    RunClosedForm(cap, extract, ds);
    assert ds[..|ds|] == ds;
  }

  /** Delivering more documents only extends what was appended, and never clears the latch. */
  lemma {:induction false} RunExtends<D, R>(cap: int, extract: D -> R, ds: seq<D>, more: seq<D>)
    ensures var before := Run(cap, extract, ds);
      var after := Run(cap, extract, ds + more);
      && before.appended <= after.appended
      && before.resultCount <= after.resultCount
      && (before.maxDocsReached ==> after == before)
    decreases |more|
  {
    if more != [] {
      var front := more[..|more| - 1];
      RunExtends(cap, extract, ds, front);
      assert (ds + more)[..|ds + more| - 1] == ds + front;
    } else {
      assert ds + more == ds;
    }
  }

  /**
   * MarkLogicExportListener. `cap` is the constructor argument the callback
   * captured; `maxDocs` is the field behind getMaxDocs/setMaxDocs, which the
   * callback never reads.
   */
  class ExportListener<D, R> {
    const cap: int
    const extract: D -> R
    var maxDocs: int
    var docs: seq<R>
    var resultCount: int
    var maxDocsReached: bool
    /** Every document delivered so far. */
    ghost var delivered: seq<D>
    /** Everything cleared out of the buffer so far. */
    ghost var drained: seq<R>

    ghost predicate Valid()
      reads this
    {
      Run(cap, extract, delivered) == CapState(resultCount, maxDocsReached, drained + docs)
    }

    constructor (maxDocs: int, extract: D -> R)
      ensures Valid()
      ensures cap == maxDocs && this.maxDocs == maxDocs && this.extract == extract
      ensures docs == [] && resultCount == 0 && !maxDocsReached
      ensures delivered == [] && drained == []
    {
      cap := maxDocs;
      this.extract := extract;
      this.maxDocs := maxDocs;
      docs := [];
      resultCount := 0;
      maxDocsReached := false;
      delivered := [];
      drained := [];
    }

    /** The onDocumentReady callback. */
    method OnDocumentReady(doc: D)
      requires Valid()
      modifies this
      ensures Valid()
      ensures delivered == old(delivered) + [doc]
      ensures CapState(resultCount, maxDocsReached, drained + docs)
           == Step(cap, extract, old(CapState(resultCount, maxDocsReached, drained + docs)), doc)
      ensures old(maxDocsReached) ==> docs == old(docs) && resultCount == old(resultCount) && maxDocsReached
      ensures !old(maxDocsReached) && cap > 0 && old(resultCount) >= cap ==>
                maxDocsReached && docs == old(docs) && resultCount == old(resultCount) + 1
      ensures !old(maxDocsReached) && (cap <= 0 || old(resultCount) < cap) ==>
                !maxDocsReached && docs == old(docs) + [extract(doc)]
                && resultCount == old(resultCount) + (if cap > 0 then 1 else 0)
      ensures maxDocs == old(maxDocs) && drained == old(drained)
    {
      ghost var before := CapState(resultCount, maxDocsReached, drained + docs);
      if !maxDocsReached {
        if cap > 0 {
          var previous := resultCount;
          resultCount := resultCount + 1;
          if previous >= cap {
            maxDocsReached := true;
            assert CapState(resultCount, maxDocsReached, drained + docs) == Step(cap, extract, before, doc);
          } else {
            docs := docs + [extract(doc)];
            assert drained + docs == before.appended + [extract(doc)];
            assert CapState(resultCount, maxDocsReached, drained + docs) == Step(cap, extract, before, doc);
          }
        } else {
          docs := docs + [extract(doc)];
          assert drained + docs == before.appended + [extract(doc)];
          assert CapState(resultCount, maxDocsReached, drained + docs) == Step(cap, extract, before, doc);
        }
      } else {
        assert CapState(resultCount, maxDocsReached, drained + docs) == Step(cap, extract, before, doc);
      }
      RunSnoc(cap, extract, delivered, doc);
      delivered := delivered + [doc];
    }

    /**
     * getDocs: the buffer, which after what was cleared out of it before
     * holds the first min(n, cap) delivered documents, extracted, in order.
     */
    function GetDocs(): (r: seq<R>)
      reads this
      ensures Valid() ==> drained + r == ExtractAll(extract, delivered[..Admitted(cap, |delivered|)])
    {
      RunClosedForm(cap, extract, delivered);
      docs
    }

    /** clearDocs: empties the buffer; the counter and the latch stay, so the cap spans the listener's lifetime. */
    method ClearDocs()
      requires Valid()
      modifies this
      ensures Valid()
      ensures docs == [] && drained == old(drained) + old(docs)
      ensures resultCount == old(resultCount) && maxDocsReached == old(maxDocsReached)
      ensures delivered == old(delivered) && maxDocs == old(maxDocs)
    {
      drained := drained + docs;
      docs := [];
    }

    function GetMaxDocs(): int
      reads this
    {
      maxDocs
    }

    /** setMaxDocs: changes what getMaxDocs reports, not the cap the callback enforces. */
    method SetMaxDocs(maxDocs: int)
      requires Valid()
      modifies this
      ensures Valid()
      ensures this.maxDocs == maxDocs
      ensures docs == old(docs) && resultCount == old(resultCount) && maxDocsReached == old(maxDocsReached)
      ensures delivered == old(delivered) && drained == old(drained)
    {
      this.maxDocs := maxDocs;
    }
  }

  /**
   * What the listener has kept over its whole lifetime, whatever the clearing
   * in between: never more than a positive cap, and the documents in delivery
   * order.
   */
  lemma LifetimeBound<D, R>(l: ExportListener<D, R>)
    requires l.Valid()
    ensures l.cap > 0 ==> |l.drained| + |l.docs| <= l.cap
    ensures l.drained + l.docs == ExtractAll(l.extract, l.delivered[..Admitted(l.cap, |l.delivered|)])
    ensures l.cap > 0 ==> 0 <= l.resultCount <= l.cap + 1
    ensures l.maxDocsReached ==> l.cap > 0 && |l.drained| + |l.docs| == l.cap
  {
    RunClosedForm(l.cap, l.extract, l.delivered);
  }
}
