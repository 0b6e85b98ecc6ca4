/**
 * The connector operations built on the pieces above: importDocs (output URI
 * assembly and the hand-off to the shared insertion batcher), getJobReport,
 * and the two paging providers, of queryDocs (one result-set cursor, created
 * on the first page request) and of exportDocs (one capped export listener,
 * fed by a single bulk job on the first page request and drained page by
 * page).
 */
module Operations {
  import opened Optional
  import opened JavaStrings
  import opened InsertionBatching
  import opened ExportListening
  import opened ResultSet

  // ---------------------------------------------------------------------
  // importDocs
  // ---------------------------------------------------------------------

  /** How `String.format("%s", x)` renders a String argument: null prints as "null". */
  function Render(s: Option<string>): string {
    if s.Some? then s.value else "null"
  }

  /** OUTPUT_URI_TEMPLATE, "%s%s%s": prefix, basename and suffix concatenated. */
  function OutputUri(prefix: Option<string>, basename: string, suffix: Option<string>): (uri: string)
    ensures |uri| == |Render(prefix)| + |basename| + |Render(suffix)|
  {
    Render(prefix) + basename + Render(suffix)
  }

  /** The assembled URI starts with the prefix, ends with the suffix, and the basename is exactly what lies between. */
  lemma OutputUriParts(prefix: Option<string>, basename: string, suffix: Option<string>)
    ensures var uri := OutputUri(prefix, basename, suffix);
      && uri[..|Render(prefix)|] == Render(prefix)
      && uri[|uri| - |Render(suffix)|..] == Render(suffix)
      && uri[|Render(prefix)|..|uri| - |Render(suffix)|] == basename
  {
    var p, s := Render(prefix), Render(suffix);
    var uri := OutputUri(prefix, basename, suffix);
    assert uri == p + basename + s;
    assert uri[..|p|] == p;
    assert uri[|uri| - |s|..] == s;
    assert uri[|p|..|uri| - |s|] == basename;
  }

  /** Under one prefix and suffix, distinct basenames give distinct URIs. */
  lemma OutputUriInjective(prefix: Option<string>, b1: string, b2: string, suffix: Option<string>)
    requires OutputUri(prefix, b1, suffix) == OutputUri(prefix, b2, suffix)
    ensures b1 == b2
  {
    OutputUriParts(prefix, b1, suffix);
    OutputUriParts(prefix, b2, suffix);
  }

  /** The given basename is unusable when it is null, the string "null" or empty. */
  predicate BasenameMissing(basenameUri: Option<string>) {
    basenameUri.None? || basenameUri.value == "null" || |basenameUri.value| < 1
  }

  /** The basename importDocs uses; `freshId` stands for a new random UUID. */
  function OutputBasename(generate: bool, basenameUri: Option<string>, freshId: string): string {
    if generate || BasenameMissing(basenameUri) then freshId else basenameUri.value
  }

  /**
   * The basename is the given one exactly when generation is off and the
   * given one is usable; otherwise it is the fresh identifier, so with a
   * fresh identifier that is neither empty nor "null" the basename is never
   * empty and never "null".
   */
  lemma OutputBasenameSpec(generate: bool, basenameUri: Option<string>, freshId: string)
    ensures var b := OutputBasename(generate, basenameUri, freshId);
      && (!generate && !BasenameMissing(basenameUri) ==> b == basenameUri.value)
      && (generate || BasenameMissing(basenameUri) ==> b == freshId)
      && (|freshId| >= 1 && freshId != "null" ==> |b| >= 1 && b != "null")
  {
  }

  /** The given basename is not trimmed: one made only of blanks is kept as it is. */
  lemma BlankBasenameKept(blank: string, freshId: string)
    requires |blank| >= 1 && forall k :: 0 <= k < |blank| ==> blank[k] == ' '
    ensures OutputBasename(false, Some(blank), freshId) == blank
  {
    assert blank[0] != 'n';
  }

  /**
   * importDocs: gets the shared batcher (creating or reinitializing it as
   * getInstance decides), assembles the output URI and inserts the payload;
   * returns the job ticket, or None for the exception of a failed
   * initialization. `freshId` is the UUID a missing basename is replaced by,
   * `newTicketId` the ticket a job started here gets, `now` the clock.
   */
  method ImportDocs(registry: BatcherRegistry, settings: BatcherSettings, jobName: string, connection: Connection,
                    payload: string, outputUriPrefix: Option<string>, outputUriSuffix: Option<string>,
                    generateOutputUriBasename: bool, basenameUri: Option<string>,
                    freshId: string, newTicketId: string, now: int)
    returns (ticket: Option<string>)
    requires registry.Valid()
    modifies registry, registry.instance, registry.store
    ensures registry.Valid()
    ensures ticket.Some? ==>
              && registry.instance != null
              && var b := registry.instance;
              && |b.submitted| >= 1
              && b.submitted[|b.submitted| - 1]
                 == Write(Some(OutputUri(outputUriPrefix, OutputBasename(generateOutputUriBasename, basenameUri, freshId), outputUriSuffix)),
                          Payload(payload), b.metadata)
              && b.lastWriteTime == now
              && ticket.value == b.jobTicketId
    ensures ticket.Some? && (old(registry.instance) == null || old(registry.ReinitDue(Some(connection)))) ==>
              && |Split(settings.outputCollections)| >= 1
              && registry.instance.metadata
                 == Metadata(CollectionsOf(Split(settings.outputCollections)),
                             PermissionsOf(Split(settings.outputPermissions)), settings.outputQuality)
              && ticket.value == newTicketId
    ensures ticket.None? ==> (old(registry.instance) == null && registry.instance == null) || old(registry.ReinitDue(Some(connection)))
    ensures old(registry.instance) != null && !old(registry.ReinitDue(Some(connection))) ==>
              ticket == Some(old(registry.instance.jobTicketId))
              && registry.instance.metadata == old(registry.instance.metadata)
              && registry.instance.jobTicketId == old(registry.instance.jobTicketId)
    ensures old(registry.instance) != null && !old(registry.ReinitDue(Some(connection))) ==>
              ticket.Some? && registry.instance == old(registry.instance)
              && registry.instance.submitted == old(registry.instance.submitted) + [registry.instance.submitted[|registry.instance.submitted| - 1]]
  {
    var batcher, failed := registry.GetInstance(settings, jobName, Some(connection), newTicketId);
    if failed {
      return None;
    }
    var basename := OutputBasename(generateOutputUriBasename, basenameUri, freshId);
    var outUri := OutputUri(outputUriPrefix, basename, outputUriSuffix);
    var id := batcher.DoInsert(outUri, payload, now);
    ticket := Some(id);
  }

  // ---------------------------------------------------------------------
  // getJobReport
  // ---------------------------------------------------------------------

  /** The object getJobReport serialises: `exportResults` is always empty; `importResults` is there only when a batcher exists. */
  datatype JobReportJson = JobReportJson(exportResults: seq<JobReport>, importResults: Option<seq<JobReport>>)

  /** getJobReport, with the live job report as a parameter. */
  method GetJobReport(registry: BatcherRegistry, live: LiveReport) returns (r: Outcome<JobReportJson>)
    ensures registry.CurrentInstance() == null ==> r == Ok(JobReportJson([], None))
    ensures registry.CurrentInstance() != null ==>
              var b := registry.CurrentInstance();
              var report := BuildReport(b.PersistedDocument(), live, b.jobTicketId, b.jobName);
              && (report.Fail? ==> r == Fail(report.error))
              && (report.Ok? ==> r == Ok(JobReportJson([], Some([report.value]))))
  {
    var batcher := registry.CurrentInstance();
    if batcher == null {
      return Ok(JobReportJson([], None));
    }
    var report := batcher.CreateJsonJobReport(live);
    if report.Fail? {
      return Fail(report.error);
    }
    r := Ok(JobReportJson([], Some([report.value])));
  }

  // ---------------------------------------------------------------------
  // queryDocs
  // ---------------------------------------------------------------------

  /** `isDefined`: non-null, not blank, and not "null" once trimmed. */
  predicate IsDefined(s: Option<string>) {
    s.Some? && Trim(s.value) != [] && Trim(s.value) != "null"
  }

  /** Surrounding blanks never change whether a setting is defined. */
  lemma IsDefinedIgnoresPadding(s: string)
    ensures IsDefined(Some(s)) == IsDefined(Some(Trim(s)))
  {
    TrimIdempotent(s);
  }

  /** The search options queryDocs passes on: the options name only when it is defined. */
  function QueryOptions(optionsName: Option<string>): (options: Option<string>)
    ensures options.Some? <==> IsDefined(optionsName)
    ensures options.Some? ==> options == optionsName
  {
    if IsDefined(optionsName) then optionsName else None
  }

  /** The page length queryDocs gives the cursor: a given length below 1 is replaced by the batch size; none stays none. */
  function QueryPageLength(pageLength: Option<int>, batchSize: int): (p: Option<int>)
    ensures pageLength.None? ==> p.None?
    ensures pageLength.Some? && pageLength.value >= 1 ==> p == pageLength
    ensures pageLength.Some? && pageLength.value < 1 ==> p == Some(batchSize)
  {
    if pageLength.Some? && pageLength.value < 1 then Some(batchSize) else pageLength
  }

  /** The page length the cursor ends up with, the document manager's default when none is given. */
  function EffectivePageLength(pageLength: Option<int>, batchSize: int, defaultPageLength: int): int {
    var p := QueryPageLength(pageLength, batchSize);
    if p.Some? then p.value else defaultPageLength
  }

  /** With a positive batch size and default page length, every page request asks for at least one record. */
  lemma EffectivePageLengthPositive(pageLength: Option<int>, batchSize: int, defaultPageLength: int)
    requires batchSize >= 1 && defaultPageLength >= 1
    ensures EffectivePageLength(pageLength, batchSize, defaultPageLength) >= 1
  {
  }

  /**
   * The paging provider of queryDocs over an abstract store. The first page
   * request creates the cursor; every request returns the cursor's next page.
   */
  class QueryPager<D, R> {
    const store: seq<D>
    const extract: D -> R
    const pageLength: Option<int>
    const maxResults: Option<int>
    const batchSize: int
    /** The document manager's page length, used when no page length is given. */
    const defaultPageLength: int
    var initialised: bool
    var cursor: ResultSetIterator?<D, R>

    ghost predicate Valid()
      reads this, cursor
    {
      && (initialised <==> cursor != null)
      && (cursor != null ==>
            && cursor.Valid()
            && cursor.store == store && cursor.extract == extract
            && cursor.pageLength == EffectivePageLength(pageLength, batchSize, defaultPageLength)
            && cursor.maxResults == (if maxResults.Some? then maxResults.value else 0))
    }

    constructor (store: seq<D>, extract: D -> R, pageLength: Option<int>, maxResults: Option<int>,
                 batchSize: int, defaultPageLength: int)
      ensures Valid() && !initialised
      ensures this.store == store && this.extract == extract && this.pageLength == pageLength
      ensures this.maxResults == maxResults && this.batchSize == batchSize && this.defaultPageLength == defaultPageLength
    {
      this.store := store;
      this.extract := extract;
      this.pageLength := pageLength;
      this.maxResults := maxResults;
      this.batchSize := batchSize;
      this.defaultPageLength := defaultPageLength;
      initialised := false;
      cursor := null;
    }

    /** getPage: creates the cursor on the first call, then returns its next page. */
    method GetPage() returns (page: seq<R>)
      requires Valid()
      modifies this, cursor
      ensures Valid() && initialised
      ensures old(initialised) ==> cursor == old(cursor)
      ensures !old(initialised) ==> fresh(cursor)
      ensures var from := if old(initialised) then old(cursor.start) else 1;
        var count := if old(initialised) then old(cursor.resultCount) else 0;
        var fetched := PageAt(store, from, cursor.pageLength);
        && page == ExtractAll(extract, fetched[..Taken(|fetched|, cursor.maxResults, count)])
        && cursor.start == from + cursor.pageLength
        && cursor.resultCount == CountAfter(|fetched|, cursor.maxResults, count)
        && cursor.returned == (if old(initialised) then old(cursor.returned) else []) + fetched[..Taken(|fetched|, cursor.maxResults, count)]
    {
      if !initialised {
        initialised := true;
        cursor := new ResultSetIterator(store, extract, QueryPageLength(pageLength, batchSize), defaultPageLength, maxResults);
      }
      page := cursor.Next();
    }
  }

  // ---------------------------------------------------------------------
  // exportDocs
  // ---------------------------------------------------------------------

  /** The cap exportDocs gives its listener: the maximum number of results, 0 (no cap) when none is given. */
  function ExportMaxResults(maxResults: Option<int>): (cap: int)
    ensures maxResults.None? ==> cap == 0
    ensures maxResults.Some? ==> cap == maxResults.value
  {
    if maxResults.Some? then maxResults.value else 0
  }

  /**
   * The paging provider of exportDocs. `matches` stands for the documents
   * the bulk query job delivers; the job runs to completion on the first
   * page request only. Every request then copies the listener's buffer and
   * clears it.
   */
  class ExportPager<D, R> {
    const listener: ExportListener<D, R>
    var initialised: bool

    ghost predicate Valid()
      reads this, listener
    {
      && listener.Valid()
      && (!initialised ==> listener.delivered == [])
      && (initialised ==> listener.docs == [])
    }

    constructor (maxResults: Option<int>, extract: D -> R)
      ensures Valid() && !initialised
      ensures fresh(listener) && listener.cap == ExportMaxResults(maxResults) && listener.extract == extract
    {
      listener := new ExportListener(ExportMaxResults(maxResults), extract);
      initialised := false;
    }

    /**
     * getPage: on the first call every match goes through the listener's
     * callback; then the buffer is copied, in order, and cleared. The first
     * page therefore holds the first min(n, cap) matches extracted (all n
     * without a cap), and every later page is empty.
     */
    method GetPage(matches: seq<D>) returns (documents: seq<R>)
      requires Valid()
      modifies this, listener
      ensures Valid() && initialised
      ensures !old(initialised) ==> listener.delivered == matches
      ensures old(initialised) ==> listener.delivered == old(listener.delivered)
      ensures !old(initialised) ==>
                documents == ExtractAll(listener.extract, matches[..Admitted(listener.cap, |matches|)])
      ensures old(initialised) ==> documents == []
      ensures listener.drained == old(listener.drained) + documents
    {
      if !initialised {
        assert listener.drained + listener.docs == [] by {
          assert Run(listener.cap, listener.extract, listener.delivered).appended == [];
        }
        initialised := true;
        var i := 0;
        while i < |matches|
          invariant 0 <= i <= |matches|
          invariant listener.Valid() && listener.delivered == matches[..i]
          invariant initialised && listener.drained == []
          modifies listener
        {
          listener.OnDocumentReady(matches[i]);
          assert matches[..i + 1] == matches[..i] + [matches[i]];
          i := i + 1;
        }
        assert matches[..i] == matches;
      }
      var buffer := listener.GetDocs();
      documents := [];
      var j := 0;
      while j < |buffer|
        invariant 0 <= j <= |buffer|
        invariant documents == buffer[..j]
      {
        documents := documents + [buffer[j]];
        j := j + 1;
      }
      assert documents == buffer;
      listener.ClearDocs();
      LifetimeBound(listener);
    }
  }
}
