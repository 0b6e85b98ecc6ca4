/**
 * The insertion batcher: one process-wide write batcher, built from the
 * connector's settings (document metadata parsed from comma-separated lists,
 * temporal collection, idle-flush timer, job-report document), reused until
 * its connection is invalidated and a different connection arrives, and able
 * to report on its job by merging a persisted report document with the live
 * job's counters.
 *
 * The store client is abstract: the report documents are a map from URI to
 * document, the write batcher is the log of what was handed to it, a job start
 * is a fresh ticket identifier passed in, the live job report is a parameter,
 * and the timer is a `Tick(now, afterFlush)` call.
 */
module InsertionBatching {
  import opened Optional
  import opened JavaStrings

  // ---------------------------------------------------------------------
  // Document metadata
  // ---------------------------------------------------------------------

  datatype Capability = Read | Insert | Update | Execute | NodeUpdate

  /** The capability a permission-list entry names, matched after lower-casing; None when it names none. */
  function CapabilityOf(s: string): Option<Capability> {
    var l := ToLower(s);
    if l == "read" then Some(Read)
    else if l == "insert" then Some(Insert)
    else if l == "update" then Some(Update)
    else if l == "execute" then Some(Execute)
    else if l == "node_update" then Some(NodeUpdate)
    else None
  }

  /** DocumentPermissions: each role with the capabilities granted to it. */
  type Permissions = map<string, set<Capability>>

  /** `getPermissions().add(role, capability)`. */
  function AddPermission(perms: Permissions, role: string, c: Capability): Permissions {
    perms[role := (if role in perms then perms[role] else {}) + {c}]
  }

  /**
   * The permissions granted by the first `n` adjacent pairs of the split
   * list: pair i is (entry i, entry i + 1), for every i, not every other one.
   */
  function PermissionsUpTo(parts: seq<string>, n: nat): Permissions
    requires n <= |parts| - 1 || n == 0
  {
    if n == 0 then map[]
    else
      var perms := PermissionsUpTo(parts, n - 1);
      var c := CapabilityOf(parts[n]);
      if c.Some? then AddPermission(perms, parts[n - 1], c.value) else perms
  }

  /** The permissions the whole split list grants: all of its adjacent pairs. */
  function PermissionsOf(parts: seq<string>): Permissions {
    PermissionsUpTo(parts, if |parts| >= 1 then |parts| - 1 else 0)
  }

  /** The pair at `i` is `role` followed by an entry naming `c`. */
  predicate PairGrants(parts: seq<string>, i: nat, role: string, c: Capability) {
    i + 1 < |parts| && parts[i] == role && CapabilityOf(parts[i + 1]) == Some(c)
  }

  /** Role `role` gets capability `c` from some adjacent pair among the first `n`. */
  ghost predicate GrantedBy(parts: seq<string>, n: nat, role: string, c: Capability) {
    exists i: nat :: i < n && PairGrants(parts, i, role, c)
  }

  /** One role and capability: granted by the first `n` pairs exactly when some pair among them names both. */
  lemma {:induction false} PermissionsUpToGrants(parts: seq<string>, n: nat, role: string, c: Capability)
    requires n <= |parts| - 1 || n == 0
    ensures (role in PermissionsUpTo(parts, n) && c in PermissionsUpTo(parts, n)[role]) <==> GrantedBy(parts, n, role, c)
  {
    if n > 0 {
      PermissionsUpToGrants(parts, n - 1, role, c);
      var before := PermissionsUpTo(parts, n - 1);
      var after := PermissionsUpTo(parts, n);
      assert (role in after && c in after[role]) <==>
             (role in before && c in before[role]) || PairGrants(parts, n - 1, role, c);
      if GrantedBy(parts, n, role, c) && !PairGrants(parts, n - 1, role, c) {
        var i: nat :| i < n && PairGrants(parts, i, role, c);
        assert i < n - 1;
      }
      if GrantedBy(parts, n - 1, role, c) {
        var i: nat :| i < n - 1 && PairGrants(parts, i, role, c);
        assert i < n;
      }
      if PairGrants(parts, n - 1, role, c) {
        assert (n - 1) < n;
      }
    }
  }

  /** Some entry naming `role` is directly followed by an entry naming `c`. */
  ghost predicate ListGrants(parts: seq<string>, role: string, c: Capability) {
    exists i: nat :: i < |parts| - 1 && PairGrants(parts, i, role, c)
  }

  /**
   * The permission loop grants a role a capability exactly when some entry
   * naming the role is directly followed by an entry naming the capability;
   * pairs whose second entry names no capability are skipped.
   */
  lemma PermissionsOfGrants(parts: seq<string>)
    ensures forall role, c :: role in PermissionsOf(parts) && c in PermissionsOf(parts)[role] <==> ListGrants(parts, role, c)
  {
    var n := if |parts| >= 1 then |parts| - 1 else 0;
    forall role, c
      ensures role in PermissionsOf(parts) && c in PermissionsOf(parts)[role] <==> ListGrants(parts, role, c)
    {
      PermissionsUpToGrants(parts, n, role, c);
      assert GrantedBy(parts, n, role, c) <==> ListGrants(parts, role, c);
    }
  }

  /** Capability names match in any letter case. */
  lemma CapabilityNames()
    ensures CapabilityOf("read") == Some(Read)
    ensures CapabilityOf("UPDATE") == Some(Update)
  {
    assert ToLower("read") == "read";
    assert ToLower("UPDATE") == "update";
  }

  /** Lower-casing is idempotent, so an entry and its lower-cased form name the same capability. */
  lemma CapabilityCaseInsensitive(s: string)
    ensures CapabilityOf(ToLower(s)) == CapabilityOf(s)
  {
    var l := ToLower(s);
    assert ToLower(l) == l by {
      forall k | 0 <= k < |l|
        ensures ToLower(l)[k] == l[k]
      {
        assert l[k] == LowerChar(s[k]);
      }
    }
  }

  lemma LowerUpdate()
    ensures CapabilityOf("update") == Some(Update)
  {
    assert ToLower("update") == "update";
  }

  /** A role name is not a capability. */
  lemma RoleIsNoCapability()
    ensures CapabilityOf("rest-writer") == None
  {
    var l := ToLower("rest-writer");
    assert l[0] == 'r' && l[1] == 'e' && l[2] == 's';
  }

  /** The connector's default permission list, split on its commas. */
  lemma DefaultPermissionsSplit()
    ensures Split("rest-reader,read,rest-writer,update") == ["rest-reader", "read", "rest-writer", "update"]
  {
    DefaultPermissionsJoin();
    DefaultEntriesCommaFree();
    SplitOfJoin(["rest-reader", "read", "rest-writer", "update"]);
  }

  /** The default list joined with commas. */
  lemma DefaultPermissionsJoin()
    ensures Join(["rest-reader", "read", "rest-writer", "update"]) == "rest-reader,read,rest-writer,update"
  {
    var parts := ["rest-reader", "read", "rest-writer", "update"];
    DefaultTailJoin();
    assert parts[1..] == ["read", "rest-writer", "update"];
  }

  lemma DefaultTailJoin()
    ensures Join(["read", "rest-writer", "update"]) == "read,rest-writer,update"
  {
    var parts := ["read", "rest-writer", "update"];
    assert Join(parts[2..]) == "update";
    assert Join(parts[1..]) == "rest-writer,update";
  }

  lemma DefaultEntriesCommaFree()
    ensures forall k :: 0 <= k < 4 ==> ',' !in ["rest-reader", "read", "rest-writer", "update"][k]
  {
    var parts := ["rest-reader", "read", "rest-writer", "update"];
    assert ',' !in parts[0] && ',' !in parts[1] && ',' !in parts[2] && ',' !in parts[3];
  }

  /**
   * The pairing is by adjacent entries: in a list reader, r, writer, u where r
   * names read, u names update and writer names no capability, the middle
   * pair (r, writer) grants nothing, so reader gets read and writer update.
   */
  lemma AdjacentPairs(reader: string, r: string, writer: string, u: string)
    requires CapabilityOf(r) == Some(Read) && CapabilityOf(writer) == None && CapabilityOf(u) == Some(Update)
    requires reader != writer
    ensures PermissionsOf([reader, r, writer, u]) == map[reader := {Read}, writer := {Update}]
  {
    var parts := [reader, r, writer, u];
    var empty: set<Capability> := {};
    assert empty + {Read} == {Read};
    assert empty + {Update} == {Update};
    assert PermissionsUpTo(parts, 1) == map[reader := {Read}];
    assert PermissionsUpTo(parts, 2) == PermissionsUpTo(parts, 1);
    assert PermissionsUpTo(parts, 3) == AddPermission(map[reader := {Read}], writer, Update);
  }

  /**
   * The connector's default list, rest-reader, read, rest-writer, update
   * (what DefaultPermissionsSplit obtains from the default string), grants
   * exactly read to rest-reader and update to rest-writer.
   */
  lemma DefaultPermissions(parts: seq<string>)
    requires parts == ["rest-reader", "read", "rest-writer", "update"]
    ensures PermissionsOf(parts) == map["rest-reader" := {Read}, "rest-writer" := {Update}]
  {
    CapabilityNames();
    RoleIsNoCapability();
    LowerUpdate();
    assert "rest-reader"[5] != "rest-writer"[5];
    AdjacentPairs(parts[0], parts[1], parts[2], parts[3]);
  }

  /** The same list with the capability in capitals grants the same. */
  lemma CapitalisedCapability(parts: seq<string>)
    requires parts == ["rest-reader", "read", "rest-writer", "UPDATE"]
    ensures PermissionsOf(parts) == map["rest-reader" := {Read}, "rest-writer" := {Update}]
  {
    CapabilityNames();
    RoleIsNoCapability();
    assert "rest-reader"[5] != "rest-writer"[5];
    AdjacentPairs(parts[0], parts[1], parts[2], parts[3]);
  }

  /** The collections of the metadata: none when the first entry of the split list is exactly "null". */
  function CollectionsOf(parts: seq<string>): (cs: set<string>)
    requires |parts| >= 1
    ensures parts[0] == "null" ==> cs == {}
    ensures parts[0] != "null" ==> forall p :: p in cs <==> p in parts
  {
    if parts[0] == "null" then {} else set p | p in parts
  }

  /** DocumentMetadataHandle: collections, permissions and quality. */
  datatype Metadata = Metadata(collections: set<string>, permissions: Permissions, quality: int)

  /** A fresh DocumentMetadataHandle. */
  const EmptyMetadata := Metadata({}, map[], 0)

  /**
   * The permission loop of initializeBatcher: every adjacent pair of the
   * split list is examined, and a permission added when the second entry
   * names a capability.
   */
  method ParsePermissions(outputPermissions: string) returns (perms: Permissions)
    ensures perms == PermissionsOf(Split(outputPermissions))
  {
    var permissions := Split(outputPermissions);
    perms := map[];
    var i := 0;
    while i < |permissions| - 1
      invariant 0 <= i <= |permissions| - 1 || i == 0
      invariant perms == PermissionsUpTo(permissions, i)
    {
      var role := permissions[i];
      var capability := CapabilityOf(permissions[i + 1]);
      if capability.Some? {
        perms := AddPermission(perms, role, capability.value);
      }
      i := i + 1;
    }
  }

  /**
   * The metadata initializeBatcher builds: the collections of the split
   * collection list and the permissions of the split permission list, with
   * the quality; None when the collection list splits into no element, where
   * reading its first element fails.
   */
  method BuildMetadata(outputCollections: string, outputPermissions: string, outputQuality: int)
    returns (m: Option<Metadata>)
    ensures m.None? <==> |Split(outputCollections)| == 0
    ensures m.Some? ==>
              m.value == Metadata(CollectionsOf(Split(outputCollections)), PermissionsOf(Split(outputPermissions)), outputQuality)
  {
    var configCollections := Split(outputCollections);
    if |configCollections| == 0 {
      return None;
    }
    var collections := CollectionsOf(configCollections);
    var permissions := ParsePermissions(outputPermissions);
    m := Some(Metadata(collections, permissions, outputQuality));
  }

  // ---------------------------------------------------------------------
  // Job report
  // ---------------------------------------------------------------------

  /** The `envelope.instance` object of a persisted report document; every field may be absent. */
  datatype Instance = Instance(
    jobID: Option<string>,
    jobStartTime: Option<string>,
    successfulBatches: Option<int>,
    successfulEvents: Option<int>,
    failedBatches: Option<int>,
    failedEvents: Option<int>)

  datatype Envelope = Envelope(instance: Option<Instance>)

  /** A persisted report document, by whether it has an `envelope`. */
  datatype ReportDocument = ReportDocument(envelope: Option<Envelope>)

  /** The live job's report (timestamps as opaque strings). */
  datatype LiveReport = LiveReport(
    jobStartTime: string, jobEndTime: string, reportTimestamp: string,
    successBatches: int, successEvents: int, failureBatches: int, failureEvents: int)

  /** The report object createJsonJobReport builds, field for field. */
  datatype JobReport = JobReport(
    jobID: string, jobOutcome: string,
    successfulBatches: int, successfulEvents: int, failedBatches: int, failedEvents: int,
    jobName: string, jobStartTime: string, jobEndTime: string, jobReportTime: string)

  /** The exception a malformed report document raises (a field read through a null reference). */
  datatype ReportError = NullPointer

  datatype Outcome<T> = Ok(value: T) | Fail(error: ReportError)

  function Count(field: Option<int>): int {
    if field.Some? then field.value else 0
  }

  /** The merge of persisted totals (from `instance`, when there is one) with the live job's. */
  function Merge(instance: Option<Instance>, live: LiveReport, ticketId: string, jobName: string): JobReport {
    var persisted := if instance.Some? then instance.value else Instance(None, None, None, None, None, None);
    var failedEvents := Count(persisted.failedEvents) + live.failureEvents;
    JobReport(
      if persisted.jobID.Some? then persisted.jobID.value else ticketId,
      if failedEvents > 0 then "failed" else "successful",
      Count(persisted.successfulBatches) + live.successBatches,
      Count(persisted.successfulEvents) + live.successEvents,
      Count(persisted.failedBatches) + live.failureBatches,
      failedEvents,
      jobName,
      if persisted.jobStartTime.Some? then persisted.jobStartTime.value else live.jobStartTime,
      live.jobEndTime,
      live.reportTimestamp)
  }

  /**
   * The report built from the persisted document (when one was read) and the
   * live report: a document without an envelope, or with an instance without
   * a jobID, fails as the source's field reads do.
   */
  function BuildReport(doc: Option<ReportDocument>, live: LiveReport, ticketId: string, jobName: string): Outcome<JobReport> {
    if doc.Some? && doc.value.envelope.None? then Fail(NullPointer)
    else
      var instance := if doc.Some? then doc.value.envelope.value.instance else None;
      if instance.Some? && instance.value.jobID.None? then Fail(NullPointer)
      else Ok(Merge(instance, live, ticketId, jobName))
  }

  /**
   * Every total of the report is the persisted value (0 when absent) plus the
   * live one; the outcome is "failed" exactly when the merged failed-event
   * count is positive; jobID and jobStartTime are the persisted ones when
   * present, else the live ticket's and the live start time.
   */
  lemma MergeSpec(instance: Option<Instance>, live: LiveReport, ticketId: string, jobName: string)
    ensures var r := Merge(instance, live, ticketId, jobName);
      var p := if instance.Some? then instance.value else Instance(None, None, None, None, None, None);
      && r.successfulBatches == Count(p.successfulBatches) + live.successBatches
      && r.successfulEvents == Count(p.successfulEvents) + live.successEvents
      && r.failedBatches == Count(p.failedBatches) + live.failureBatches
      && r.failedEvents == Count(p.failedEvents) + live.failureEvents
      && (r.jobOutcome == "failed" <==> r.failedEvents > 0)
      && (r.jobOutcome == "successful" <==> r.failedEvents <= 0)
      && r.jobID == (if p.jobID.Some? then p.jobID.value else ticketId)
      && r.jobStartTime == (if p.jobStartTime.Some? then p.jobStartTime.value else live.jobStartTime)
      && r.jobEndTime == live.jobEndTime && r.jobReportTime == live.reportTimestamp
      && r.jobName == jobName
  {
  }

  /** The persisted form of a report, as the `envelope.instance` of a report document. */
  function AsInstance(r: JobReport): Instance {
    Instance(Some(r.jobID), Some(r.jobStartTime), Some(r.successfulBatches), Some(r.successfulEvents),
             Some(r.failedBatches), Some(r.failedEvents))
  }

  /**
   * A report as the connector itself hands it to the write batcher: its
   * fields sit at the top level of the JSON object, so, stored without a
   * server transform that re-wraps it, the document has no `envelope`.
   */
  function StoredUntransformed(report: JobReport): ReportDocument {
    ReportDocument(None)
  }

  /**
   * The report the connector writes cannot be read back as it was written:
   * the next merge fails on the missing `envelope`, as the source's
   * `get("envelope").get("instance")` does.
   */
  lemma WrittenReportUnreadable(report: JobReport, live: LiveReport, ticketId: string, jobName: string)
    ensures BuildReport(Some(StoredUntransformed(report)), live, ticketId, jobName) == Fail(NullPointer)
  {
  }

  /**
   * Report continuity across a restart, for a report stored as the
   * `envelope.instance` of its document (as a configured server transform
   * can arrange): when the report of a first run is persisted and merged with a second run's live report, the totals are the
   * sums of the two runs, and the job keeps the first run's ID and start time.
   */
  lemma ReportContinuity(live1: LiveReport, live2: LiveReport, ticket1: string, ticket2: string, jobName: string)
    ensures var first := Merge(None, live1, ticket1, jobName);
      var second := BuildReport(Some(ReportDocument(Some(Envelope(Some(AsInstance(first)))))), live2, ticket2, jobName);
      && second.Ok?
      && second.value.successfulBatches == live1.successBatches + live2.successBatches
      && second.value.successfulEvents == live1.successEvents + live2.successEvents
      && second.value.failedBatches == live1.failureBatches + live2.failureBatches
      && second.value.failedEvents == live1.failureEvents + live2.failureEvents
      && second.value.jobID == ticket1 && second.value.jobStartTime == live1.jobStartTime
  {
  }

  // ---------------------------------------------------------------------
  // Settings, idle flush, the batcher
  // ---------------------------------------------------------------------

  /** A MarkLogic connection, compared by value. */
  datatype Connection = Connection(id: nat)

  /** OVERWRITE, or any other strategy (which keeps an existing report document). */
  datatype ExistingReportStrategy = Overwrite | KeepExisting

  /** The arguments getInstance passes on to initializeBatcher (the configuration reduced to its flush delay). */
  datatype BatcherSettings = BatcherSettings(
    secondsBeforeFlush: int,
    outputCollections: string,
    outputPermissions: string,
    outputQuality: int,
    temporalCollection: Option<string>,
    jobReportUri: Option<string>,
    strategy: ExistingReportStrategy)

  /** A job-report URI is configured when it is neither null nor exactly "null". */
  predicate ReportUriConfigured(uri: Option<string>) {
    uri.Some? && uri.value != "null"
  }

  /**
   * A temporal collection is configured when it is neither null nor "null"
   * in any letter case (`equalsIgnoreCase` with an all-lower-case literal).
   */
  predicate TemporalConfigured(tc: Option<string>) {
    tc.Some? && ToLower(tc.value) != "null"
  }

  /**
   * The temporal-collection test ignores letter case and the job-report URI
   * test does not: "NULL" disables the former and is a report URI for the
   * latter.
   */
  lemma NullSpellings()
    ensures !TemporalConfigured(Some("NULL")) && !TemporalConfigured(Some("Null"))
    ensures ReportUriConfigured(Some("NULL")) && !ReportUriConfigured(Some("null"))
  {
  }

  /** Java `int` arithmetic: the result wrapped to 32 bits, two's complement. */
  function WrapInt32(x: int): (r: int)
    ensures -0x8000_0000 <= r < 0x8000_0000
    ensures -0x8000_0000 <= x < 0x8000_0000 ==> r == x
  {
    (x + 0x8000_0000) % 0x1_0000_0000 - 0x8000_0000
  }

  /** The timer's delay, period and idle threshold: `secondsBeforeFlush * 1000` in `int` arithmetic. */
  function FlushPeriodMs(secondsBeforeFlush: int): int {
    WrapInt32(secondsBeforeFlush * 1000)
  }

  /** A flush delay of 2147484 seconds or more wraps around to a non-positive period. */
  lemma FlushPeriodWraps()
    ensures FlushPeriodMs(2147483) == 2147483000
    ensures FlushPeriodMs(2147484) == -2147483296
  {
  }

  /**
   * The timer is accepted for every flush delay from 1 to 2147483 seconds
   * and rejected for every delay from -2147483 to 0, before the collection
   * list is even looked at.
   */
  lemma TimerAcceptedRange(settings: BatcherSettings)
    ensures 1 <= settings.secondsBeforeFlush <= 2147483 ==>
              FlushPeriodMs(settings.secondsBeforeFlush) == settings.secondsBeforeFlush * 1000
              && InitOutcomeOf(settings) != TimerRejected
    ensures -2147483 <= settings.secondsBeforeFlush <= 0 ==> InitOutcomeOf(settings) == TimerRejected
  {
  }

  /** How initializeBatcher ends: normally, or with the exception of the timer or of the collection list. */
  datatype InitOutcome = Started | TimerRejected | CollectionsMissing

  /**
   * `Timer.scheduleAtFixedRate` rejects a period that is not positive, and
   * `configCollections[0]` fails on a split with no element.
   */
  function InitOutcomeOf(settings: BatcherSettings): InitOutcome {
    if FlushPeriodMs(settings.secondsBeforeFlush) <= 0 then TimerRejected
    else if |Split(settings.outputCollections)| == 0 then CollectionsMissing
    else Started
  }

  /** How far into the future a forced flush pushes the last write time (15 minutes, in ms). */
  const FlushGuardMs := 900000

  /** The timer's test: the pipe has been idle at least the threshold. */
  predicate FlushDue(now: int, lastWriteTime: int, thresholdMs: int) {
    now - lastWriteTime >= thresholdMs
  }

  /**
   * The forced flushes of a run of timer ticks with no write in between.
   * Each tick is a pair of clock readings: the one its idle test uses, and
   * the one taken once the forced flush has completed, from which the last
   * write time is pushed 15 minutes ahead. The result is the test reading
   * of every tick that forced a flush, in order.
   */
  function ForcedFlushTimes(lastWriteTime: int, thresholdMs: int, ticks: seq<(int, int)>): (times: seq<int>)
    ensures |times| <= |ticks|
    decreases |ticks|
  {
    if ticks == [] then []
    else if FlushDue(ticks[0].0, lastWriteTime, thresholdMs)
    then [ticks[0].0] + ForcedFlushTimes(ticks[0].1 + FlushGuardMs, thresholdMs, ticks[1..])
    else ForcedFlushTimes(lastWriteTime, thresholdMs, ticks[1..])
  }

  /** Within each tick the clock does not go backwards across the flush. */
  predicate ClockReadsOrdered(ticks: seq<(int, int)>) {
    forall i :: 0 <= i < |ticks| ==> ticks[i].0 <= ticks[i].1
  }

  lemma TailClockReadsOrdered(ticks: seq<(int, int)>)
    requires ticks != [] && ClockReadsOrdered(ticks)
    ensures ClockReadsOrdered(ticks[1..])
  {
    forall i | 0 <= i < |ticks[1..]|
      ensures ticks[1..][i].0 <= ticks[1..][i].1
    {
      assert ticks[1..][i] == ticks[i + 1];
    }
  }

  /** Consecutive times at least `gap` apart. */
  predicate SpacedBy(times: seq<int>, gap: int) {
    forall k :: 0 <= k < |times| - 1 ==> times[k + 1] >= times[k] + gap
  }

  /** No tick forces a flush before the pipe has been idle the threshold since the last write time. */
  lemma {:induction false} ForcedFlushesAfter(lastWriteTime: int, thresholdMs: int, ticks: seq<(int, int)>)
    requires thresholdMs > 0 && ClockReadsOrdered(ticks)
    ensures forall t :: t in ForcedFlushTimes(lastWriteTime, thresholdMs, ticks) ==> t >= lastWriteTime + thresholdMs
    decreases |ticks|
  {
    if ticks != [] {
      TailClockReadsOrdered(ticks);
      if FlushDue(ticks[0].0, lastWriteTime, thresholdMs) {
        ForcedFlushesAfter(ticks[0].1 + FlushGuardMs, thresholdMs, ticks[1..]);
      } else {
        ForcedFlushesAfter(lastWriteTime, thresholdMs, ticks[1..]);
      }
    }
  }

  /**
   * With no write in between, two forced flushes are at least 15 minutes
   * plus the threshold apart: the timer forces at most one flush per such
   * window however often it fires.
   */
  lemma {:induction false} ForcedFlushesSpaced(lastWriteTime: int, thresholdMs: int, ticks: seq<(int, int)>)
    requires thresholdMs > 0 && ClockReadsOrdered(ticks)
    ensures SpacedBy(ForcedFlushTimes(lastWriteTime, thresholdMs, ticks), FlushGuardMs + thresholdMs)
    decreases |ticks|
  {
    if ticks != [] {
      TailClockReadsOrdered(ticks);
      if FlushDue(ticks[0].0, lastWriteTime, thresholdMs) {
        var rest := ForcedFlushTimes(ticks[0].1 + FlushGuardMs, thresholdMs, ticks[1..]);
        ForcedFlushesSpaced(ticks[0].1 + FlushGuardMs, thresholdMs, ticks[1..]);
        ForcedFlushesAfter(ticks[0].1 + FlushGuardMs, thresholdMs, ticks[1..]);
        var times := ForcedFlushTimes(lastWriteTime, thresholdMs, ticks);
        assert times == [ticks[0].0] + rest;
        if rest != [] {
          assert rest[0] in rest;
        }
        forall k | 0 <= k < |times| - 1
          ensures times[k + 1] >= times[k] + FlushGuardMs + thresholdMs
        {
          if k > 0 {
            assert times[k + 1] == rest[k] && times[k] == rest[k - 1];
          } else {
            assert times[1] == rest[0] && ticks[0].0 <= ticks[0].1;
          }
        }
      } else {
        assert ForcedFlushTimes(lastWriteTime, thresholdMs, ticks) == ForcedFlushTimes(lastWriteTime, thresholdMs, ticks[1..]);
        ForcedFlushesSpaced(lastWriteTime, thresholdMs, ticks[1..]);
      }
    }
  }

  /**
   * The report documents after the report part of initializeBatcher: the
   * document at the report URI is deleted only under OVERWRITE, only by the
   * very first initialization, and only when it exists.
   */
  function ReportInitDocuments(documents: map<string, ReportDocument>, settings: BatcherSettings, initialized: bool)
    : (after: map<string, ReportDocument>)
    ensures initialized || settings.strategy != Overwrite || !ReportUriConfigured(settings.jobReportUri) ==> after == documents
    ensures after.Keys <= documents.Keys && forall u :: u in after ==> after[u] == documents[u]
    ensures ReportUriConfigured(settings.jobReportUri) && !initialized && settings.strategy == Overwrite
            ==> settings.jobReportUri.value !in after
    ensures forall u :: u in documents && (settings.jobReportUri.None? || u != settings.jobReportUri.value) ==> u in after
  {
    if ReportUriConfigured(settings.jobReportUri) && settings.strategy == Overwrite
       && !initialized && settings.jobReportUri.value in documents
    then documents - {settings.jobReportUri.value} else documents
  }

  /** What the write batcher was handed: a payload under a URI, or the job report under the report URI. */
  datatype Content = Payload(data: string) | ReportContent(report: JobReport)

  datatype Write = Write(uri: Option<string>, content: Content, metadata: Metadata)

  /** The store's report documents, by URI. */
  class DocumentStore {
    var documents: map<string, ReportDocument>

    constructor (documents: map<string, ReportDocument>)
      ensures this.documents == documents
    {
      this.documents := documents;
    }
  }

  /** MarkLogicInsertionBatcher. */
  class InsertionBatcher {
    const jobName: string
    const store: DocumentStore
    var connection: Connection
    var jobReportUri: Option<string>
    var strategy: ExistingReportStrategy
    /** Whether the job-report document manager exists (it is never dropped once made). */
    var reportManagerOpen: bool
    var jobReportBatcherInitialized: bool
    var temporalCollection: Option<string>
    /** The period and idle threshold of the current timer. */
    var flushThresholdMs: int
    /** Whether the current timer has its flush task scheduled. */
    var timerScheduled: bool
    var lastWriteTime: int
    var metadata: Metadata
    var jobTicketId: string
    var batcherRequiresReinit: bool
    /** Everything handed to the write batchers, in order. */
    var submitted: seq<Write>
    /** How many times the timer forced a flush. */
    var forcedFlushes: nat

    ghost predicate Valid()
      reads this
    {
      && (jobReportBatcherInitialized ==> reportManagerOpen)
      && (reportManagerOpen ==> jobReportBatcherInitialized)
    }

    /**
     * The state a successful initializeBatcher leaves: the given connection,
     * report URI and strategy, the report manager open when a URI is
     * configured, the temporal collection unless switched off, the wrapped
     * flush period with its task scheduled, the metadata parsed from the
     * settings' collection and permission lists, and the new job's ticket.
     */
    ghost predicate StartedWith(connection: Connection, settings: BatcherSettings, ticketId: string)
      reads this
    {
      && this.connection == connection && jobReportUri == settings.jobReportUri && strategy == settings.strategy
      && (ReportUriConfigured(settings.jobReportUri) ==> reportManagerOpen)
      && temporalCollection == (if TemporalConfigured(settings.temporalCollection) then settings.temporalCollection else None)
      && flushThresholdMs == FlushPeriodMs(settings.secondsBeforeFlush) && timerScheduled
      && |Split(settings.outputCollections)| >= 1
      && metadata == Metadata(CollectionsOf(Split(settings.outputCollections)),
                              PermissionsOf(Split(settings.outputPermissions)), settings.outputQuality)
      && jobTicketId == ticketId
    }

    /**
     * The private constructor, before its initializeBatcher call: Java's
     * default field values and the store the batcher reports to.
     */
    constructor (jobName: string, store: DocumentStore)
      ensures Valid()
      ensures this.jobName == jobName && this.store == store
      ensures !reportManagerOpen && !jobReportBatcherInitialized && !batcherRequiresReinit && !timerScheduled
      ensures lastWriteTime == 0 && submitted == [] && forcedFlushes == 0 && metadata == EmptyMetadata
    {
      this.jobName := jobName;
      this.store := store;
      connection := Connection(0);
      jobReportUri := None;
      strategy := KeepExisting;
      reportManagerOpen := false;
      jobReportBatcherInitialized := false;
      temporalCollection := None;
      flushThresholdMs := 0;
      timerScheduled := false;
      lastWriteTime := 0;
      metadata := EmptyMetadata;
      jobTicketId := "";
      batcherRequiresReinit := false;
      submitted := [];
      forcedFlushes := 0;
    }

    /**
     * initializeJobReportBatcher: opens the report document manager and, on
     * the very first call only, deletes an existing report document under the
     * OVERWRITE strategy.
     */
    method InitializeJobReportBatcher()
      requires Valid() && ReportUriConfigured(jobReportUri)
      modifies this`reportManagerOpen, this`jobReportBatcherInitialized, store
      ensures Valid() && reportManagerOpen && jobReportBatcherInitialized
      ensures var uri := jobReportUri.value;
        store.documents == if strategy == Overwrite && !old(jobReportBatcherInitialized) && uri in old(store.documents)
                           then old(store.documents) - {uri} else old(store.documents)
      ensures old(jobReportBatcherInitialized) ==> store.documents == old(store.documents)
    {
      reportManagerOpen := true;
      var uri := jobReportUri.value;
      if strategy == Overwrite && !jobReportBatcherInitialized && uri in store.documents {
        store.documents := store.documents - {uri};
      }
      jobReportBatcherInitialized := true;
    }

    /**
     * initializeBatcher: records the connection and report settings, opens
     * the report manager when a report URI is configured, binds the temporal
     * collection, replaces the timer, builds the metadata and starts a new job.
     * It stops with an exception at the timer when the period is not positive,
     * and at the collections when the list splits into no element at all; the
     * effects before that point remain and the job is not restarted.
     */
    method InitializeBatcher(connection: Connection, settings: BatcherSettings, newTicketId: string) returns (r: InitOutcome)
      requires Valid()
      modifies this`connection, this`jobReportUri, this`strategy, this`reportManagerOpen,
               this`jobReportBatcherInitialized, this`temporalCollection, this`flushThresholdMs,
               this`timerScheduled, this`metadata, this`jobTicketId, store
      ensures Valid()
      ensures r == InitOutcomeOf(settings)
      ensures this.connection == connection && jobReportUri == settings.jobReportUri && strategy == settings.strategy
      ensures reportManagerOpen == (old(reportManagerOpen) || ReportUriConfigured(settings.jobReportUri))
      ensures store.documents == ReportInitDocuments(old(store.documents), settings, old(jobReportBatcherInitialized))
      ensures temporalCollection == if TemporalConfigured(settings.temporalCollection) then settings.temporalCollection else None
      ensures flushThresholdMs == FlushPeriodMs(settings.secondsBeforeFlush)
      ensures timerScheduled == (r != TimerRejected)
      ensures r == TimerRejected ==> metadata == old(metadata) && jobTicketId == old(jobTicketId)
      ensures r == CollectionsMissing ==> metadata == EmptyMetadata && jobTicketId == old(jobTicketId)
      ensures r == Started ==>
                && metadata == Metadata(CollectionsOf(Split(settings.outputCollections)),
                                        PermissionsOf(Split(settings.outputPermissions)), settings.outputQuality)
                && jobTicketId == newTicketId
      ensures r == Started ==> StartedWith(connection, settings, newTicketId)
    {
      this.connection := connection;
      jobReportUri := settings.jobReportUri;
      strategy := settings.strategy;
      if ReportUriConfigured(jobReportUri) {
        InitializeJobReportBatcher();
      }
      temporalCollection := if TemporalConfigured(settings.temporalCollection) then settings.temporalCollection else None;
      r := ScheduleAndStart(settings, newTicketId);
    }

    /**
     * The second half of initializeBatcher: replaces the timer, builds the
     * metadata and starts a new job, stopping at the timer or at the
     * collections as described there.
     */
    method ScheduleAndStart(settings: BatcherSettings, newTicketId: string) returns (r: InitOutcome)
      modifies this`flushThresholdMs, this`timerScheduled, this`metadata, this`jobTicketId
      ensures r == InitOutcomeOf(settings)
      ensures flushThresholdMs == FlushPeriodMs(settings.secondsBeforeFlush)
      ensures timerScheduled == (r != TimerRejected)
      ensures r == TimerRejected ==> metadata == old(metadata) && jobTicketId == old(jobTicketId)
      ensures r == CollectionsMissing ==> metadata == EmptyMetadata && jobTicketId == old(jobTicketId)
      ensures r == Started ==>
                && metadata == Metadata(CollectionsOf(Split(settings.outputCollections)),
                                        PermissionsOf(Split(settings.outputPermissions)), settings.outputQuality)
                && jobTicketId == newTicketId
    {
      flushThresholdMs := FlushPeriodMs(settings.secondsBeforeFlush);
      if flushThresholdMs <= 0 {
        timerScheduled := false;
        return TimerRejected;
      }
      timerScheduled := true;
      var built := BuildMetadata(settings.outputCollections, settings.outputPermissions, settings.outputQuality);
      if built.None? {
        metadata := EmptyMetadata;
        return CollectionsMissing;
      }
      metadata := built.value;
      jobTicketId := newTicketId;
      r := Started;
    }

    /**
     * One run of the idle-flush timer task: flushes when the pipe has been
     * idle at least the threshold at the clock reading `now`, and then pushes
     * the last write time 15 minutes past `afterFlush`, the clock read again
     * once the flush has completed.
     */
    method Tick(now: int, afterFlush: int) returns (flushed: bool)
      requires timerScheduled
      modifies this`lastWriteTime, this`forcedFlushes
      ensures flushed == FlushDue(now, old(lastWriteTime), flushThresholdMs)
      ensures flushed ==> lastWriteTime == afterFlush + FlushGuardMs && forcedFlushes == old(forcedFlushes) + 1
      ensures !flushed ==> lastWriteTime == old(lastWriteTime) && forcedFlushes == old(forcedFlushes)
      ensures flushed ==> forall t :: FlushDue(t, lastWriteTime, flushThresholdMs) ==> t >= afterFlush + FlushGuardMs + flushThresholdMs
    {
      flushed := now - lastWriteTime >= flushThresholdMs;
      if flushed {
        forcedFlushes := forcedFlushes + 1;
        lastWriteTime := afterFlush + FlushGuardMs;
      }
    }

    /** doInsert: hands the document to the write batcher under the fixed metadata, stamps the clock, returns the job's ticket. */
    method DoInsert(outUri: string, payload: string, now: int) returns (ticketId: string)
      modifies this`submitted, this`lastWriteTime
      ensures submitted == old(submitted) + [Write(Some(outUri), Payload(payload), metadata)]
      ensures lastWriteTime == now
      ensures ticketId == jobTicketId
    {
      submitted := submitted + [Write(Some(outUri), Payload(payload), metadata)];
      lastWriteTime := now;
      ticketId := jobTicketId;
    }

    /** The report document createJsonJobReport reads: only when the report manager exists and a document is there. */
    function PersistedDocument(): Option<ReportDocument>
      reads this, store
    {
      if reportManagerOpen && jobReportUri.Some? && jobReportUri.value in store.documents
      then Some(store.documents[jobReportUri.value]) else None
    }

    /** createJsonJobReport, with the live job report as a parameter. */
    method CreateJsonJobReport(live: LiveReport) returns (r: Outcome<JobReport>)
      ensures r == BuildReport(PersistedDocument(), live, jobTicketId, jobName)
    {
      var successBatches := 0;
      var successEvents := 0;
      var failBatches := 0;
      var failEvents := 0;
      var jobStartTime: Option<string> := None;
      var jobID: Option<string> := None;
      var doc := PersistedDocument();
      if doc.Some? {
        if doc.value.envelope.None? {
          return Fail(NullPointer);
        }
        var instance := doc.value.envelope.value.instance;
        if instance.Some? {
          if instance.value.jobID.None? {
            return Fail(NullPointer);
          }
          jobID := instance.value.jobID;
          if instance.value.jobStartTime.Some? {
            jobStartTime := instance.value.jobStartTime;
          }
          if instance.value.successfulBatches.Some? {
            successBatches := instance.value.successfulBatches.value;
          }
          if instance.value.successfulEvents.Some? {
            successEvents := instance.value.successfulEvents.value;
          }
          if instance.value.failedBatches.Some? {
            failBatches := instance.value.failedBatches.value;
          }
          if instance.value.failedEvents.Some? {
            failEvents := instance.value.failedEvents.value;
          }
        }
      }
      if jobID.None? {
        jobID := Some(jobTicketId);
      }
      if jobStartTime.None? {
        jobStartTime := Some(live.jobStartTime);
      }
      successBatches := successBatches + live.successBatches;
      successEvents := successEvents + live.successEvents;
      failBatches := failBatches + live.failureBatches;
      failEvents := failEvents + live.failureEvents;
      var outcome := if failEvents > 0 then "failed" else "successful";
      r := Ok(JobReport(jobID.value, outcome, successBatches, successEvents, failBatches, failEvents,
                        jobName, jobStartTime.value, live.jobEndTime, live.reportTimestamp));
    }

    /**
     * markLogicConnectionInvalidated: when the report manager exists, the
     * current report is handed to the write batcher under the report URI and
     * flushed; then the batcher is marked for reinitialization. `ok` is false
     * when building the report fails, which leaves the flag as it was.
     */
    method MarkLogicConnectionInvalidated(live: LiveReport) returns (ok: bool)
      modifies this`submitted, this`batcherRequiresReinit
      ensures var report := BuildReport(old(PersistedDocument()), live, jobTicketId, jobName);
        && ok == (!reportManagerOpen || report.Ok?)
        && (ok ==> batcherRequiresReinit)
        && (!ok ==> batcherRequiresReinit == old(batcherRequiresReinit))
        && submitted == if reportManagerOpen && report.Ok?
                        then old(submitted) + [Write(jobReportUri, ReportContent(report.value), metadata)]
                        else old(submitted)
    {
      if reportManagerOpen {
        var jobReport := CreateJsonJobReport(live);
        if jobReport.Fail? {
          return false;
        }
        submitted := submitted + [Write(jobReportUri, ReportContent(jobReport.value), metadata)];
      }
      batcherRequiresReinit := true;
      ok := true;
    }
  }

  /** The static `instance` field of MarkLogicInsertionBatcher and the two getInstance methods. */
  class BatcherRegistry {
    const store: DocumentStore
    var instance: InsertionBatcher?

    ghost predicate Valid()
      reads this, instance
    {
      instance != null ==> instance.Valid() && instance.store == store
    }

    constructor (store: DocumentStore)
      ensures Valid() && this.store == store && instance == null
    {
      this.store := store;
      instance := null;
    }

    /** getInstance(): the current instance, if any. */
    function CurrentInstance(): InsertionBatcher?
      reads this
    {
      instance
    }

    /** Whether getInstance reinitializes the existing instance for `connection`. */
    predicate ReinitDue(connection: Option<Connection>)
      reads this, instance
    {
      instance != null && connection.Some? && connection.value != instance.connection && instance.batcherRequiresReinit
    }

    /**
     * getInstance(config, connection, ...): creates the instance when there is
     * none; reinitializes it, and then clears its flag, only when the given
     * connection is non-null, differs from the instance's, and the instance
     * requires reinitialization; otherwise returns it untouched. `failed`
     * stands for the exception of a failing initialization (b is then null);
     * a failed creation leaves no instance, a failed reinitialization leaves
     * the flag set.
     */
    method GetInstance(settings: BatcherSettings, jobName: string, connection: Option<Connection>, newTicketId: string)
      returns (b: InsertionBatcher?, failed: bool)
      requires Valid()
      modifies this, instance, store
      ensures Valid()
      ensures failed ==> b == null
      ensures !failed ==> b == instance && b != null
      ensures old(instance) == null && connection.None? ==>
                failed && instance == null && store.documents == old(store.documents)
      ensures old(instance) == null && connection.Some? ==>
                && failed == (InitOutcomeOf(settings) != Started)
                && store.documents == ReportInitDocuments(old(store.documents), settings, false)
                && (failed ==> instance == null)
                && (!failed ==> fresh(instance) && instance.jobName == jobName && instance.store == store
                                && instance.StartedWith(connection.value, settings, newTicketId)
                                && !instance.batcherRequiresReinit
                                && instance.submitted == [] && instance.lastWriteTime == 0)
      ensures old(ReinitDue(connection)) ==>
                && instance == old(instance)
                && failed == (InitOutcomeOf(settings) != Started)
                && instance.connection == connection.value
                && instance.batcherRequiresReinit == failed
                && store.documents == ReportInitDocuments(old(store.documents), settings, old(instance.jobReportBatcherInitialized))
                && (!failed ==> instance.StartedWith(connection.value, settings, newTicketId))
                && instance.submitted == old(instance.submitted) && instance.lastWriteTime == old(instance.lastWriteTime)
                && instance.forcedFlushes == old(instance.forcedFlushes)
      ensures old(instance) != null && !old(ReinitDue(connection)) ==>
                !failed && instance == old(instance) && unchanged(instance) && store.documents == old(store.documents)
    {
      failed := false;
      if instance == null {
        if connection.None? {
          return null, true;
        }
        var created := new InsertionBatcher(jobName, store);
        var r := created.InitializeBatcher(connection.value, settings, newTicketId);
        if r != Started {
          return null, true;
        }
        instance := created;
      } else if connection.Some? && connection.value != instance.connection {
        if instance.batcherRequiresReinit {
          var r := instance.InitializeBatcher(connection.value, settings, newTicketId);
          if r != Started {
            return null, true;
          }
          instance.batcherRequiresReinit := false;
        }
      }
      b := instance;
    }
  }
}
