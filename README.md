# MarkLogic connector core, modelled in Dafny

This project models the logic at the centre of the MarkLogic connector for
Mule: the code that moves documents into and out of a MarkLogic database,
with the database and its Data Movement SDK replaced by abstract values.

- **Insertion batcher** (`insertion_batcher.dfy`, module `InsertionBatching`)
  - Parses the comma-separated collection and permission settings into
    document metadata.
  - Runs the idle-flush timer tick.
  - `doInsert`.
  - Merges the persisted job report with the live one.
  - Gates the report document's deletion under the OVERWRITE strategy.
  - Holds the shared batcher instance with its reinitialisation flag.
  - The batcher is a class whose methods update its fields. The document
    store holding the report is a class with a map from URI to document.
- **Operations** (`operations.dfy`, module `Operations`)
  - importDocs: basename choice, the `prefix + basename + suffix` URI, and
    the hand-off to the batcher.
  - getJobReport.
  - The paging providers of queryDocs and exportDocs, with their defaults
    and `isDefined`.
- **Result page cursor** (`result_set_iterator.dfy`, module `ResultSet`)
  - Offset-based pagination over a sequence of store records, with an
    optional cap.
- **Export listener** (`export_listener.dfy`, module `ExportListening`)
  - The callback that buffers delivered documents up to a cap, with a
    one-way latch.
  - The buffer accessors.
- **XML flattening** (`xml_record_extractor.dfy`, module `XmlRecords`)
  - `createMapFromXML` as a recursive function over a node datatype,
    returning a nested value datatype.
- **Java string operations** (`java_strings.dfy`, module `JavaStrings`)
  - The library operations the core relies on: `String.split(",")` with its
    dropping of trailing empty pieces, `trim` and `toLowerCase`.

Each imperative method is proved against a function on values: the export
listener against `Step`/`Run`, the cursor against `PageAt`/`Taken`, the
permission loop against `PermissionsOf`, and the report accumulation against
`BuildReport`/`Merge`. The properties of the system are lemmas about those
functions, or invariants the classes keep.

Two places where the code and its description differ. The model follows the
code in both.

- The export listener compares the counter *before* incrementing it
  (`getAndIncrement() >= maxDocs`). With a cap of N it keeps N documents,
  and drops the (N+1)-th delivery while setting the latch. Its counter ends
  at most at N + 1.
- The export listener's callback uses the constructor argument, not the
  field. `setMaxDocs` therefore changes what `getMaxDocs` returns, but not
  the cap.

## Model

| member | source | states |
|---|---|---|
| JavaStrings.Trim | src/main/java/com/marklogic/mule/extension/connector/internal/operation/MarkLogicOperations.java:596 | the result is empty exactly when every character is blank (at most U+0020), and otherwise starts and ends with a non-blank character (`String.trim`) |
| JavaStrings.TrimStart | src/main/java/com/marklogic/mule/extension/connector/internal/operation/MarkLogicOperations.java:596 | the index of the first non-blank character at or after `i`, with every skipped character blank |
| JavaStrings.TrimEnd | src/main/java/com/marklogic/mule/extension/connector/internal/operation/MarkLogicOperations.java:596 | the end of the text before any trailing blanks, with every dropped character blank |
| JavaStrings.TrimIdempotent | src/main/java/com/marklogic/mule/extension/connector/internal/operation/MarkLogicOperations.java:596 | trimming twice gives the same as trimming once |
| JavaStrings.LowerChar | src/main/java/com/marklogic/mule/extension/connector/internal/operation/MarkLogicInsertionBatcher.java:195 | an upper-case ASCII letter becomes the lower-case letter 32 code points above it, and every other character stays (`toLowerCase` on ASCII) |
| JavaStrings.ToLower | src/main/java/com/marklogic/mule/extension/connector/internal/operation/MarkLogicInsertionBatcher.java:195 | same length, each character lowered by LowerChar |
| JavaStrings.SplitAll | src/main/java/com/marklogic/mule/extension/connector/internal/operation/MarkLogicInsertionBatcher.java:179 | cutting at every comma gives at least one piece, no piece holds a comma, and text without a comma is one piece |
| JavaStrings.SplitFrom | src/main/java/com/marklogic/mule/extension/connector/internal/operation/MarkLogicInsertionBatcher.java:179 | the same cutting, with a comma-free prefix already collected |
| JavaStrings.SplitFromPiece | src/main/java/com/marklogic/mule/extension/connector/internal/operation/MarkLogicInsertionBatcher.java:179 | a comma-free piece followed by a comma is cut off as one piece |
| JavaStrings.SplitAllJoin | src/main/java/com/marklogic/mule/extension/connector/internal/operation/MarkLogicInsertionBatcher.java:179 | joining the pieces again with commas gives back the text |
| JavaStrings.SplitFromJoin | src/main/java/com/marklogic/mule/extension/connector/internal/operation/MarkLogicInsertionBatcher.java:179 | the same round trip with a collected prefix |
| JavaStrings.SplitAllOfJoin | src/main/java/com/marklogic/mule/extension/connector/internal/operation/MarkLogicInsertionBatcher.java:179 | cutting the comma-joined comma-free pieces gives back those pieces |
| JavaStrings.DropTrailingEmpty | src/main/java/com/marklogic/mule/extension/connector/internal/operation/MarkLogicInsertionBatcher.java:179 | the result is a prefix of the pieces, does not end with an empty piece, and every dropped piece is empty |
| JavaStrings.Split | src/main/java/com/marklogic/mule/extension/connector/internal/operation/MarkLogicInsertionBatcher.java:179 | `String.split(",")`: text without a comma is a single piece (even when empty); otherwise the pieces with trailing empty pieces removed; no piece holds a comma |
| JavaStrings.SplitOfJoin | src/main/java/com/marklogic/mule/extension/connector/internal/operation/MarkLogicInsertionBatcher.java:190 | splitting the comma-joined comma-free pieces, the last one not empty, gives back exactly those pieces |
| JavaStrings.SplitOfCommasIsEmpty | src/main/java/com/marklogic/mule/extension/connector/internal/operation/MarkLogicInsertionBatcher.java:179-182 | "," and ",," split into no pieces at all, so the first piece the code reads does not exist |
| XmlRecords.AttributesMap | src/main/java/com/marklogic/mule/extension/connector/internal/result/resultset/MarkLogicXMLRecordExtractor.java:76-80 | the attribute map has a key exactly for each attribute name, and every value is the text of an attribute; AttributesMapLastWins states which |
| XmlRecords.AttributesMapLastWins | src/main/java/com/marklogic/mule/extension/connector/internal/result/resultset/MarkLogicXMLRecordExtractor.java:76-80 | the value under each name is the value of the last attribute of that name (a later `put` replaces an earlier one) |
| XmlRecords.ChildrenValues | src/main/java/com/marklogic/mule/extension/connector/internal/result/resultset/MarkLogicXMLRecordExtractor.java:83-85 | one flattened value per child node |
| XmlRecords.ChildrenValuesAt | src/main/java/com/marklogic/mule/extension/connector/internal/result/resultset/MarkLogicXMLRecordExtractor.java:83-85 | the i-th value is the flattening of the i-th child, so document order is kept |
| XmlRecords.ElementShape | src/main/java/com/marklogic/mule/extension/connector/internal/result/resultset/MarkLogicXMLRecordExtractor.java:67-86 | an element becomes a map with the single key of its name, holding a list that starts with the attribute map exactly when there are attributes, then one entry per child in order; length children + (attributes > 0 ? 1 : 0) |
| XmlRecords.LeafShape | src/main/java/com/marklogic/mule/extension/connector/internal/result/resultset/MarkLogicXMLRecordExtractor.java:88-103 | text, comment and processing-instruction nodes become their text content; any other non-element node an empty map |
| XmlRecords.CreateMapFromXml | src/main/java/com/marklogic/mule/extension/connector/internal/result/resultset/MarkLogicXMLRecordExtractor.java:65-104 | the flattening itself; ElementShape and LeafShape state its result for each node kind |
| XmlRecords.ElementKey | src/main/java/com/marklogic/mule/extension/connector/internal/result/resultset/MarkLogicXMLRecordExtractor.java:73 | the key of a flattened element is a key of the map and holds a list |
| XmlRecords.AttributesMapIsNotElement | src/main/java/com/marklogic/mule/extension/connector/internal/result/resultset/MarkLogicXMLRecordExtractor.java:74-81 | an attribute map is never mistaken for a flattened element |
| XmlRecords.ElementValueKey | src/main/java/com/marklogic/mule/extension/connector/internal/result/resultset/MarkLogicXMLRecordExtractor.java:73 | a single-key map holding a list is read back as an element under that key |
| XmlRecords.NamesPreserved | src/main/java/com/marklogic/mule/extension/connector/internal/result/resultset/MarkLogicXMLRecordExtractor.java:65-104 | reading the flattened value back gives the element names of the tree in document order |
| XmlRecords.ChildrenNamesPreserved | src/main/java/com/marklogic/mule/extension/connector/internal/result/resultset/MarkLogicXMLRecordExtractor.java:83-85 | the same for a list of children |
| XmlRecords.TextsPreserved | src/main/java/com/marklogic/mule/extension/connector/internal/result/resultset/MarkLogicXMLRecordExtractor.java:65-104 | reading the flattened value back gives the text, comment and processing-instruction contents of the tree in document order |
| XmlRecords.ChildrenTextsPreserved | src/main/java/com/marklogic/mule/extension/connector/internal/result/resultset/MarkLogicXMLRecordExtractor.java:83-85 | the same for a list of children |
| ExportListening.ExtractAll | src/main/java/com/marklogic/mule/extension/connector/internal/result/resultset/MarkLogicExportListener.java:43 | one extracted record per document, in order |
| ExportListening.ExtractAllSnoc | src/main/java/com/marklogic/mule/extension/connector/internal/result/resultset/MarkLogicExportListener.java:43 | extracting one more document appends its record |
| ExportListening.Step | src/main/java/com/marklogic/mule/extension/connector/internal/result/resultset/MarkLogicExportListener.java:32-46 | one callback: once latched nothing changes; the latch is set only when a positive cap finds the counter at or past it; the counter rises by at most one; the buffer gains at most the one extracted record |
| ExportListening.RunSnoc | src/main/java/com/marklogic/mule/extension/connector/internal/result/resultset/MarkLogicExportListener.java:32-46 | delivering one more document is one more callback step |
| ExportListening.RunClosedForm | src/main/java/com/marklogic/mule/extension/connector/internal/result/resultset/MarkLogicExportListener.java:32-46 | after n deliveries: counter is 0 without a cap, else min(n, cap+1); latched exactly when cap > 0 and n > cap; the records appended are the first min(n, cap) documents extracted (all n without a cap) |
| ExportListening.CapIsExact | src/main/java/com/marklogic/mule/extension/connector/internal/result/resultset/MarkLogicExportListener.java:36-44 | with a positive cap and at least cap deliveries exactly cap records are appended |
| ExportListening.UncappedKeepsAll | src/main/java/com/marklogic/mule/extension/connector/internal/result/resultset/MarkLogicExportListener.java:36 | with cap 0 (or below) every document is appended and the counter is never touched |
| ExportListening.RunExtends | src/main/java/com/marklogic/mule/extension/connector/internal/result/resultset/MarkLogicExportListener.java:34-38 | more deliveries only extend what was appended and raise the counter, and after the latch nothing changes at all |
| ExportListening.ExportListener.constructor | src/main/java/com/marklogic/mule/extension/connector/internal/result/resultset/MarkLogicExportListener.java:28-47 | the callback cap is the constructor argument; empty buffer, counter 0, latch clear |
| ExportListening.ExportListener.OnDocumentReady | src/main/java/com/marklogic/mule/extension/connector/internal/result/resultset/MarkLogicExportListener.java:32-46 | the three branches of the callback (latched: nothing; cap hit: latch set, counter +1, dropped; otherwise appended, counter +1 only when capped), agreeing with Step |
| ExportListening.ExportListener.ClearDocs | src/main/java/com/marklogic/mule/extension/connector/internal/result/resultset/MarkLogicExportListener.java:54-57 | the buffer is emptied; counter, latch and maxDocs are unchanged, so the cap spans the listener's lifetime |
| ExportListening.ExportListener.GetDocs | src/main/java/com/marklogic/mule/extension/connector/internal/result/resultset/MarkLogicExportListener.java:49-52 | the buffer, which after everything cleared out of it before is the first min(n, cap) delivered documents extracted in order |
| ExportListening.ExportListener.SetMaxDocs | src/main/java/com/marklogic/mule/extension/connector/internal/result/resultset/MarkLogicExportListener.java:64-67 | changes maxDocs (what getMaxDocs returns) and nothing the callback uses |
| ExportListening.ExportListener.GetMaxDocs | src/main/java/com/marklogic/mule/extension/connector/internal/result/resultset/MarkLogicExportListener.java:59-62 | the maxDocs field, which SetMaxDocs changes without changing the cap the callback enforces (SetMaxDocs states both) |
| ExportListening.LifetimeBound | src/main/java/com/marklogic/mule/extension/connector/internal/result/resultset/MarkLogicExportListener.java:25-44 | over the whole lifetime at most cap records were buffered (drained plus current), exactly cap once latched, they are the first deliveries extracted in order, and the counter stays within 0..cap+1 |
| ResultSet.Clamp | src/main/java/com/marklogic/mule/extension/connector/internal/result/resultset/MarkLogicResultSetIterator.java:98-101 | the value forced into a range, unchanged when already inside |
| ResultSet.PageAt | src/main/java/com/marklogic/mule/extension/connector/internal/result/resultset/MarkLogicResultSetIterator.java:99 | a page request at 1-based offset start returns at most len records, the store slice from start, and nothing past the end |
| ResultSet.Taken | src/main/java/com/marklogic/mule/extension/connector/internal/result/resultset/MarkLogicResultSetIterator.java:101-109 | the page loop takes at most the records available, at most the cap minus the counter, and all of them without a cap |
| ResultSet.PageLoopCount | src/main/java/com/marklogic/mule/extension/connector/internal/result/resultset/MarkLogicResultSetIterator.java:101-110 | the loop ends either having taken every record or by the cap break with the counter at the cap; either way it took Taken records and left the counter at CountAfter |
| ResultSet.TakeRecords | src/main/java/com/marklogic/mule/extension/connector/internal/result/resultset/MarkLogicResultSetIterator.java:100-110 | the page loop returns the fetched records in order, extracted, cut at the cap (Taken of them), and leaves the counter at CountAfter |
| ResultSet.NextKeepsInv | src/main/java/com/marklogic/mule/extension/connector/internal/result/resultset/MarkLogicResultSetIterator.java:98-111 | one next() keeps the cursor invariant: the records returned so far are a prefix of the store, all of them before start or exactly maxResults, and the counter matches |
| ResultSet.ResultSetIterator.constructor | src/main/java/com/marklogic/mule/extension/connector/internal/result/resultset/MarkLogicResultSetIterator.java:63-79 | page length overridden only when given, maxResults 0 when not given, start 1, counter 0 |
| ResultSet.ResultSetIterator.Next | src/main/java/com/marklogic/mule/extension/connector/internal/result/resultset/MarkLogicResultSetIterator.java:90-113 | the page is the records at the current offset extracted in store order, cut at the cap; start advances by exactly the page length; at most pageLength records; the counter is untouched without a cap; the fetched page is closed on both paths |
| ResultSet.ResultSetIterator.HasNext | src/main/java/com/marklogic/mule/extension/connector/internal/result/resultset/MarkLogicResultSetIterator.java:85 | no page fetched yet or another page reported, and the cap not reached; what it means for the records returned is stated by DrainedReturnsPrefix and HasNextWhileRecordsRemain |
| ResultSet.DrainedReturnsPrefix | src/main/java/com/marklogic/mule/extension/connector/internal/result/resultset/MarkLogicResultSetIterator.java:85 | once hasNext() is false after a fetch, the records returned are the first min(T, cap) records of the store in order (all T without a cap) |
| ResultSet.HasNextWhileRecordsRemain | src/main/java/com/marklogic/mule/extension/connector/internal/result/resultset/MarkLogicResultSetIterator.java:85 | the converse: after a fetch, while hasNext() is true fewer than min(T, cap) records (T without a cap) have been returned |
| ResultSet.CapBoundsReturned | src/main/java/com/marklogic/mule/extension/connector/internal/result/resultset/MarkLogicResultSetIterator.java:103-106 | with a positive cap the records returned over all next() calls never exceed it |
| InsertionBatching.PermissionsUpToGrants | src/main/java/com/marklogic/mule/extension/connector/internal/operation/MarkLogicInsertionBatcher.java:190-215 | after the first n pairs, a role holds a capability exactly when one of those adjacent pairs names the role and then that capability |
| InsertionBatching.PermissionsOfGrants | src/main/java/com/marklogic/mule/extension/connector/internal/operation/MarkLogicInsertionBatcher.java:190-215 | a role holds a capability exactly when some adjacent pair (p[i], p[i+1]), i < len-1, names the role and then the capability in any letter case; pairs naming no capability add nothing |
| InsertionBatching.PermissionsOf | src/main/java/com/marklogic/mule/extension/connector/internal/operation/MarkLogicInsertionBatcher.java:190-215 | the permission loop on values, stated by PermissionsOfGrants and ParsePermissions |
| InsertionBatching.CapabilityNames | src/main/java/com/marklogic/mule/extension/connector/internal/operation/MarkLogicInsertionBatcher.java:195-212 | worked example of CapabilityCaseInsensitive: "read" names read and "UPDATE" names update |
| InsertionBatching.CapabilityCaseInsensitive | src/main/java/com/marklogic/mule/extension/connector/internal/operation/MarkLogicInsertionBatcher.java:195 | every entry names the same capability as its lower-cased form, so capability names match in any ASCII letter case |
| InsertionBatching.CapabilityOf | src/main/java/com/marklogic/mule/extension/connector/internal/operation/MarkLogicInsertionBatcher.java:195-212 | the capability a lower-cased entry names, if any, stated by CapabilityCaseInsensitive, CapabilityNames and RoleIsNoCapability |
| InsertionBatching.RoleIsNoCapability | src/main/java/com/marklogic/mule/extension/connector/internal/operation/MarkLogicInsertionBatcher.java:195-213 | a role name such as rest-writer names no capability and falls to the default branch |
| InsertionBatching.DefaultPermissionsSplit | src/main/java/com/marklogic/mule/extension/connector/internal/operation/MarkLogicInsertionBatcher.java:190 | worked example: "rest-reader,read,rest-writer,update" splits into its four entries |
| InsertionBatching.DefaultPermissions | src/main/java/com/marklogic/mule/extension/connector/internal/operation/MarkLogicInsertionBatcher.java:190-215 | worked example of PermissionsOfGrants: the entries rest-reader, read, rest-writer, update grant exactly read to rest-reader and update to rest-writer; the middle pair grants nothing |
| InsertionBatching.CapitalisedCapability | src/main/java/com/marklogic/mule/extension/connector/internal/operation/MarkLogicInsertionBatcher.java:195 | worked example of CapabilityNames: the entries rest-reader, read, rest-writer, UPDATE grant the same |
| InsertionBatching.AdjacentPairs | src/main/java/com/marklogic/mule/extension/connector/internal/operation/MarkLogicInsertionBatcher.java:191-215 | for any list reader, r, writer, u where r names read, writer no capability and u update, stepping by one grants exactly read to reader and update to writer: the middle pair is skipped |
| InsertionBatching.CollectionsOf | src/main/java/com/marklogic/mule/extension/connector/internal/operation/MarkLogicInsertionBatcher.java:182-185 | no collections when the first entry is exactly "null"; otherwise exactly the entries |
| InsertionBatching.ParsePermissions | src/main/java/com/marklogic/mule/extension/connector/internal/operation/MarkLogicInsertionBatcher.java:190-215 | the permission loop computes PermissionsOf of the split list |
| InsertionBatching.BuildMetadata | src/main/java/com/marklogic/mule/extension/connector/internal/operation/MarkLogicInsertionBatcher.java:178-215 | fails (the ArrayIndexOutOfBounds of configCollections[0]) exactly when the collection list splits into nothing; otherwise collections, permissions and quality as above |
| InsertionBatching.MergeSpec | src/main/java/com/marklogic/mule/extension/connector/internal/operation/MarkLogicInsertionBatcher.java:229-304 | each total is the persisted count (0 when absent) plus the live count; outcome "failed" exactly when merged failed events > 0, else "successful"; jobID and jobStartTime persisted when present, else the ticket id and live start time |
| InsertionBatching.Merge | src/main/java/com/marklogic/mule/extension/connector/internal/operation/MarkLogicInsertionBatcher.java:281-304 | the merge of a persisted instance with the live counters, stated by MergeSpec |
| InsertionBatching.BuildReport | src/main/java/com/marklogic/mule/extension/connector/internal/operation/MarkLogicInsertionBatcher.java:226-314 | the report built from the persisted document, failing on a missing envelope or jobID; stated by CreateJsonJobReport, ReportContinuity and WrittenReportUnreadable |
| InsertionBatching.ReportContinuity | src/main/java/com/marklogic/mule/extension/connector/internal/operation/MarkLogicInsertionBatcher.java:255-296 | a report stored as the `envelope.instance` of its document (for example by a configured server transform) and read back into the next report carries its totals forward and keeps the first ticket and start time |
| InsertionBatching.WrittenReportUnreadable | src/main/java/com/marklogic/mule/extension/connector/internal/operation/MarkLogicInsertionBatcher.java:252-256 | the report as the connector itself writes it (flat fields, no `envelope`) fails the next report build with a NullPointerException |
| InsertionBatching.NullSpellings | src/main/java/com/marklogic/mule/extension/connector/internal/operation/MarkLogicInsertionBatcher.java:127-132 | the report URI is switched off only by the exact text "null", the temporal collection by "null" in any letter case |
| InsertionBatching.WrapInt32 | src/main/java/com/marklogic/mule/extension/connector/internal/operation/MarkLogicInsertionBatcher.java:151-173 | the 32-bit two's-complement value of an integer |
| InsertionBatching.FlushPeriodWraps | src/main/java/com/marklogic/mule/extension/connector/internal/operation/MarkLogicInsertionBatcher.java:164 | secondsBeforeFlush*1000 is an int product: 2147483 s gives 2147483000 ms, 2147484 s wraps to a negative period |
| InsertionBatching.FlushPeriodMs | src/main/java/com/marklogic/mule/extension/connector/internal/operation/MarkLogicInsertionBatcher.java:164 | the timer period as the int product secondsBeforeFlush*1000, stated by FlushPeriodWraps and TimerAcceptedRange |
| InsertionBatching.TimerAcceptedRange | src/main/java/com/marklogic/mule/extension/connector/internal/operation/MarkLogicInsertionBatcher.java:151-173 | a flush delay of 1..2147483 s gives the exact period and an accepted timer; a delay of -2147483..0 s is rejected |
| InsertionBatching.InitOutcomeOf | src/main/java/com/marklogic/mule/extension/connector/internal/operation/MarkLogicInsertionBatcher.java:151-187 | how initializeBatcher ends, stated by InitializeBatcher, ScheduleAndStart and TimerAcceptedRange |
| InsertionBatching.FlushDue | src/main/java/com/marklogic/mule/extension/connector/internal/operation/MarkLogicInsertionBatcher.java:164 | the timer's idle test; its meaning over repeated ticks is stated by ForcedFlushesAfter and ForcedFlushesSpaced |
| InsertionBatching.ForcedFlushesAfter | src/main/java/com/marklogic/mule/extension/connector/internal/operation/MarkLogicInsertionBatcher.java:158-173 | over any run of ticks with no write in between, no tick forces a flush before the pipe has been idle the threshold since the last write time |
| InsertionBatching.ForcedFlushesSpaced | src/main/java/com/marklogic/mule/extension/connector/internal/operation/MarkLogicInsertionBatcher.java:158-173 | over any run of ticks with no write in between (each tick reading the clock for its test and again after its flush), two forced flushes are at least 900000 ms plus the threshold apart |
| InsertionBatching.ReportInitDocuments | src/main/java/com/marklogic/mule/extension/connector/internal/operation/MarkLogicInsertionBatcher.java:408-418 | the report store loses at most the report document, and only under OVERWRITE on the first initialisation with a configured URI; every other document survives unchanged |
| InsertionBatching.InsertionBatcher.InitializeJobReportBatcher | src/main/java/com/marklogic/mule/extension/connector/internal/operation/MarkLogicInsertionBatcher.java:408-418 | deletes an existing report document only under OVERWRITE before the first initialisation, and sets the initialised flag so later calls never delete |
| InsertionBatching.InsertionBatcher.InitializeBatcher | src/main/java/com/marklogic/mule/extension/connector/internal/operation/MarkLogicInsertionBatcher.java:104-219 | stores connection, URI and strategy; opens the report manager when the URI is not "null"; temporal collection unless "null" in any case; wrapped flush period; the timer is rejected for a period <= 0; collections missing fail before the ticket; otherwise metadata from the lists and a new job ticket |
| InsertionBatching.InsertionBatcher.ScheduleAndStart | src/main/java/com/marklogic/mule/extension/connector/internal/operation/MarkLogicInsertionBatcher.java:150-218 | the timer period is the wrapped product; a period <= 0 is rejected before anything else; an empty collection split stops before the ticket; otherwise the metadata from both lists and the new job ticket |
| InsertionBatching.InsertionBatcher.Tick | src/main/java/com/marklogic/mule/extension/connector/internal/operation/MarkLogicInsertionBatcher.java:164-171 | flushes exactly when now - lastWriteTime >= threshold, then sets lastWriteTime to 900000 past the clock read again after the flush, so no flush follows before that reading + 900000 + threshold |
| InsertionBatching.InsertionBatcher.DoInsert | src/main/java/com/marklogic/mule/extension/connector/internal/operation/MarkLogicInsertionBatcher.java:366-376 | queues the document with the batcher metadata, sets lastWriteTime to now, returns the unchanged ticket id |
| InsertionBatching.InsertionBatcher.CreateJsonJobReport | src/main/java/com/marklogic/mule/extension/connector/internal/operation/MarkLogicInsertionBatcher.java:226-314 | the counter-accumulating method returns BuildReport of the persisted document, whose merge MergeSpec states; a missing envelope or jobID is a NullPointerException |
| InsertionBatching.InsertionBatcher.MarkLogicConnectionInvalidated | src/main/java/com/marklogic/mule/extension/connector/internal/operation/MarkLogicInsertionBatcher.java:390-401 | queues the report when the report manager is open, and sets batcherRequiresReinit unless building the report throws |
| InsertionBatching.BatcherRegistry.GetInstance | src/main/java/com/marklogic/mule/extension/connector/internal/operation/MarkLogicInsertionBatcher.java:326-345 | creates an instance only when none exists; reinitialises only for a non-null, different connection with the reinit flag set, then clears the flag; otherwise returns the existing instance unchanged. A created or reinitialised instance is in the state a successful initializeBatcher leaves (StartedWith: connection, report URI and strategy, temporal collection, wrapped flush period, metadata parsed from the settings, new ticket); a created one has queued nothing, and reinitialising keeps the queued writes, last write time and forced-flush count |
| InsertionBatching.BatcherRegistry.CurrentInstance | src/main/java/com/marklogic/mule/extension/connector/internal/operation/MarkLogicInsertionBatcher.java:352-355 | the current instance without initialising anything; GetJobReport relies on it |
| Operations.OutputUri | src/main/java/com/marklogic/mule/extension/connector/internal/operation/MarkLogicOperations.java:83 | the URI length is the sum of the three rendered parts |
| Operations.OutputUriParts | src/main/java/com/marklogic/mule/extension/connector/internal/operation/MarkLogicOperations.java:169 | the URI is exactly prefix, then basename, then suffix, a null part rendered as "null" |
| Operations.OutputUriInjective | src/main/java/com/marklogic/mule/extension/connector/internal/operation/MarkLogicOperations.java:169 | with the same prefix and suffix, different basenames give different URIs |
| Operations.OutputBasenameSpec | src/main/java/com/marklogic/mule/extension/connector/internal/operation/MarkLogicOperations.java:158-166 | the given basename is used exactly when generation is off and it is not null, "null" or empty; otherwise the fresh identifier |
| Operations.OutputBasename | src/main/java/com/marklogic/mule/extension/connector/internal/operation/MarkLogicOperations.java:158-166 | the basename choice; OutputBasenameSpec and BlankBasenameKept state when the given name is kept |
| Operations.BlankBasenameKept | src/main/java/com/marklogic/mule/extension/connector/internal/operation/MarkLogicOperations.java:163-166 | a basename of blanks is kept verbatim (no trim) |
| Operations.ImportDocs | src/main/java/com/marklogic/mule/extension/connector/internal/operation/MarkLogicOperations.java:109-173 | the payload is queued under prefix + basename + suffix with the batcher metadata and the job ticket is returned; when this call created or reinitialised the batcher, that metadata holds the collections, permissions and quality parsed from the settings and the ticket is the new one; an existing instance that needs no reinit is reused, and then the ticket returned and the metadata queued are that instance's own, so successive imports on one job return the same ticket |
| Operations.GetJobReport | src/main/java/com/marklogic/mule/extension/connector/internal/operation/MarkLogicOperations.java:206-226 | exportResults is always empty; importResults is absent without a batcher and holds exactly its one report otherwise |
| Operations.IsDefinedIgnoresPadding | src/main/java/com/marklogic/mule/extension/connector/internal/operation/MarkLogicOperations.java:594-597 | isDefined depends only on the trimmed text |
| Operations.IsDefined | src/main/java/com/marklogic/mule/extension/connector/internal/operation/MarkLogicOperations.java:594-597 | non-null, not empty after trimming, and not the literal "null" once trimmed; IsDefinedIgnoresPadding states that padding never matters |
| Operations.QueryOptions | src/main/java/com/marklogic/mule/extension/connector/internal/operation/MarkLogicOperations.java:428 | the options name is passed on exactly when defined, else null |
| Operations.QueryPageLength | src/main/java/com/marklogic/mule/extension/connector/internal/operation/MarkLogicOperations.java:446-453 | a page length below 1 becomes the batch size; null and positive lengths pass unchanged |
| Operations.EffectivePageLengthPositive | src/main/java/com/marklogic/mule/extension/connector/internal/operation/MarkLogicOperations.java:446-453 | with a positive batch size and default, the cursor page length is always positive |
| Operations.QueryPager.constructor | src/main/java/com/marklogic/mule/extension/connector/internal/operation/MarkLogicOperations.java:407-457 | an uninitialised query pager over the given store and settings |
| Operations.QueryPager.GetPage | src/main/java/com/marklogic/mule/extension/connector/internal/operation/MarkLogicOperations.java:407-457 | the cursor is created on the first call only; each call returns the cursor's next page and leaves the cursor's offset advanced by the page length, its counter at CountAfter and its returned records extended by the page's records, so consecutive calls chain and DrainedReturnsPrefix applies to the cursor |
| Operations.ExportMaxResults | src/main/java/com/marklogic/mule/extension/connector/internal/operation/MarkLogicOperations.java:517 | an absent maxResults becomes 0 (no cap) |
| Operations.ExportPager.constructor | src/main/java/com/marklogic/mule/extension/connector/internal/operation/MarkLogicOperations.java:517-518 | the listener is built with that cap |
| Operations.ExportPager.GetPage | src/main/java/com/marklogic/mule/extension/connector/internal/operation/MarkLogicOperations.java:529-577 | the job runs on the first call only; each call returns the buffer in order and leaves it empty, so the first page is the first min(n, cap) matches and later pages are empty |

## Left out

- **MarkLogic client and Data Movement SDK calls** are abstract state.
  - The report document store is a map from URI to document.
  - Queued writes are a sequence of `Write` records.
  - A query's matches are a sequence of store records.
  - The live job report is a `LiveReport` parameter.
  - What `startJob`, `flushAndWait`, `addAs`, `search`, `read` and `delete`
    do inside the database is not modelled.
- **Threads, the timer and atomics.**
  - Each listener callback and each timer run is one sequential step.
  - The timer is the `Tick(now, afterFlush)` method. Each clock reading is a
    parameter: `now` for the idle test, `afterFlush` for the reading taken
    once the flush has completed.
  - Timer cancellation and replacement are not modelled. `timerScheduled`
    records only whether scheduling succeeded.
- **JSON building and date/time handling.**
  - Reports are records of integers and opaque strings.
  - Parsing and formatting of times, time zones and `toZonedDateTime` are
    not modelled.
  - A stored `jobID` that is JSON null (which `asText` turns into "null") is
    not distinguished from a present one.
- **The written report is not read back from the write log.** The report
  that MarkLogicConnectionInvalidated queues is a flat object with no
  `envelope`, while the report read expects `envelope.instance`. Without a
  server transform that re-wraps it, reading it back fails
  (WrittenReportUnreadable). The model does not connect the write log to the
  report store, so ReportContinuity assumes the wrapped form.
- **The retry-once of the report read** on `IllegalStateException` is not
  modelled. That exception depends on client session state.
- **UUIDs and job ticket ids** are parameters: `freshId` and `newTicketId`.
- **Record extraction** (`MarkLogicRecordExtractor.extractRecord` and
  `extractSingleRecord`) is an opaque function parameter `extract`.
  - MarkLogicRecordExtractor is not part of this model.
  - Neither is `MarkLogicXMLRecordExtractor.extractRecord`, which reads a
    foreign handle.
- **Operations outside the modelled core:**
  - deleteDocs, retrieveInfo and selectDocsByStructuredQuery;
  - the flowListener error handler and the result set closer;
  - server transforms, batch size and thread count of the export job;
  - the consistent snapshot;
  - getTotalResults and close of the paging providers;
  - logging.
- **MarkLogicConfiguration** is not part of this model. Its settings arrive
  as the `BatcherSettings` record.
- **The call sites disagree with the declarations.**
  - importDocs passes transform arguments where getInstance expects the
    report URI and strategy.
  - getJobReport calls createJsonJobReport with an argument that the
    declaration does not take.
  - Each method is modelled by its own declaration. `ImportDocs` takes the
    settings record.
- **Case folding is ASCII only.** `toLowerCase` and `equalsIgnoreCase` on
  non-ASCII letters are not modelled.
- **Null settings strings are not modelled.** `outputCollections` and
  `outputPermissions` are always present. A null would throw at the split.
- **The report strategy** is reduced to OVERWRITE versus everything else
  (`KeepExisting`).
- **Integers.**
  - Report totals and listener and cursor counters are unbounded integers.
    Java `long` overflow is not modelled.
  - The one `int` product that matters, `secondsBeforeFlush * 1000`, is
    wrapped explicitly.
- **Hash ordering.**
  - Metadata collections are a set, so duplicates and order are irrelevant
    to the metadata handle.
  - Permissions are a map from role to a set of capabilities.
- InsertionBatching.InsertionBatcher.InitializeBatcher: when scheduling the
  timer throws (period <= 0), the job is not started and the metadata is
  left as it was. A failed initialisation is reported as an outcome rather
  than an exception, and GetInstance then returns no batcher.
- JavaStrings.LowerChar: assumes the JVM default locale is neither Turkish
  nor Azeri. `toLowerCase()` without a locale lowers 'I' to dotless 'ı'
  (U+0131) there, so "INSERT" would name no capability. The model lowers
  every ASCII upper-case letter by +32, and CapabilityCaseInsensitive holds
  only under that assumption.
- ResultSet.ResultSetIterator.Next: for a negative page length the source
  throws IllegalArgumentException when it sizes the page list, after the
  offset has already advanced. The model advances the offset the same way
  but returns an empty page instead of the exception. A batch size that
  parses negative, or a negative default page length, reaches this.
- ResultSet.DrainedReturnsPrefix: stated for a non-negative cap and a
  positive page length. A page length of 0 never advances the cursor, and
  a negative cap behaves as capped in hasNext but uncapped in next.
