# statsd Elasticsearch backend: a Dafny model of `lib/elasticsearch.js`

The backend receives statsd's periodic flush and exports one snapshot of metrics
to Elasticsearch as a single bulk request. This project models the
deterministic core of that file:

- **Metric names.** A dotted metric name such as `app.web.login.count` is split
  on `.`. Its first four parts become the fields `ns`, `grp`, `tgt` and `act`,
  with `''` for a missing or empty part.
- **`flush_stats`.** Counters give one document each, except those whose group
  is `packets_recieved` or `bad_lines_seen` (spelled as in the code). Timers give
  one document per sample. Each `timer_data` record is stamped in place with the
  timestamp (the flush time times 1000) and the four name fields, and a truthy
  `histogram` is flattened into the record and deleted. `numStats` counts kept
  counters and `timer_data` records.
- **`es_bulk_insert` up to the HTTP call.**
  - The index name is `prefix-YYYY`, then `.MM` and `.DD` depending on
    `indexTimestamp`.
  - The payload is a header line then a document line per document: counters,
    then timers, then timer statistics under the type `<timerType>_stats`.
  - The request path is `path + index + '/' + '/_bulk'`.
  - A response is an error exactly when its status is 5xx.
- **`init` and the status handler.** `init` fills in every setting with its
  `x || default` fallback and records the startup time in `elasticStats`. The
  status handler reports each entry of `elasticStats`.

Module by module:

| file | module | what it holds |
|---|---|---|
| `wrappers.dfy` | `Wrappers` | `Option` |
| `text.dfy` | `Text` | `split`/`join` on one character, newline-terminated lines, decimal text of integers |
| `documents.dfy` | `Documents` | JavaScript objects as ordered field lists: read, assign, delete |
| `metric_key.dfy` | `MetricKey` | decomposition of a metric name |
| `index_name.dfy` | `IndexName` | the dated index name |
| `config.dfy` | `Config` | the `elasticsearch` configuration section and the settings `init` derives |
| `bulk.dfy` | `Bulk` | payload serialisation, request path, the 5xx test, the `es_bulk_insert` loops |
| `flush.dfy` | `Flush` | the documents of one flush, the `timer_data` record class, the `flush_stats` loops |
| `backend.dfy` | `Backend` | the module state (settings and `elasticStats`) with `init`, status and flush handlers |

How the code is represented:

- **Objects.** A JavaScript object is a sequence of named fields, because
  `for..in` walks it and the payload serialises it in that order. Assigning an
  existing name keeps its place, a new name is appended, and `delete` removes
  the field. The three metric maps of a snapshot are sequences of
  (name, value) pairs in `for..in` order.
- **Values.** A primitive value is known by the text string concatenation
  gives it and by its truthiness. A nested object is a field list and
  serialises as `[object Object]`.
- **State.** A `timer_data` record is a `Flush.Record` object whose field list
  the flush replaces in place. The module-level variables of the file are the
  fields of `Backend.ElasticBackend`.
- **Loops.** Each loop of the code is a `while` loop in a method, proved
  against a function that specifies its result. The properties of that result
  are lemmas about the function.

Behaviour as written, which the model follows:

- Every value is written as a quoted string (`"val":"42"`). Numbers never appear
  as JSON numbers, and the timestamp is quoted too.
- `init` assigns the timer type twice (lines 226-227). The second assignment,
  `timerDataType || 'timer_data'`, always wins, so the `timerType` setting has no
  effect.
- The excluded counter group is spelled `packets_recieved`. A group spelled
  `packets_received` is exported.
- The request path has a doubled slash before `_bulk`.
- `elasticStats` is written only by `init`. A flush never changes it.

## Model

| member | source | states |
|---|---|---|
| Text.Split | lib/elasticsearch.js:140 | `key.split('.')` gives at least one part, and no part contains the separator |
| Text.JoinSplit | lib/elasticsearch.js:140 | joining the parts of a split with the separator gives back the original string |
| Text.SplitJoin | lib/elasticsearch.js:140 | splitting a join of separator-free parts gives back exactly those parts |
| Text.SplitAppend | lib/elasticsearch.js:140 | splitting `a + sep + b` gives the parts of `a` followed by the parts of `b` |
| Text.SplitTerminated | lib/elasticsearch.js:62-92 | splitting newline-terminated, newline-free lines on newlines gives the lines back, then one empty text |
| Text.TerminatedAppend | lib/elasticsearch.js:62-92 | terminating two lists of lines one after the other gives the same text as terminating their concatenation |
| Text.NatText | lib/elasticsearch.js:44 | the decimal text of a natural number is non-empty and all digits, denotes that number, and starts with '0' only when it is "0" itself |
| Text.IntText | lib/elasticsearch.js:44 | the text of an integer is the decimal digits of its magnitude, preceded by '-' exactly when it is negative, with no leading zero (only zero itself is "0") |
| MetricKey.Decompose | lib/elasticsearch.js:140-148 | decomposition is total, and none of the four fields contains a dot |
| MetricKey.DecomposeJoin | lib/elasticsearch.js:140-148 | a name made of dot-free parts decomposes into parts 0-3, with `''` for each missing part; later parts appear in no field |
| MetricKey.DecomposeCompose | lib/elasticsearch.js:140-148 | decomposing the dotted name of four dot-free fields gives those fields back |
| MetricKey.DecomposeIgnoresTail | lib/elasticsearch.js:140-148 | text after the fourth part of a name does not change its fields |
| Documents.Get | lib/elasticsearch.js:180 | `d[k]`: the value of the field named `k`, or nothing; its meaning is stated by `GetNone`, `SetFieldGet` and `DeleteFieldGet` |
| Documents.SetField | lib/elasticsearch.js:175-182 | `d[k] = v` on an ordered field list: replace in place or append; stated by `SetFieldGet`, `SetFieldNames`, `SetFieldUnique` |
| Documents.DeleteField | lib/elasticsearch.js:184 | `delete d[k]`: drop the field, keep the others in order; stated by `DeleteFieldGet`, `DeleteFieldNames`, `DeleteFieldUnique` |
| Documents.GetNone | lib/elasticsearch.js:180 | reading a name gives `undefined` exactly when no field has that name |
| Documents.SetFieldGet | lib/elasticsearch.js:175-179 | after `d[k] = v`, `k` reads `v` and every other name reads as before |
| Documents.SetFieldNames | lib/elasticsearch.js:175-182 | assignment keeps names and their order, and appends a new name at the end |
| Documents.SetFieldUnique | lib/elasticsearch.js:175-182 | assignment keeps the names of an object distinct |
| Documents.DeleteFieldGet | lib/elasticsearch.js:184 | after `delete d[k]`, `k` reads nothing and every other name reads as before |
| Documents.DeleteFieldNames | lib/elasticsearch.js:184 | after deletion the names are the former names without `k`, every other name kept in its enumeration order |
| Documents.DeleteFieldUnique | lib/elasticsearch.js:184 | deletion keeps the names of an object distinct |
| IndexName.Pad2 | lib/elasticsearch.js:47-49 | a month or day below 100 becomes two decimal digits denoting it, with a leading '0' exactly when it is below 10 |
| IndexName.Resolve | lib/elasticsearch.js:44-60 | `statsdIndex`: prefix, `-`, year, then `.MM` for "month" or "day" and `.DD` for "day"; stated by `ResolveIsJoin`, `ResolveParts`, `ResolveExample` |
| IndexName.ResolveIsJoin | lib/elasticsearch.js:44-60 | the index name is its segments (`prefix-YYYY`, then the month and day segments the setting selects) joined by dots |
| IndexName.ResolveParts | lib/elasticsearch.js:44-60 | for a dot-free prefix, split on dots, the name is `prefix-YYYY`, then a two-digit month exactly for "month" or "day", then a two-digit day exactly for "day"; any other setting gives the year alone |
| IndexName.ResolveExample | lib/elasticsearch.js:44-60 | on 2024-03-05 with prefix "statsd": "statsd-2024.03.05", "statsd-2024.03", and "statsd-2024" for "year" and for an unknown setting |
| Config.OrText | lib/elasticsearch.js:220-227 | `x \|\| d` on a string gives `x` when it is present and non-empty, otherwise `d` |
| Config.OrPort | lib/elasticsearch.js:221 | `x \|\| 9200` on the port gives `x` when it is present and non-zero, otherwise the default |
| Config.Configure | lib/elasticsearch.js:218-227 | after the fallbacks, no setting is empty and the port is not 0 |
| Config.ConfigureDefaults | lib/elasticsearch.js:218-227 | without an `elasticsearch` section, or with an empty one, the settings are localhost, 9200, "/", "statsd", "day", "counter", "timer_data" |
| Config.TimerTypeIgnored | lib/elasticsearch.js:226-227 | changing `timerType` changes no setting; the timer type is `timerDataType` when non-empty, else "timer_data" |
| Bulk.FieldText | lib/elasticsearch.js:69 | one rendered field `"name":"value"`; stated by `FieldTextQuoted` |
| Bulk.DocLine | lib/elasticsearch.js:65-71 | a document line: `{`, the fields joined by commas, `}`; stated by `DocLineSplitsIntoFields` and `InnerPayload` |
| Bulk.Header | lib/elasticsearch.js:64 | the action line naming `_index` and `_type` (also lines 74 and 84) |
| Bulk.PairLines | lib/elasticsearch.js:63-72 | one section of the payload: header then document line per document; stated by `PairLinesAt`, `PairLinesShape`, `AppendPairs` |
| Bulk.BulkLines | lib/elasticsearch.js:62-92 | the three sections in order with types count type, timer type, timer type + "_stats"; stated by `BulkLinesShape`, `BulkBody` |
| Bulk.RequestFor | lib/elasticsearch.js:94-103 | host, port, path and newline-terminated payload for one flush; stated by `BulkInsert` and `FlushStats` |
| Bulk.RequestPath | lib/elasticsearch.js:97 | the path is the base path, then the index name, then exactly "//_bulk" |
| Bulk.IsServerError | lib/elasticsearch.js:107 | `Math.floor(status / 100) == 5` holds exactly for statuses 500 to 599 |
| Bulk.InnerPayload | lib/elasticsearch.js:66-70 | the inner loop leaves the rendered fields joined by single commas, with no leading or trailing comma |
| Bulk.AppendPairs | lib/elasticsearch.js:63-72 | one outer loop appends a newline-terminated header line and document line per document, in order, to the payload built so far |
| Bulk.BulkBody | lib/elasticsearch.js:62-92 | the payload is the newline-terminated lines of the counters, then the timers, then the timer statistics |
| Bulk.BulkInsert | lib/elasticsearch.js:42-103 | the request carries the configured host and port, the path for the index of the given date, and that payload |
| Bulk.PairLinesAt | lib/elasticsearch.js:63-72 | a section has two lines per document; line 2k is the header and line 2k+1 is document k |
| Bulk.PairLinesShape | lib/elasticsearch.js:63-72 | every header of a section names the same index and type, and document lines follow the document order |
| Bulk.BulkLinesShape | lib/elasticsearch.js:62-92 | the payload has 2 × (number of documents) lines, strictly alternating header and document; pair k carries document k of counters, timers, timer statistics in that order, under one index name and the type of its section (count type, timer type, timer type + "_stats") |
| Bulk.PayloadSplitsIntoLines | lib/elasticsearch.js:62-92 | when no text contains a newline, splitting the payload on newlines gives exactly its lines, then the empty text after the final newline |
| Bulk.DocLineSplitsIntoFields | lib/elasticsearch.js:65-71 | a document line is '{', its rendered fields separated by single commas, '}'; when no name or value contains a comma, splitting recovers the fields in order |
| Bulk.FieldTextQuoted | lib/elasticsearch.js:69 | a field renders as `"name":"value"`: the value is always quoted, numbers included |
| Flush.ExcludedGroup | lib/elasticsearch.js:143 | the two excluded groups, `packets_recieved` and `bad_lines_seen`, spelled as the code spells them |
| Flush.MetricDoc | lib/elasticsearch.js:144-151 | the counter and timer document; stated by `MetricDocFields` |
| Flush.CounterDocs | lib/elasticsearch.js:139-155 | the counter documents; stated by `CounterKept`, `CounterDropped`, `CounterDocOrigin`, `CounterDocsAppend`, `CollectCounters` |
| Flush.SeriesDocs | lib/elasticsearch.js:160-169 | the documents of one timer series; stated by `SeriesDocsShape` |
| Flush.TimerDocs | lib/elasticsearch.js:157-170 | the timer documents, series after series; stated by `TimerDocsAppend`, `TimerDocsCount`, `CollectTimers` |
| Flush.StampKey | lib/elasticsearch.js:175-179 | the five opening assignments of the `timer_data` loop body; stated by `StampKeyGet`, `StampKeyNames` |
| Flush.CopyEntries | lib/elasticsearch.js:181-183 | the histogram copy loop; stated by `CopyEntriesGet`, `CopyEntriesUnique`, `Record.Stamp` |
| Flush.StampRecord | lib/elasticsearch.js:175-185 | a record after the whole loop body; stated by `StampRecordGet`, `StampRecordUnique`, `Record.Stamp` |
| Flush.TimerDataDocs | lib/elasticsearch.js:172-188 | the stamped records in order, one per record; stated by `TimerDataDocsAt`, `TimerDataDocsSnoc`, `StampTimerData` |
| Flush.MetricDocFields | lib/elasticsearch.js:144-151 | a counter or timer document has the fields ns, grp, tgt, act, val, @timestamp in that order, with distinct names, each holding its value |
| Flush.CounterDocsAppend | lib/elasticsearch.js:139-155 | counters give their documents in input order: two stretches of counters give their documents one after the other |
| Flush.CounterKept | lib/elasticsearch.js:139-155 | every counter outside the excluded groups gives exactly one document, `{ns,grp,tgt,act,val=value,@timestamp=t}`, between the documents of the counters before it and those of the counters after it |
| Flush.CounterDropped | lib/elasticsearch.js:143 | a counter in group `packets_recieved` or `bad_lines_seen` gives no document and leaves the others as they are |
| Flush.CounterDocOrigin | lib/elasticsearch.js:139-155 | every counter document is the document of some counter outside the excluded groups |
| Flush.SeriesDocsShape | lib/elasticsearch.js:160-169 | a series of n samples gives n documents in sample order, the i-th with `val` equal to sample i and the series' name fields |
| Flush.TimerDocsAppend | lib/elasticsearch.js:157-170 | timer series give their documents in map order, and sample counts add up |
| Flush.TimerDocsCount | lib/elasticsearch.js:157-170 | the number of timer documents is the number of samples, not of series |
| Flush.TimerDataDocsSnoc | lib/elasticsearch.js:172-188 | each `timer_data` record adds its stamped document after those of the records before it |
| Flush.TimerDataDocsAt | lib/elasticsearch.js:172-188 | document i of the `timer_data` section is record i after the loop body |
| Flush.StampKeyGet | lib/elasticsearch.js:175-179 | after the five assignments, @timestamp reads the timestamp and ns/grp/tgt/act read the decomposed name; every other name reads as before |
| Flush.StampKeyNames | lib/elasticsearch.js:175-179 | the five assignments keep every existing field in its place |
| Flush.CopyEntriesGet | lib/elasticsearch.js:180-183 | after the histogram copy, each histogram name reads its entry (overriding a field of that name) and every other name reads as before |
| Flush.CopyEntriesUnique | lib/elasticsearch.js:180-183 | the histogram copy keeps the names of the record distinct |
| Flush.StampRecordGet | lib/elasticsearch.js:175-185 | a stamped record, field by field: with a truthy histogram, `histogram` is gone and the histogram entries win; otherwise the five stamped names read their stamp; every other field is unchanged. The stamp does not change whether the histogram is truthy |
| Flush.StampRecordUnique | lib/elasticsearch.js:175-185 | a stamped record keeps distinct names, and with a truthy histogram no `histogram` field remains |
| Flush.FlushLineCount | lib/elasticsearch.js:125-201 | the payload of a flush has 2 × (kept counters + timer samples + `timer_data` records) lines |
| Flush.Record.Stamp | lib/elasticsearch.js:174-185 | the loop body, run in place on a record, leaves the stamped record |
| Flush.CollectCounters | lib/elasticsearch.js:139-155 | the counters loop collects the counter documents and adds one to `numStats` per kept counter |
| Flush.CollectTimers | lib/elasticsearch.js:157-170 | the nested timers loop collects one document per sample, series after series |
| Flush.StampNext | lib/elasticsearch.js:173-187 | one iteration stamps record i in place and collects it; records before it stay stamped, records after it stay untouched |
| Flush.StampTimerData | lib/elasticsearch.js:172-188 | the `timer_data` loop stamps every record in place, collects the stamped records in order, and adds one to `numStats` per record |
| Flush.FlushStats | lib/elasticsearch.js:125-206 | the request carries the counter, timer and stamped `timer_data` documents for `ts * 1000`; every record object now holds its stamped document; `numStats` is kept counters plus records |
| Backend.StartStats | lib/elasticsearch.js:230-231 | `elasticStats` after `init`; stated by `StartStatsGet`, `StartStatsFresh`, `ElasticBackend.Init` |
| Backend.StartStatsGet | lib/elasticsearch.js:230-231 | after `init`, `last_flush` and `last_exception` read the startup time and every other entry is unchanged |
| Backend.StartStatsFresh | lib/elasticsearch.js:230-231 | on an empty `elasticStats`, `init` leaves exactly `last_flush` then `last_exception` |
| Backend.ElasticBackend.constructor | lib/elasticsearch.js:37 | the module starts with an empty `elasticStats` and no handlers registered |
| Backend.ElasticBackend.Init | lib/elasticsearch.js:214-239 | `init` sets every setting as `Configure` derives it, writes the startup time into `elasticStats`, registers the handlers and returns true |
| Backend.ElasticBackend.Status | lib/elasticsearch.js:208-212 | the status handler makes one `writeCb(null, 'elastic', stat, value)` call per entry of `elasticStats`, in entry order |
| Backend.ElasticBackend.OnFlush | lib/elasticsearch.js:125-206 | a flush runs `flush_stats` with the settings in force and leaves `elasticStats` unchanged |
| Backend.StartAndReport | lib/elasticsearch.js:208-239 | a freshly loaded backend, once initialised, reports exactly two status lines: `last_flush` then `last_exception`, both the startup time |

## Left out

- The HTTP request is not modelled: `http.request`, `req.write`/`req.end` and the response and `error` handlers (lines 105-122). The flush ends with the `BulkRequest` value. Only the 5xx test of line 107 is kept, as `Bulk.IsServerError`.
- The `Content-Length` header (line 101) only matters to the transport and counts UTF-16 code units.
- Logging is left out: `debug`, `lg.log`, `console.log`, `JSON.stringify(metrics)` (lines 117-120, 196-205), and the `debug`, `flushInterval` and `lg` assignments of `init` (lines 216, 228, 232). None of them affects the output.
- `new Date()` and its UTC getters (line 42) become a `UtcDate` parameter with month 1-12 and day 1-31.
- Converting a number to a string is not modelled. A primitive value carries its text and truthiness as given. `Num` renders integers in decimal, which is not JavaScript's exponent form for magnitudes of 1e21 and above. Floating-point values, including NaN as a falsy value, are not modelled.
- The port is an integer. A port given as a string in the configuration is not modelled.
- `events.on('flush' / 'status', …)` (lines 235-236) is modelled only as the ghost flag `registered`, which the handlers require. The handlers are methods of `Backend.ElasticBackend`.
- JavaScript enumerates integer-like property names first, in ascending order. The model uses plain insertion order for every name.
- A string-valued truthy histogram is not modelled: the loop would copy its characters by index. The model copies nothing from a primitive histogram. It still deletes `histogram`, as the code does.
- The code re-reads `value['histogram']` on each pass of the copy loop. The model takes its entries once. The two differ only if the histogram has an entry named `histogram`.
- Settings before `init` runs are `""` and `0` in the model. In the code they are `undefined`.
- `last_exception` is never updated after `init`. No code in the file writes it, so the model has nothing more to capture. The `null` error argument of `writeCb` is implicit in `StatusLine`.
- Flush.StampRecordGet: requires distinct names among the histogram's entries. This always holds for a JavaScript object, but the field-list model does not guarantee it.
- Flush.FlushStats and Backend.ElasticBackend.OnFlush: require distinct record objects for distinct `timer_data` keys. statsd builds a fresh object per key. The model does not capture one object shared by two keys, which would be stamped twice.
- Bulk.PayloadSplitsIntoLines: states that the payload splits into its lines only when no text contains a newline. The code does no escaping, so a newline in a name or value breaks the line structure.
- Bulk.DocLineSplitsIntoFields: states recovery of the fields only when no text contains a comma, for the same reason.
- Bulk.FieldTextQuoted: states its split only when neither the name nor the value text contains a double quote, for the same reason.
