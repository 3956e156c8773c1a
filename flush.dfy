/**
 * `flush_stats`: one snapshot of statsd metrics becomes the documents of one
 * bulk request. Counters give one document each unless their group is
 * excluded, timers one document per sample, and each `timer_data` record is
 * stamped in place with the timestamp and the name's fields and has its
 * histogram flattened to the top level.
 */
module Flush {
  import opened Wrappers
  import opened Documents
  import opened MetricKey
  import Config
  import IndexName
  import Bulk

  /** The groups whose counters are not exported, spelled as the source spells them. */
  predicate ExcludedGroup(grp: string)
  {
    grp == "packets_recieved" || grp == "bad_lines_seen"
  }

  /** `{ns, grp, tgt, act, val, @timestamp}`, the shape of counter and timer documents. */
  function MetricDoc(t: int, k: KeyFields, value: Value): Doc
  {
    [Field("ns", Str(k.ns)), Field("grp", Str(k.grp)), Field("tgt", Str(k.tgt)),
     Field("act", Str(k.act)), Field("val", value), Field("@timestamp", Num(t))]
  }

  /** The counter documents, in counter order; `t` is the timestamp in milliseconds. */
  function CounterDocs(t: int, counters: seq<(string, Value)>): seq<Doc>
    decreases |counters|
  {
    if |counters| == 0 then []
    else
      var (key, value) := counters[|counters| - 1];
      var k := Decompose(key);
      CounterDocs(t, counters[..|counters| - 1])
        + (if ExcludedGroup(k.grp) then [] else [MetricDoc(t, k, value)])
  }

  /** The documents of one timer series: one per sample, in sample order. */
  function SeriesDocs(t: int, key: string, samples: seq<Value>): seq<Doc>
    decreases |samples|
  {
    if |samples| == 0 then []
    else SeriesDocs(t, key, samples[..|samples| - 1]) + [MetricDoc(t, Decompose(key), samples[|samples| - 1])]
  }

  /** The timer documents, series after series. */
  function TimerDocs(t: int, timers: seq<(string, seq<Value>)>): seq<Doc>
    decreases |timers|
  {
    if |timers| == 0 then []
    else
      var (key, samples) := timers[|timers| - 1];
      TimerDocs(t, timers[..|timers| - 1]) + SeriesDocs(t, key, samples)
  }

  /** The number of samples over all series. */
  function SampleCount(timers: seq<(string, seq<Value>)>): nat
  {
    if |timers| == 0 then 0 else SampleCount(timers[..|timers| - 1]) + |timers[|timers| - 1].1|
  }

  /** `value['histogram']` is truthy. */
  predicate HasHistogram(d: Doc)
  {
    var h := Get(d, "histogram");
    h.Some? && Truthy(h.value)
  }

  /** The entries `for (keyH in value['histogram'])` visits; a primitive has none. */
  function HistogramEntries(d: Doc): Doc
  {
    var h := Get(d, "histogram");
    if h.Some? && h.value.Obj? then h.value.fields else []
  }

  /** `value[keyH] = histogram[keyH]` for every entry, in entry order. */
  function CopyEntries(d: Doc, entries: Doc): Doc
    decreases |entries|
  {
    if |entries| == 0 then d
    else
      var last := entries[|entries| - 1];
      SetField(CopyEntries(d, entries[..|entries| - 1]), last.name, last.value)
  }

  /** The five assignments that open the `timer_data` loop body. */
  function StampKey(t: int, key: string, d: Doc): Doc
  {
    var k := Decompose(key);
    SetField(SetField(SetField(SetField(SetField(d, "@timestamp", Num(t)),
      "ns", Str(k.ns)), "grp", Str(k.grp)), "tgt", Str(k.tgt)), "act", Str(k.act))
  }

  /** A `timer_data` record after the loop body has run on it. */
  function StampRecord(t: int, key: string, d: Doc): Doc
  {
    var s := StampKey(t, key, d);
    if HasHistogram(s) then DeleteField(CopyEntries(s, HistogramEntries(s)), "histogram") else s
  }

  /** The stamped `timer_data` records, in order. */
  function TimerDataDocs(t: int, records: seq<(string, Doc)>): (docs: seq<Doc>)
    ensures |docs| == |records|
    decreases |records|
  {
    if |records| == 0 then []
    else
      var last := records[|records| - 1];
      TimerDataDocs(t, records[..|records| - 1]) + [StampRecord(t, last.0, last.1)]
  }

  lemma TimerDataDocsSnoc(t: int, records: seq<(string, Doc)>, i: nat)
    requires i < |records|
    ensures TimerDataDocs(t, records[..i + 1]) ==
      TimerDataDocs(t, records[..i]) + [StampRecord(t, records[i].0, records[i].1)]
  {
    assert records[..i + 1][..i] == records[..i];
  }

  // ---------------------------------------------------------------------------
  // What the documents hold.

  /** A metric document carries its six fields under distinct names, each readable by name. */
  lemma MetricDocFields(t: int, k: KeyFields, value: Value)
    ensures var d := MetricDoc(t, k, value);
      && Names(d) == ["ns", "grp", "tgt", "act", "val", "@timestamp"] && Unique(d)
      && Get(d, "ns") == Some(Str(k.ns)) && Get(d, "grp") == Some(Str(k.grp))
      && Get(d, "tgt") == Some(Str(k.tgt)) && Get(d, "act") == Some(Str(k.act))
      && Get(d, "val") == Some(value) && Get(d, "@timestamp") == Some(Num(t))
  {
    var d := MetricDoc(t, k, value);
    forall i | 0 <= i < |d| ensures Names(d)[i] == d[i].name {
      NameAt(d, i);
    }
    GetAt(d, 0); GetAt(d, 1); GetAt(d, 2); GetAt(d, 3); GetAt(d, 4); GetAt(d, 5);
  }

  /** The counters of two consecutive stretches of the map give their documents one after the other. */
  lemma {:induction false} CounterDocsAppend(t: int, a: seq<(string, Value)>, b: seq<(string, Value)>)
    ensures CounterDocs(t, a + b) == CounterDocs(t, a) + CounterDocs(t, b)
    decreases |b|
  {
    if |b| > 0 {
      var init := b[..|b| - 1];
      assert (a + b)[..|a + b| - 1] == a + init;
      assert (a + b)[|a + b| - 1] == b[|b| - 1];
      CounterDocsAppend(t, a, init);
    } else {
      assert a + b == a;
    }
  }

  /**
   * Every counter outside the excluded groups gives exactly one document, the
   * one of its key and value, at its own place among the others.
   */
  lemma CounterKept(t: int, counters: seq<(string, Value)>, i: nat)
    requires i < |counters| && !ExcludedGroup(Decompose(counters[i].0).grp)
    ensures CounterDocs(t, counters) == CounterDocs(t, counters[..i])
      + [MetricDoc(t, Decompose(counters[i].0), counters[i].1)] + CounterDocs(t, counters[i + 1..])
  {
    var before, c, after := counters[..i], counters[i], counters[i + 1..];
    assert counters == (before + [c]) + after;
    assert (before + [c])[..|before|] == before;
    CounterDocsAppend(t, before + [c], after);
    assert CounterDocs(t, before + [c]) == CounterDocs(t, before) + [MetricDoc(t, Decompose(c.0), c.1)];
  }

  /** A counter in an excluded group leaves the documents of the others as they are. */
  lemma CounterDropped(t: int, counters: seq<(string, Value)>, i: nat)
    requires i < |counters| && ExcludedGroup(Decompose(counters[i].0).grp)
    ensures CounterDocs(t, counters) == CounterDocs(t, counters[..i]) + CounterDocs(t, counters[i + 1..])
  {
    var before, c, after := counters[..i], counters[i], counters[i + 1..];
    assert counters == (before + [c]) + after;
    assert (before + [c])[..|before|] == before;
    CounterDocsAppend(t, before + [c], after);
    assert CounterDocs(t, before + [c]) == CounterDocs(t, before);
  }

  /** Every counter document comes from a counter outside the excluded groups. */
  lemma {:induction false} CounterDocOrigin(t: int, counters: seq<(string, Value)>, d: Doc)
    requires d in CounterDocs(t, counters)
    ensures exists i :: (0 <= i < |counters| && !ExcludedGroup(Decompose(counters[i].0).grp)
      && d == MetricDoc(t, Decompose(counters[i].0), counters[i].1))
    decreases |counters|
  {
    var n := |counters| - 1;
    var init := counters[..n];
    if d in CounterDocs(t, init) {
      CounterDocOrigin(t, init, d);
      var i :| 0 <= i < |init| && !ExcludedGroup(Decompose(init[i].0).grp)
        && d == MetricDoc(t, Decompose(init[i].0), init[i].1);
      assert counters[i] == init[i];
    } else {
      assert !ExcludedGroup(Decompose(counters[n].0).grp) && d == MetricDoc(t, Decompose(counters[n].0), counters[n].1);
    }
  }

  /** A series gives one document per sample, in sample order, each with that sample as `val`. */
  lemma {:induction false} SeriesDocsShape(t: int, key: string, samples: seq<Value>)
    ensures var docs := SeriesDocs(t, key, samples);
      && |docs| == |samples|
      && forall i :: 0 <= i < |samples| ==> docs[i] == MetricDoc(t, Decompose(key), samples[i])
    decreases |samples|
  {
    if |samples| > 0 {
      SeriesDocsShape(t, key, samples[..|samples| - 1]);
    }
  }

  /** Timer series of two consecutive stretches of the map give their documents one after the other. */
  lemma {:induction false} TimerDocsAppend(t: int, a: seq<(string, seq<Value>)>, b: seq<(string, seq<Value>)>)
    ensures TimerDocs(t, a + b) == TimerDocs(t, a) + TimerDocs(t, b)
    ensures SampleCount(a + b) == SampleCount(a) + SampleCount(b)
    decreases |b|
  {
    if |b| > 0 {
      var init := b[..|b| - 1];
      assert (a + b)[..|a + b| - 1] == a + init;
      assert (a + b)[|a + b| - 1] == b[|b| - 1];
      TimerDocsAppend(t, a, init);
    } else {
      assert a + b == a;
    }
  }

  /** There are as many timer documents as samples: samples, not series, are what count. */
  lemma {:induction false} TimerDocsCount(t: int, timers: seq<(string, seq<Value>)>)
    ensures |TimerDocs(t, timers)| == SampleCount(timers)
    decreases |timers|
  {
    if |timers| > 0 {
      var (key, samples) := timers[|timers| - 1];
      TimerDocsCount(t, timers[..|timers| - 1]);
      SeriesDocsShape(t, key, samples);
    }
  }

  /** The `i`-th stamped document is the `i`-th record `r` after the loop body. */
  lemma {:induction false} TimerDataDocsAt(t: int, records: seq<(string, Doc)>, i: nat, r: (string, Doc))
    requires i < |records| && records[i] == r
    ensures TimerDataDocs(t, records)[i] == StampRecord(t, r.0, r.1)
    decreases |records|
  {
    if i < |records| - 1 {
      TimerDataDocsAt(t, records[..|records| - 1], i, r);
    }
  }

  /** The value the five opening assignments give the name `n`, if they assign it. */
  function KeyValue(t: int, key: string, n: string): Option<Value>
  {
    var k := Decompose(key);
    if n == "@timestamp" then Some(Num(t))
    else if n == "ns" then Some(Str(k.ns))
    else if n == "grp" then Some(Str(k.grp))
    else if n == "tgt" then Some(Str(k.tgt))
    else if n == "act" then Some(Str(k.act))
    else None
  }

  /** After the opening assignments, the five names read their stamp and every other name reads as before. */
  lemma StampKeyGet(t: int, key: string, d: Doc, n: string)
    ensures Get(StampKey(t, key, d), n) == if KeyValue(t, key, n).Some? then KeyValue(t, key, n) else Get(d, n)
  {
    var k := Decompose(key);
    var d1 := SetField(d, "@timestamp", Num(t));
    var d2 := SetField(d1, "ns", Str(k.ns));
    var d3 := SetField(d2, "grp", Str(k.grp));
    var d4 := SetField(d3, "tgt", Str(k.tgt));
    SetFieldGet(d, "@timestamp", Num(t), n);
    SetFieldGet(d1, "ns", Str(k.ns), n);
    SetFieldGet(d2, "grp", Str(k.grp), n);
    SetFieldGet(d3, "tgt", Str(k.tgt), n);
    SetFieldGet(d4, "act", Str(k.act), n);
  }

  /** The opening assignments keep every existing field in its place. */
  lemma StampKeyNames(t: int, key: string, d: Doc)
    ensures Names(d) <= Names(StampKey(t, key, d))
  {
    var k := Decompose(key);
    var d1 := SetField(d, "@timestamp", Num(t));
    var d2 := SetField(d1, "ns", Str(k.ns));
    var d3 := SetField(d2, "grp", Str(k.grp));
    var d4 := SetField(d3, "tgt", Str(k.tgt));
    var d5 := SetField(d4, "act", Str(k.act));
    SetFieldNames(d, "@timestamp", Num(t));
    SetFieldNames(d1, "ns", Str(k.ns));
    SetFieldNames(d2, "grp", Str(k.grp));
    SetFieldNames(d3, "tgt", Str(k.tgt));
    SetFieldNames(d4, "act", Str(k.act));
    assert Names(d) <= Names(d2);
    assert Names(d) <= Names(d3);
    assert Names(d) <= Names(d4);
  }

  /** Copying entries with distinct names: each copied name reads its entry, every other name reads as before. */
  lemma {:induction false} CopyEntriesGet(d: Doc, entries: Doc, n: string)
    requires Unique(entries)
    ensures Get(CopyEntries(d, entries), n) == if n in Names(entries) then Get(entries, n) else Get(d, n)
    decreases |entries|
  {
    if |entries| > 0 {
      var init, last := entries[..|entries| - 1], entries[|entries| - 1];
      assert entries == init + [last];
      assert Unique(init);
      CopyEntriesGet(d, init, n);
      SetFieldGet(CopyEntries(d, init), last.name, last.value, n);
      GetSnoc(init, last, n);
      InNames(entries, n);
      InNames(init, n);
      if n == last.name {
        InNames(init, last.name);
      }
    }
  }

  /** Copying entries keeps the names of an object distinct. */
  lemma {:induction false} CopyEntriesUnique(d: Doc, entries: Doc)
    requires Unique(d)
    ensures Unique(CopyEntries(d, entries))
    decreases |entries|
  {
    if |entries| > 0 {
      var last := entries[|entries| - 1];
      CopyEntriesUnique(d, entries[..|entries| - 1]);
      SetFieldUnique(CopyEntries(d, entries[..|entries| - 1]), last.name, last.value);
    }
  }

  /**
   * A `timer_data` record after the loop body, field by field: with a truthy
   * histogram, `histogram` is gone and each histogram entry overrides the
   * field of its name; the five stamped names read their stamp; every other
   * field is as it was.
   */
  lemma StampRecordGet(t: int, key: string, d: Doc, n: string)
    requires Unique(HistogramEntries(d))
    ensures HasHistogram(StampKey(t, key, d)) == HasHistogram(d)
    ensures Get(StampRecord(t, key, d), n) ==
      if HasHistogram(d) && n == "histogram" then None
      else if HasHistogram(d) && n in Names(HistogramEntries(d)) then Get(HistogramEntries(d), n)
      else if KeyValue(t, key, n).Some? then KeyValue(t, key, n)
      else Get(d, n)
  {
    var s := StampKey(t, key, d);
    StampKeyGet(t, key, d, "histogram");
    StampKeyGet(t, key, d, n);
    if HasHistogram(s) {
      var entries := HistogramEntries(s);
      DeleteFieldGet(CopyEntries(s, entries), "histogram", n);
      CopyEntriesGet(s, entries, n);
    }
  }

  /** The loop body keeps the names of a record distinct, and a truthy histogram leaves no `histogram` field. */
  lemma StampRecordUnique(t: int, key: string, d: Doc)
    requires Unique(d)
    ensures Unique(StampRecord(t, key, d))
    ensures HasHistogram(d) ==> "histogram" !in Names(StampRecord(t, key, d))
  {
    var s := StampKey(t, key, d);
    var k := Decompose(key);
    var d1 := SetField(d, "@timestamp", Num(t));
    var d2 := SetField(d1, "ns", Str(k.ns));
    var d3 := SetField(d2, "grp", Str(k.grp));
    var d4 := SetField(d3, "tgt", Str(k.tgt));
    SetFieldUnique(d, "@timestamp", Num(t));
    SetFieldUnique(d1, "ns", Str(k.ns));
    SetFieldUnique(d2, "grp", Str(k.grp));
    SetFieldUnique(d3, "tgt", Str(k.tgt));
    SetFieldUnique(d4, "act", Str(k.act));
    StampKeyGet(t, key, d, "histogram");
    if HasHistogram(s) {
      CopyEntriesUnique(s, HistogramEntries(s));
      DeleteFieldUnique(CopyEntries(s, HistogramEntries(s)), "histogram");
      DeleteFieldNames(CopyEntries(s, HistogramEntries(s)), "histogram");
    }
  }

  /**
   * The payload of one flush has two lines per kept counter, per timer sample
   * and per `timer_data` record.
   */
  lemma FlushLineCount(index: string, countType: string, timerType: string, t: int,
                       counters: seq<(string, Value)>, timers: seq<(string, seq<Value>)>,
                       records: seq<(string, Doc)>)
    ensures |Bulk.BulkLines(index, countType, timerType,
               CounterDocs(t, counters), TimerDocs(t, timers), TimerDataDocs(t, records))|
            == 2 * (|CounterDocs(t, counters)| + SampleCount(timers) + |records|)
  {
    Bulk.BulkLinesShape(index, countType, timerType,
      CounterDocs(t, counters), TimerDocs(t, timers), TimerDataDocs(t, records));
    TimerDocsCount(t, timers);
  }

  // ---------------------------------------------------------------------------
  // The snapshot and the imperative flush.

  /** A `timer_data` object, which the flush updates in place. */
  class Record {
    var fields: Doc

    constructor (fields: Doc)
      ensures this.fields == fields
    {
      this.fields := fields;
    }

    /** The body of the `timer_data` loop, applied to this record. */
    method Stamp(t: int, key: string)
      modifies this
      ensures fields == StampRecord(t, key, old(fields))
    {
      var k := Decompose(key);
      fields := SetField(fields, "@timestamp", Num(t));
      fields := SetField(fields, "ns", Str(k.ns));
      fields := SetField(fields, "grp", Str(k.grp));
      fields := SetField(fields, "tgt", Str(k.tgt));
      fields := SetField(fields, "act", Str(k.act));
      var h := Get(fields, "histogram");
      if h.Some? && Truthy(h.value) {
        var entries := HistogramEntries(fields);
        ghost var stamped := fields;
        var j := 0;
        while j < |entries|
          invariant 0 <= j <= |entries|
          invariant fields == CopyEntries(stamped, entries[..j])
        {
          fields := SetField(fields, entries[j].name, entries[j].value);
          assert entries[..j + 1][..j] == entries[..j];
          j := j + 1;
        }
        assert entries[..j] == entries;
        fields := DeleteField(fields, "histogram");
      }
    }
  }

  /** The metrics of one flush, each map as the sequence `for..in` walks. */
  datatype Snapshot = Snapshot(
    counters: seq<(string, Value)>,
    timers: seq<(string, seq<Value>)>,
    timerData: seq<(string, Record)>)

  function Records(td: seq<(string, Record)>): set<Record>
  {
    set i | 0 <= i < |td| :: td[i].1
  }

  /** Every key of `timer_data` holds its own object. */
  predicate Distinct(td: seq<(string, Record)>)
  {
    forall i, j :: 0 <= i < j < |td| ==> td[i].1 != td[j].1
  }

  /** The contents of the `timer_data` records, in order. */
  function RecordFields(td: seq<(string, Record)>): seq<(string, Doc)>
    reads Records(td)
  {
    seq(|td|, i requires 0 <= i < |td| reads Records(td) => (td[i].0, td[i].1.fields))
  }

  /** `ts = ts * 1000`: the flush time in seconds, as milliseconds. */
  function Millis(ts: int): int
  {
    ts * 1000
  }

  /**
   * `flush_stats(ts, metrics)`: build the three document lists, count the
   * counters and timer records, stamp each record in place, and hand the
   * documents to the bulk insert.
   */
  method FlushStats(s: Config.Settings, ts: int, metrics: Snapshot, date: IndexName.UtcDate)
    returns (req: Bulk.BulkRequest, numStats: nat)
    requires IndexName.ValidDate(date)
    requires Distinct(metrics.timerData)
    modifies Records(metrics.timerData)
    ensures var sent := TimerDataDocs(Millis(ts), old(RecordFields(metrics.timerData)));
      && req == Bulk.RequestFor(s, date,
           CounterDocs(Millis(ts), metrics.counters), TimerDocs(Millis(ts), metrics.timers), sent)
      && forall i :: 0 <= i < |metrics.timerData| ==> metrics.timerData[i].1.fields == sent[i]
    ensures numStats == |CounterDocs(Millis(ts), metrics.counters)| + |metrics.timerData|
  {
    var t := Millis(ts);
    ghost var before := RecordFields(metrics.timerData);
    var counts;
    counts, numStats := CollectCounters(t, metrics.counters, 0);
    var timers := CollectTimers(t, metrics.timers);
    assert RecordFields(metrics.timerData) == before;
    var timerData;
    timerData, numStats := StampTimerData(t, metrics.timerData, numStats);
    req := Bulk.BulkInsert(s, date, counts, timers, timerData);
  }

  /** The counters loop: one document per counter outside the excluded groups. */
  method CollectCounters(t: int, counters: seq<(string, Value)>, numStats0: nat)
    returns (counts: seq<Doc>, numStats: nat)
    ensures counts == CounterDocs(t, counters)
    ensures numStats == numStats0 + |counts|
  {
    counts, numStats := [], numStats0;
    var i := 0;
    while i < |counters|
      invariant 0 <= i <= |counters|
      invariant counts == CounterDocs(t, counters[..i])
      invariant numStats == numStats0 + |counts|
    {
      var (key, value) := counters[i];
      var k := Decompose(key);
      if !ExcludedGroup(k.grp) {
        counts := counts + [MetricDoc(t, k, value)];
        numStats := numStats + 1;
      }
      assert counters[..i + 1][..i] == counters[..i];
      i := i + 1;
    }
    assert counters[..i] == counters;
  }

  /** The timers loop: one document per sample of every series. */
  method CollectTimers(t: int, series: seq<(string, seq<Value>)>) returns (timers: seq<Doc>)
    ensures timers == TimerDocs(t, series)
  {
    timers := [];
    var i := 0;
    while i < |series|
      invariant 0 <= i <= |series|
      invariant timers == TimerDocs(t, series[..i])
    {
      var (key, samples) := series[i];
      var j := 0;
      while j < |samples|
        invariant 0 <= j <= |samples|
        invariant timers == TimerDocs(t, series[..i]) + SeriesDocs(t, key, samples[..j])
      {
        timers := timers + [MetricDoc(t, Decompose(key), samples[j])];
        assert samples[..j + 1][..j] == samples[..j];
        j := j + 1;
      }
      assert samples[..j] == samples;
      assert series[..i + 1][..i] == series[..i];
      i := i + 1;
    }
    assert series[..i] == series;
  }

  /**
   * After `i` iterations of the `timer_data` loop: the first `i` records are
   * stamped and collected, the others are as they were.
   */
  predicate StampedPrefix(t: int, td: seq<(string, Record)>, before: seq<(string, Doc)>, i: nat, timerData: seq<Doc>)
    reads Records(td)
  {
    && i <= |td| == |before|
    && timerData == TimerDataDocs(t, before[..i])
    && (forall j :: 0 <= j < i ==> td[j].1.fields == timerData[j])
    && (forall j :: i <= j < |td| ==> td[j].0 == before[j].0 && td[j].1.fields == before[j].1)
  }

  /** One iteration of the `timer_data` loop: stamp the `i`-th record and collect it. */
  method StampNext(t: int, td: seq<(string, Record)>, ghost before: seq<(string, Doc)>, i: nat, timerData: seq<Doc>)
    returns (timerData': seq<Doc>)
    requires Distinct(td) && i < |td| && StampedPrefix(t, td, before, i, timerData)
    modifies Records(td)
    ensures StampedPrefix(t, td, before, i + 1, timerData')
  {
    var (key, rec) := td[i];
    assert key == before[i].0 && rec.fields == before[i].1;
    label BeforeStamp:
    rec.Stamp(t, key);
    assert rec.fields == StampRecord(t, before[i].0, before[i].1);
    timerData' := timerData + [rec.fields];
    TimerDataDocsSnoc(t, before, i);
    forall j | 0 <= j < |td| && j != i ensures td[j].1.fields == old@BeforeStamp(td[j].1.fields) {
      assert td[j].1 != rec;
    }
  }

  /** The `timer_data` loop: stamp every record in place and collect it. */
  method StampTimerData(t: int, td: seq<(string, Record)>, numStats0: nat)
    returns (timerData: seq<Doc>, numStats: nat)
    requires Distinct(td)
    modifies Records(td)
    ensures timerData == TimerDataDocs(t, old(RecordFields(td)))
    ensures forall i :: 0 <= i < |td| ==> td[i].1.fields == timerData[i]
    ensures numStats == numStats0 + |td|
  {
    ghost var before := RecordFields(td);
    timerData, numStats := [], numStats0;
    var i := 0;
    while i < |td|
      invariant 0 <= i <= |td|
      invariant StampedPrefix(t, td, before, i, timerData)
      invariant numStats == numStats0 + i
    {
      timerData := StampNext(t, td, before, i, timerData);
      numStats := numStats + 1;
      i := i + 1;
    }
    assert before[..i] == before;
  }
}
