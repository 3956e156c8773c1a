/**
 * The backend's module state and its entry points: `init` assigns the
 * settings and fills `elasticStats`, the status handler reports every entry
 * of `elasticStats`, and the flush handler runs `flush_stats` with the
 * settings in force.
 */
module Backend {
  import opened Wrappers
  import opened Documents
  import Config
  import IndexName
  import Bulk
  import Flush

  /** One call `writeCb(null, 'elastic', stat, value)` of the status handler. */
  datatype StatusLine = StatusLine(backend: string, stat: string, value: Value)

  /** What `init` leaves in `elasticStats` when it finds it in the state `prev`. */
  function StartStats(prev: Doc, startupTime: Value): Doc
  {
    SetField(SetField(prev, "last_flush", startupTime), "last_exception", startupTime)
  }

  /** After `init`, both entries read the startup time and any other entry is as before. */
  lemma StartStatsGet(prev: Doc, startupTime: Value, n: string)
    ensures Get(StartStats(prev, startupTime), n) ==
      if n == "last_flush" || n == "last_exception" then Some(startupTime) else Get(prev, n)
  {
    SetFieldGet(prev, "last_flush", startupTime, n);
    SetFieldGet(SetField(prev, "last_flush", startupTime), "last_exception", startupTime, n);
  }

  /** `init` on the empty `elasticStats` leaves exactly two entries, in assignment order. */
  lemma StartStatsFresh(startupTime: Value)
    ensures StartStats([], startupTime) ==
      [Field("last_flush", startupTime), Field("last_exception", startupTime)]
  {
    var first := [Field("last_flush", startupTime)];
    assert first[1..] == [];
    assert SetField(first, "last_exception", startupTime) == [first[0]] + SetField([], "last_exception", startupTime);
  }

  /** The module-level variables of lib/elasticsearch.js. */
  class ElasticBackend {
    var host: string
    var port: int
    var path: string
    var indexPrefix: string
    var indexTimestamp: string
    var countType: string
    var timerType: string
    /** `elasticStats`. */
    var stats: Doc
    /** `init` has run and registered the handlers. */
    ghost var registered: bool

    /** The module as loaded: `elasticStats` is empty and no setting is assigned yet. */
    constructor ()
      ensures stats == [] && !registered
    {
      host, port, path := "", 0, "";
      indexPrefix, indexTimestamp, countType, timerType := "", "", "", "";
      stats := [];
      registered := false;
    }

    /** The settings in force. */
    function Current(): Config.Settings
      reads this
    {
      Config.Settings(host, port, path, indexPrefix, indexTimestamp, countType, timerType)
    }

    /**
     * `init(startup_time, config, events, logger)`: assign every setting with
     * its fallback, record the startup time twice in `elasticStats`, and
     * register the handlers.
     */
    method Init(startupTime: Value, config: Config.StatsdConfig) returns (ok: bool)
      modifies this
      ensures Current() == Config.Configure(config)
      ensures stats == StartStats(old(stats), startupTime)
      ensures registered && ok
    {
      var es := Config.Section(config);
      host := Config.OrText(es.host, "localhost");
      port := Config.OrPort(es.port, 9200);
      path := Config.OrText(es.path, "/");
      indexPrefix := Config.OrText(es.indexPrefix, "statsd");
      indexTimestamp := Config.OrText(es.indexTimestamp, "day");
      countType := Config.OrText(es.countType, "counter");
      timerType := Config.OrText(es.timerType, "timer");
      timerType := Config.OrText(es.timerDataType, "timer_data");
      stats := SetField(stats, "last_flush", startupTime);
      stats := SetField(stats, "last_exception", startupTime);
      registered := true;
      ok := true;
    }

    /** The status handler: one call per entry of `elasticStats`, in entry order. */
    method Status() returns (calls: seq<StatusLine>)
      requires registered
      ensures |calls| == |stats|
      ensures forall i :: 0 <= i < |stats| ==>
        calls[i] == StatusLine("elastic", stats[i].name, stats[i].value)
    {
      calls := [];
      var i := 0;
      while i < |stats|
        invariant 0 <= i <= |stats|
        invariant |calls| == i
        invariant forall j :: 0 <= j < i ==> calls[j] == StatusLine("elastic", stats[j].name, stats[j].value)
      {
        calls := calls + [StatusLine("elastic", stats[i].name, stats[i].value)];
        i := i + 1;
      }
    }

    /**
     * The flush handler: `flush_stats` with the settings in force. A flush
     * leaves `elasticStats` as it is.
     */
    method OnFlush(ts: int, metrics: Flush.Snapshot, date: IndexName.UtcDate)
      returns (req: Bulk.BulkRequest, numStats: nat)
      requires registered && IndexName.ValidDate(date) && Flush.Distinct(metrics.timerData)
      modifies Flush.Records(metrics.timerData)
      ensures var t := Flush.Millis(ts);
        var sent := Flush.TimerDataDocs(t, old(Flush.RecordFields(metrics.timerData)));
        && req == Bulk.RequestFor(Current(), date,
             Flush.CounterDocs(t, metrics.counters), Flush.TimerDocs(t, metrics.timers), sent)
        && forall i :: 0 <= i < |metrics.timerData| ==> metrics.timerData[i].1.fields == sent[i]
      ensures numStats == |Flush.CounterDocs(Flush.Millis(ts), metrics.counters)| + |metrics.timerData|
      ensures stats == old(stats)
    {
      req, numStats := Flush.FlushStats(Current(), ts, metrics, date);
    }
  }

  /**
   * A backend loaded and initialised once reports exactly two status lines:
   * `last_flush` then `last_exception`, both the startup time.
   */
  method StartAndReport(startupTime: Value, config: Config.StatsdConfig) returns (calls: seq<StatusLine>)
    ensures calls == [StatusLine("elastic", "last_flush", startupTime),
                      StatusLine("elastic", "last_exception", startupTime)]
  {
    var backend := new ElasticBackend();
    var ok := backend.Init(startupTime, config);
    StartStatsFresh(startupTime);
    calls := backend.Status();
  }
}
