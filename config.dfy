/**
 * The settings `init` reads from the statsd configuration, each with the
 * `setting || default` fallback of lib/elasticsearch.js.
 */
module Config {
  import opened Wrappers

  /** The `elasticsearch` section of the statsd configuration; every entry optional. */
  datatype EsConfig = EsConfig(
    host: Option<string>,
    port: Option<int>,
    path: Option<string>,
    indexPrefix: Option<string>,
    indexTimestamp: Option<string>,
    countType: Option<string>,
    timerType: Option<string>,
    timerDataType: Option<string>)

  /** The part of the statsd configuration the backend reads. */
  datatype StatsdConfig = StatsdConfig(elasticsearch: Option<EsConfig>)

  /** The module-level settings in force after `init`. */
  datatype Settings = Settings(
    host: string,
    port: int,
    path: string,
    indexPrefix: string,
    indexTimestamp: string,
    countType: string,
    timerType: string)

  const EmptySection := EsConfig(None, None, None, None, None, None, None, None)

  /** `config.elasticsearch || { }`. */
  function Section(c: StatsdConfig): EsConfig
  {
    if c.elasticsearch.Some? then c.elasticsearch.value else EmptySection
  }

  /** `x || d` on a string setting: an absent or empty string is falsy. */
  function OrText(x: Option<string>, d: string): (r: string)
    ensures r == d || (x == Some(r) && r != "")
    ensures x.Some? && x.value != "" ==> r == x.value
  {
    if x.Some? && x.value != "" then x.value else d
  }

  /** `x || d` on the port: an absent port and port 0 are falsy. */
  function OrPort(x: Option<int>, d: int): (r: int)
    ensures r == d || (x == Some(r) && r != 0)
    ensures x.Some? && x.value != 0 ==> r == x.value
  {
    if x.Some? && x.value != 0 then x.value else d
  }

  /**
   * The settings `init` computes. The timer type is assigned twice and the
   * second assignment, from `timerDataType`, always wins.
   */
  function Configure(c: StatsdConfig): (s: Settings)
    ensures s.host != "" && s.path != "" && s.indexPrefix != "" && s.indexTimestamp != ""
    ensures s.countType != "" && s.timerType != "" && s.port != 0
  {
    var es := Section(c);
    Settings(
      OrText(es.host, "localhost"),
      OrPort(es.port, 9200),
      OrText(es.path, "/"),
      OrText(es.indexPrefix, "statsd"),
      OrText(es.indexTimestamp, "day"),
      OrText(es.countType, "counter"),
      OrText(es.timerDataType, "timer_data"))
  }

  /** Without an `elasticsearch` section, or with an empty one, every default applies. */
  lemma ConfigureDefaults(c: StatsdConfig)
    requires c.elasticsearch.None? || c.elasticsearch == Some(EmptySection)
    ensures Configure(c) == Settings("localhost", 9200, "/", "statsd", "day", "counter", "timer_data")
  {
  }

  /** The `timerType` setting never takes effect: the timer type comes from `timerDataType`. */
  lemma TimerTypeIgnored(es: EsConfig, other: Option<string>)
    ensures Configure(StatsdConfig(Some(es.(timerType := other)))) == Configure(StatsdConfig(Some(es)))
    ensures Configure(StatsdConfig(Some(es))).timerType ==
      if es.timerDataType.Some? && es.timerDataType.value != "" then es.timerDataType.value else "timer_data"
  {
  }
}
