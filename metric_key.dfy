/**
 * The decomposition of a dotted statsd metric name into the four fields every
 * document carries (lib/elasticsearch.js, the `key.split('.')` blocks of
 * `flush_stats`).
 */
module MetricKey {
  import opened Text

  /** The fields `ns`, `grp`, `tgt` and `act` of a document. */
  datatype KeyFields = KeyFields(ns: string, grp: string, tgt: string, act: string)

  /** `listKeys[i] || ''`: a missing part and an empty part both give ''. */
  function Segment(parts: seq<string>, i: nat): string
  {
    if i < |parts| then parts[i] else ""
  }

  /** Split the name on '.', keep the first four parts; never fails. */
  function Decompose(key: string): (k: KeyFields)
    ensures '.' !in k.ns && '.' !in k.grp && '.' !in k.tgt && '.' !in k.act
  {
    var parts := Split(key, '.');
    assert forall i :: 0 <= i < |parts| ==> parts[i] in parts;
    KeyFields(Segment(parts, 0), Segment(parts, 1), Segment(parts, 2), Segment(parts, 3))
  }

  /** The dotted name a four-part key is written as. */
  function Compose(k: KeyFields): string
  {
    Join([k.ns, k.grp, k.tgt, k.act], '.')
  }

  /**
   * A name written as dot-free parts decomposes into those parts, '' standing
   * for each missing one and every part after the fourth dropped.
   */
  lemma DecomposeJoin(parts: seq<string>)
    requires |parts| >= 1
    requires forall p :: p in parts ==> '.' !in p
    ensures Decompose(Join(parts, '.')) ==
      KeyFields(Segment(parts, 0), Segment(parts, 1), Segment(parts, 2), Segment(parts, 3))
  {
    SplitJoin(parts, '.');
  }

  /** Decompose undoes Compose for dot-free fields. */
  lemma DecomposeCompose(k: KeyFields)
    requires '.' !in k.ns && '.' !in k.grp && '.' !in k.tgt && '.' !in k.act
    ensures Decompose(Compose(k)) == k
  {
    DecomposeJoin([k.ns, k.grp, k.tgt, k.act]);
  }

  /** Whatever follows the fourth part of a name has no effect on its fields. */
  lemma DecomposeIgnoresTail(head: string, tail: string)
    requires |Split(head, '.')| >= 4
    ensures Decompose(head + "." + tail) == Decompose(head)
  {
    SplitAppend(head, tail, '.');
    assert head + "." + tail == head + ['.'] + tail;
  }
}
