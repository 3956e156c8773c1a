/**
 * The bulk request `es_bulk_insert` sends: a header line naming the index and
 * document type before every document line, each line newline-terminated, all
 * values written as quoted strings; the request path; and the server-error
 * test applied to the response status.
 */
module Bulk {
  import opened Text
  import opened Documents
  import Config
  import IndexName

  /** `'"' + name + '":"' + value + '"'`: every value, number or not, is quoted. */
  function FieldText(f: Field): string
  {
    "\"" + f.name + "\":\"" + ValueText(f.value) + "\""
  }

  /** The rendered fields of a document, in field order. */
  function FieldTexts(d: Doc): seq<string>
  {
    seq(|d|, i requires 0 <= i < |d| => FieldText(d[i]))
  }

  /** The document line: '{', the fields joined by single commas, '}'. */
  function DocLine(d: Doc): string
  {
    "{" + Join(FieldTexts(d), ',') + "}"
  }

  /** The action line naming the index and the document type. */
  function Header(index: string, docType: string): string
  {
    "{\"index\":{\"_index\":\"" + index + "\",\"_type\":\"" + docType + "\"}}"
  }

  /** A header line then a document line, for each document in order. */
  function PairLines(index: string, docType: string, docs: seq<Doc>): (lines: seq<string>)
    decreases |docs|
  {
    if |docs| == 0 then []
    else PairLines(index, docType, docs[..|docs| - 1]) + [Header(index, docType), DocLine(docs[|docs| - 1])]
  }

  /** The lines of the payload: counters, then timer samples, then timer statistics. */
  function BulkLines(index: string, countType: string, timerType: string,
                     counts: seq<Doc>, timers: seq<Doc>, timerData: seq<Doc>): seq<string>
  {
    PairLines(index, countType, counts) + PairLines(index, timerType, timers)
      + PairLines(index, timerType + "_stats", timerData)
  }

  /** The request the flush hands to the HTTP client. */
  datatype BulkRequest = BulkRequest(host: string, port: int, path: string, body: string)

  /** `elasticPath + statsdIndex + '/' + '/_bulk'`: note the doubled slash. */
  function RequestPath(basePath: string, index: string): (p: string)
    ensures |p| == |basePath| + |index| + 7
    ensures p[..|basePath|] == basePath && p[|basePath|..|basePath| + |index|] == index
    ensures p[|basePath| + |index|..] == "//_bulk"
  {
    basePath + index + "/" + "/_bulk"
  }

  /** The whole request for one flush, the date read once for every header. */
  function RequestFor(s: Config.Settings, date: IndexName.UtcDate,
                      counts: seq<Doc>, timers: seq<Doc>, timerData: seq<Doc>): BulkRequest
    requires IndexName.ValidDate(date)
  {
    var index := IndexName.Resolve(s.indexPrefix, s.indexTimestamp, date);
    BulkRequest(s.host, s.port, RequestPath(s.path, index),
                Terminated(BulkLines(index, s.countType, s.timerType, counts, timers, timerData), '\n'))
  }

  /** `Math.floor(status / 100) == 5`: exactly the statuses 500 to 599. */
  predicate IsServerError(status: int)
    ensures IsServerError(status) <==> 500 <= status < 600
  {
    status / 100 == 5
  }

  // ---------------------------------------------------------------------------
  // The loops of es_bulk_insert.

  /** The inner loop: a comma before every field but the first. */
  method InnerPayload(d: Doc) returns (inner: string)
    ensures inner == Join(FieldTexts(d), ',')
  {
    inner := "";
    var j := 0;
    while j < |d|
      invariant 0 <= j <= |d|
      invariant inner == Join(FieldTexts(d[..j]), ',')
      invariant |inner| == 0 <==> j == 0
    {
      if |inner| > 0 {
        inner := inner + ",";
      }
      assert FieldTexts(d[..j + 1]) == FieldTexts(d[..j]) + [FieldText(d[j])];
      if j > 0 {
        JoinSnoc(FieldTexts(d[..j]), FieldText(d[j]), ',');
      }
      inner := inner + FieldText(d[j]);
      j := j + 1;
    }
    assert d[..j] == d;
  }

  /** One of the three outer loops: append a header and a document line per document. */
  method AppendPairs(payload: string, index: string, docType: string, docs: seq<Doc>) returns (p: string)
    ensures p == payload + Terminated(PairLines(index, docType, docs), '\n')
  {
    p := payload;
    var i := 0;
    while i < |docs|
      invariant 0 <= i <= |docs|
      invariant p == payload + Terminated(PairLines(index, docType, docs[..i]), '\n')
    {
      ghost var p0 := p;
      var header := Header(index, docType);
      p := p + header + "\n";
      p := p + "{";
      var inner := InnerPayload(docs[i]);
      p := p + inner + "}" + "\n";
      PairStep(payload, p0, p, index, docType, docs, i, inner);
      i := i + 1;
    }
    assert docs[..i] == docs;
  }

  /** The loop body of `AppendPairs` appends the next pair of lines. */
  lemma PairStep(payload: string, p0: string, p: string, index: string, docType: string,
                 docs: seq<Doc>, i: nat, inner: string)
    requires i < |docs|
    requires p0 == payload + Terminated(PairLines(index, docType, docs[..i]), '\n')
    requires inner == Join(FieldTexts(docs[i]), ',')
    requires p == p0 + Header(index, docType) + "\n" + "{" + inner + "}" + "\n"
    ensures p == payload + Terminated(PairLines(index, docType, docs[..i + 1]), '\n')
  {
    var header, line := Header(index, docType), DocLine(docs[i]);
    var before := PairLines(index, docType, docs[..i]);
    assert docs[..i + 1][..i] == docs[..i];
    TerminatedAppend(before, [header, line], '\n');
    TerminatedPair(header, line, '\n');
    PairText(p0, header, inner);
    Regroup(payload, Terminated(before, '\n'), Terminated([header, line], '\n'));
  }

  /** Two lines, each followed by the separator. */
  lemma TerminatedPair(a: string, b: string, sep: char)
    ensures Terminated([a, b], sep) == a + [sep] + (b + [sep])
  {
    assert [a, b][1..] == [b];
    assert [b][1..] == [];
    assert Terminated([b], sep) == b + [sep] + "";
  }

  /** The three appends of the loop body add the header line and the document line. */
  lemma PairText(p0: string, header: string, inner: string)
    ensures p0 + header + "\n" + "{" + inner + "}" + "\n" == p0 + (header + "\n" + ("{" + inner + "}" + "\n"))
  {
  }

  lemma Regroup(a: string, b: string, c: string)
    ensures a + b + c == a + (b + c)
  {
  }

  /** The payload: counters, then timers, then timer statistics. */
  method BulkBody(index: string, countType: string, timerType: string,
                  counts: seq<Doc>, timers: seq<Doc>, timerData: seq<Doc>) returns (payload: string)
    ensures payload == Terminated(BulkLines(index, countType, timerType, counts, timers, timerData), '\n')
  {
    var a := PairLines(index, countType, counts);
    var b := PairLines(index, timerType, timers);
    var c := PairLines(index, timerType + "_stats", timerData);
    payload := AppendPairs("", index, countType, counts);
    payload := AppendPairs(payload, index, timerType, timers);
    payload := AppendPairs(payload, index, timerType + "_stats", timerData);
    TerminatedAppend(a, b, '\n');
    TerminatedAppend(a + b, c, '\n');
  }

  /** `es_bulk_insert` up to the HTTP call: index name, payload and request options. */
  method BulkInsert(s: Config.Settings, date: IndexName.UtcDate,
                    counts: seq<Doc>, timers: seq<Doc>, timerData: seq<Doc>) returns (req: BulkRequest)
    requires IndexName.ValidDate(date)
    ensures req == RequestFor(s, date, counts, timers, timerData)
  {
    var index := IndexName.Resolve(s.indexPrefix, s.indexTimestamp, date);
    var payload := BulkBody(index, s.countType, s.timerType, counts, timers, timerData);
    req := BulkRequest(s.host, s.port, RequestPath(s.path, index), payload);
  }

  // ---------------------------------------------------------------------------
  // Properties of the payload.

  /** Line 2k of a section is its header, line 2k+1 the k-th document. */
  lemma {:induction false} PairLinesAt(index: string, docType: string, docs: seq<Doc>, k: nat)
    requires k < |docs|
    ensures |PairLines(index, docType, docs)| == 2 * |docs|
    ensures PairLines(index, docType, docs)[2 * k] == Header(index, docType)
    ensures PairLines(index, docType, docs)[2 * k + 1] == DocLine(docs[k])
    decreases |docs|
  {
    var init := docs[..|docs| - 1];
    if k < |init| {
      PairLinesAt(index, docType, init, k);
      assert docs[k] == init[k];
    } else if |init| > 0 {
      PairLinesAt(index, docType, init, 0);
    }
  }

  lemma {:induction false} PairLinesLength(index: string, docType: string, docs: seq<Doc>)
    ensures |PairLines(index, docType, docs)| == 2 * |docs|
    decreases |docs|
  {
    if |docs| > 0 {
      PairLinesLength(index, docType, docs[..|docs| - 1]);
    }
  }

  /** A section holds two lines per document, header first. */
  lemma PairLinesShape(index: string, docType: string, docs: seq<Doc>)
    ensures |PairLines(index, docType, docs)| == 2 * |docs|
    ensures forall k :: 0 <= k < |docs| ==>
      && PairLines(index, docType, docs)[2 * k] == Header(index, docType)
      && PairLines(index, docType, docs)[2 * k + 1] == DocLine(docs[k])
  {
    if |docs| > 0 {
      PairLinesAt(index, docType, docs, 0);
    }
    forall k | 0 <= k < |docs|
      ensures PairLines(index, docType, docs)[2 * k] == Header(index, docType)
      ensures PairLines(index, docType, docs)[2 * k + 1] == DocLine(docs[k])
    {
      PairLinesAt(index, docType, docs, k);
    }
  }

  /** The type of the k-th document of the payload: by section. */
  function SectionType(k: nat, counts: nat, timers: nat, countType: string, timerType: string): string
  {
    if k < counts then countType else if k < counts + timers then timerType else timerType + "_stats"
  }

  /**
   * The payload holds two lines per document, headers and documents strictly
   * alternating; the k-th pair carries the k-th document of counters, timers
   * and timer statistics in that order, with the type of its section.
   */
  lemma BulkLinesShape(index: string, countType: string, timerType: string,
                       counts: seq<Doc>, timers: seq<Doc>, timerData: seq<Doc>)
    ensures var lines := BulkLines(index, countType, timerType, counts, timers, timerData);
      var docs := counts + timers + timerData;
      && |lines| == 2 * |docs|
      && forall k :: 0 <= k < |docs| ==>
           && lines[2 * k] == Header(index, SectionType(k, |counts|, |timers|, countType, timerType))
           && lines[2 * k + 1] == DocLine(docs[k])
  {
    var a := PairLines(index, countType, counts);
    var b := PairLines(index, timerType, timers);
    var c := PairLines(index, timerType + "_stats", timerData);
    PairLinesLength(index, countType, counts);
    PairLinesLength(index, timerType, timers);
    PairLinesLength(index, timerType + "_stats", timerData);
    var lines := a + b + c;
    var docs := counts + timers + timerData;
    forall k | 0 <= k < |docs|
      ensures lines[2 * k] == Header(index, SectionType(k, |counts|, |timers|, countType, timerType))
      ensures lines[2 * k + 1] == DocLine(docs[k])
    {
      if k < |counts| {
        PairLinesAt(index, countType, counts, k);
        assert lines[2 * k] == a[2 * k] && lines[2 * k + 1] == a[2 * k + 1];
        assert docs[k] == counts[k];
      } else if k < |counts| + |timers| {
        var m := k - |counts|;
        PairLinesAt(index, timerType, timers, m);
        assert lines[2 * k] == b[2 * m] && lines[2 * k + 1] == b[2 * m + 1];
        assert docs[k] == timers[m];
      } else {
        var m := k - |counts| - |timers|;
        PairLinesAt(index, timerType + "_stats", timerData, m);
        assert lines[2 * k] == c[2 * m] && lines[2 * k + 1] == c[2 * m + 1];
        assert docs[k] == timerData[m];
      }
    }
  }

  /** No character `c` in any field name or value text of the document. */
  predicate DocFree(d: Doc, c: char)
  {
    forall i :: 0 <= i < |d| ==> c !in d[i].name && c !in ValueText(d[i].value)
  }

  /** The characters the serialiser itself writes around names and values. */
  predicate Structural(c: char)
  {
    c in "{}\":,"
  }

  lemma {:induction false} JoinFree(parts: seq<string>, sep: char, c: char)
    requires c != sep && forall p :: p in parts ==> c !in p
    ensures c !in Join(parts, sep)
    decreases |parts|
  {
    if |parts| > 1 {
      assert parts[0] in parts;
      forall p | p in parts[1..] ensures c !in p { assert p in parts; }
      JoinFree(parts[1..], sep, c);
    } else if |parts| == 1 {
      assert parts[0] in parts;
    }
  }

  lemma DocLineFree(d: Doc, c: char)
    requires DocFree(d, c) && !Structural(c)
    ensures c !in DocLine(d)
  {
    var ts := FieldTexts(d);
    forall t | t in ts ensures c !in t {
      var i :| 0 <= i < |ts| && ts[i] == t;
      assert c !in "\"" && c !in "\":\"";
    }
    JoinFree(ts, ',', c);
    assert c !in "{" && c !in "}";
  }

  lemma HeaderFree(index: string, docType: string)
    requires '\n' !in index && '\n' !in docType
    ensures '\n' !in Header(index, docType)
  {
    assert '\n' !in "{\"index\":{\"_index\":\"" && '\n' !in "\",\"_type\":\"" && '\n' !in "\"}}";
  }

  lemma {:induction false} PairLinesFree(index: string, docType: string, docs: seq<Doc>)
    requires '\n' !in index && '\n' !in docType
    requires forall k :: 0 <= k < |docs| ==> DocFree(docs[k], '\n')
    ensures forall l :: l in PairLines(index, docType, docs) ==> '\n' !in l
    decreases |docs|
  {
    if |docs| > 0 {
      PairLinesFree(index, docType, docs[..|docs| - 1]);
      HeaderFree(index, docType);
      DocLineFree(docs[|docs| - 1], '\n');
    }
  }

  /**
   * When no name, value, index name or type holds a newline, splitting the
   * payload on newlines gives back exactly its lines, then the empty text after
   * the final newline.
   */
  lemma PayloadSplitsIntoLines(index: string, countType: string, timerType: string,
                               counts: seq<Doc>, timers: seq<Doc>, timerData: seq<Doc>)
    requires '\n' !in index && '\n' !in countType && '\n' !in timerType
    requires forall k :: 0 <= k < |counts| ==> DocFree(counts[k], '\n')
    requires forall k :: 0 <= k < |timers| ==> DocFree(timers[k], '\n')
    requires forall k :: 0 <= k < |timerData| ==> DocFree(timerData[k], '\n')
    ensures var lines := BulkLines(index, countType, timerType, counts, timers, timerData);
      Split(Terminated(lines, '\n'), '\n') == lines + [""]
  {
    var lines := BulkLines(index, countType, timerType, counts, timers, timerData);
    PairLinesFree(index, countType, counts);
    PairLinesFree(index, timerType, timers);
    PairLinesFree(index, timerType + "_stats", timerData);
    SplitTerminated(lines, '\n');
  }

  /**
   * When no field name or value text holds a comma, splitting the text between
   * the braces of a document line on commas gives back its fields, in order.
   */
  lemma DocLineSplitsIntoFields(d: Doc)
    requires |d| >= 1 && DocFree(d, ',')
    ensures var line := DocLine(d);
      && line[0] == '{' && line[|line| - 1] == '}'
      && Split(line[1..|line| - 1], ',') == FieldTexts(d)
  {
    var ts := FieldTexts(d);
    forall t | t in ts ensures ',' !in t {
      var i :| 0 <= i < |ts| && ts[i] == t;
      assert ',' !in "\"" && ',' !in "\":\"";
    }
    SplitJoin(ts, ',');
    assert DocLine(d)[1..|DocLine(d)| - 1] == Join(ts, ',');
  }

  /**
   * Split on double quotes, a field reads: nothing, its name, the colon, its
   * value text, nothing; the value is always a quoted string.
   */
  lemma FieldTextQuoted(f: Field)
    requires '"' !in f.name && '"' !in ValueText(f.value)
    ensures Split(FieldText(f), '"') == ["", f.name, ":", ValueText(f.value), ""]
  {
    var parts := ["", f.name, ":", ValueText(f.value), ""];
    var n, v := f.name, ValueText(f.value);
    assert Join(parts[4..], '"') == "";
    assert parts[3..][1..] == parts[4..] && Join(parts[3..], '"') == v + "\"" + "";
    assert parts[2..][1..] == parts[3..] && Join(parts[2..], '"') == ":" + "\"" + (v + "\"");
    assert parts[1..][1..] == parts[2..] && Join(parts[1..], '"') == n + "\"" + (":\"" + v + "\"");
    assert Join(parts, '"') == "" + "\"" + (n + "\":\"" + v + "\"");
    assert FieldText(f) == Join(parts, '"');
    assert forall p :: p in parts ==> '"' !in p;
    SplitJoin(parts, '"');
  }
}
