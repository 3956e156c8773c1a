/**
 * The name of the index a flush writes to: the configured prefix, the UTC year,
 * and a month and day suffix depending on the `indexTimestamp` setting
 * (lib/elasticsearch.js, start of `es_bulk_insert`).
 */
module IndexName {
  import opened Text

  /** The UTC calendar date read from the clock at flush time. */
  datatype UtcDate = UtcDate(year: int, month: int, day: int)

  /** What `getUTCMonth() + 1` and `getUTCDate()` can return. */
  predicate ValidDate(d: UtcDate)
  {
    1 <= d.month <= 12 && 1 <= d.day <= 31
  }

  /** `if (x < 10) x = '0' + x`: two decimal digits for every value below 100. */
  function Pad2(n: nat): (s: string)
    ensures forall c :: c in s ==> IsDigit(c)
    ensures DecimalValue(s) == n
    ensures n < 100 ==> |s| == 2
    ensures s[0] == '0' <==> n < 10
  {
    if n < 10 then
      var s := "0" + NatText(n);
      assert s[..|s| - 1] == "0" && "0"[..0] == "";
      s
    else
      assert NatText(n) == NatText(n / 10) + [Digit(n % 10)];
      NatText(n)
  }

  /** `elasticIndex + '-' + year`, then `.MM` for "month" or "day", then `.DD` for "day". */
  function Resolve(prefix: string, setting: string, date: UtcDate): string
    requires ValidDate(date)
  {
    var index := prefix + "-" + IntText(date.year);
    var index := if setting == "month" || setting == "day" then index + "." + Pad2(date.month) else index;
    if setting == "day" then index + "." + Pad2(date.day) else index
  }

  /** The dot-separated pieces the name is made of, for each setting. */
  function Segments(prefix: string, setting: string, date: UtcDate): seq<string>
    requires ValidDate(date)
  {
    var base := prefix + "-" + IntText(date.year);
    if setting == "day" then [base, Pad2(date.month), Pad2(date.day)]
    else if setting == "month" then [base, Pad2(date.month)]
    else [base]
  }

  lemma ResolveIsJoin(prefix: string, setting: string, date: UtcDate)
    requires ValidDate(date)
    ensures Resolve(prefix, setting, date) == Join(Segments(prefix, setting, date), '.')
  {
    var base := prefix + "-" + IntText(date.year);
    var mm, dd := Pad2(date.month), Pad2(date.day);
    if setting == "day" {
      JoinPair(mm, dd, '.');
      assert [base, mm, dd][1..] == [mm, dd];
      assert Join([base, mm, dd], '.') == base + ['.'] + (mm + ['.'] + dd);
    } else if setting == "month" {
      JoinPair(base, mm, '.');
    }
  }

  lemma JoinPair(a: string, b: string, sep: char)
    ensures Join([a, b], sep) == a + [sep] + b
  {
    assert [a, b][1..] == [b];
  }

  /**
   * Read back through its dots, the name is `prefix-YEAR`, then the two-digit
   * month exactly when the setting is "month" or "day", then the two-digit day
   * exactly when it is "day"; any other setting gives the year alone.
   */
  lemma ResolveParts(prefix: string, setting: string, date: UtcDate)
    requires '.' !in prefix && ValidDate(date)
    ensures var parts := Split(Resolve(prefix, setting, date), '.');
      && parts[0] == prefix + "-" + IntText(date.year)
      && |parts| == (if setting == "day" then 3 else if setting == "month" then 2 else 1)
      && (|parts| >= 2 ==> |parts[1]| == 2 && (forall c :: c in parts[1] ==> IsDigit(c)) && DecimalValue(parts[1]) == date.month)
      && (|parts| == 3 ==> |parts[2]| == 2 && (forall c :: c in parts[2] ==> IsDigit(c)) && DecimalValue(parts[2]) == date.day)
  {
    var segs := Segments(prefix, setting, date);
    assert '.' !in prefix + "-" + IntText(date.year);
    assert '.' !in Pad2(date.month) && '.' !in Pad2(date.day);
    assert forall p :: p in segs ==> '.' !in p;
    ResolveIsJoin(prefix, setting, date);
    SplitJoin(segs, '.');
  }

  /** The year 2024 as string concatenation writes it. */
  lemma YearText()
    ensures IntText(2024) == "2024"
  {
    assert Digit(0) == '0' && Digit(2) == '2' && Digit(4) == '4';
    assert NatText(2) == "2";
    assert NatText(20) == NatText(2) + "0";
    assert NatText(202) == NatText(20) + "2";
    assert NatText(2024) == NatText(202) + "4";
  }

  /** Months and days below ten get their leading zero. */
  lemma PadExamples()
    ensures Pad2(3) == "03" && Pad2(5) == "05"
  {
    assert Digit(3) == '3' && Digit(5) == '5';
    assert NatText(3) == "3" && NatText(5) == "5";
  }

  /** 2024-03-05 with prefix "statsd", for each kind of setting. */
  lemma ResolveExample()
    ensures Resolve("statsd", "day", UtcDate(2024, 3, 5)) == "statsd-2024.03.05"
    ensures Resolve("statsd", "month", UtcDate(2024, 3, 5)) == "statsd-2024.03"
    ensures Resolve("statsd", "year", UtcDate(2024, 3, 5)) == "statsd-2024"
    ensures Resolve("statsd", "hour", UtcDate(2024, 3, 5)) == "statsd-2024"
  {
    YearText();
    PadExamples();
  }
}
