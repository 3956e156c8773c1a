/**
 * String helpers shared by the model: JavaScript's `split` with a one-character
 * separator, its inverse `join`, newline-terminated concatenation of lines, and
 * the decimal rendering of integers that string concatenation applies to them.
 */
module Text {

  /** `s.split(sep)` for a one-character separator: never empty, no piece holds `sep`. */
  function Split(s: string, sep: char): (parts: seq<string>)
    ensures |parts| >= 1
    ensures forall p :: p in parts ==> sep !in p
    decreases |s|
  {
    if |s| == 0 then [""]
    else
      var rest := Split(s[1..], sep);
      if s[0] == sep then [""] + rest
      else [[s[0]] + rest[0]] + rest[1..]
  }

  /** `parts.join(sep)`: the pieces with one separator between neighbours. */
  function Join(parts: seq<string>, sep: char): string
  {
    if |parts| == 0 then ""
    else if |parts| == 1 then parts[0]
    else parts[0] + [sep] + Join(parts[1..], sep)
  }

  /** Each line followed by `sep`, in order (a payload built by `+= line + "\n"`). */
  function Terminated(lines: seq<string>, sep: char): string
  {
    if |lines| == 0 then "" else lines[0] + [sep] + Terminated(lines[1..], sep)
  }

  lemma {:induction false} JoinSplit(s: string, sep: char)
    ensures Join(Split(s, sep), sep) == s
    decreases |s|
  {
    if |s| > 0 {
      var rest := Split(s[1..], sep);
      JoinSplit(s[1..], sep);
      if s[0] == sep {
        assert Split(s, sep) == [""] + rest;
        assert ([""] + rest)[1..] == rest;
      } else if |rest| == 1 {
        assert Split(s, sep) == [[s[0]] + rest[0]];
        assert s == [s[0]] + s[1..];
      } else {
        var parts := Split(s, sep);
        assert parts == [[s[0]] + rest[0]] + rest[1..];
        assert parts[1..] == rest[1..];
        assert Join(rest, sep) == rest[0] + [sep] + Join(rest[1..], sep);
        assert s == [s[0]] + s[1..];
      }
    }
  }

  lemma {:induction false} SplitAppend(a: string, b: string, sep: char)
    ensures Split(a + [sep] + b, sep) == Split(a, sep) + Split(b, sep)
    decreases |a|
  {
    var s := a + [sep] + b;
    if |a| == 0 {
      assert s == [sep] + b;
      assert s[1..] == b;
    } else {
      assert s[1..] == a[1..] + [sep] + b;
      SplitAppend(a[1..], b, sep);
      var ra := Split(a[1..], sep);
      if a[0] == sep {
        assert Split(a, sep) == [""] + ra;
      } else {
        var r := ra + Split(b, sep);
        assert Split(s, sep) == [[s[0]] + r[0]] + r[1..];
        assert r[1..] == ra[1..] + Split(b, sep);
        assert Split(a, sep) == [[a[0]] + ra[0]] + ra[1..];
      }
    }
  }

  lemma {:induction false} SplitNoSep(a: string, sep: char)
    requires sep !in a
    ensures Split(a, sep) == [a]
    decreases |a|
  {
    if |a| > 0 {
      SplitNoSep(a[1..], sep);
      assert a == [a[0]] + a[1..];
    }
  }

  /** Splitting what was joined gives the pieces back, when none holds the separator. */
  lemma {:induction false} SplitJoin(parts: seq<string>, sep: char)
    requires |parts| >= 1
    requires forall p :: p in parts ==> sep !in p
    ensures Split(Join(parts, sep), sep) == parts
    decreases |parts|
  {
    if |parts| == 1 {
      SplitNoSep(parts[0], sep);
    } else {
      assert parts[0] in parts;
      forall p | p in parts[1..] ensures sep !in p {
        assert p in parts;
      }
      SplitJoin(parts[1..], sep);
      SplitAppend(parts[0], Join(parts[1..], sep), sep);
      SplitNoSep(parts[0], sep);
      assert parts == [parts[0]] + parts[1..];
    }
  }

  /** Appending one more piece to a non-empty list adds a separator and the piece. */
  lemma {:induction false} JoinSnoc(parts: seq<string>, p: string, sep: char)
    requires |parts| >= 1
    ensures Join(parts + [p], sep) == Join(parts, sep) + [sep] + p
    decreases |parts|
  {
    var q := parts + [p];
    assert q[1..] == parts[1..] + [p];
    if |parts| > 1 {
      JoinSnoc(parts[1..], p, sep);
    }
  }

  lemma {:induction false} TerminatedAppend(a: seq<string>, b: seq<string>, sep: char)
    ensures Terminated(a + b, sep) == Terminated(a, sep) + Terminated(b, sep)
    decreases |a|
  {
    if |a| == 0 {
      assert a + b == b;
    } else {
      assert (a + b)[1..] == a[1..] + b;
      TerminatedAppend(a[1..], b, sep);
    }
  }

  /** Splitting newline-terminated lines gives the lines back, then the empty tail. */
  lemma {:induction false} SplitTerminated(lines: seq<string>, sep: char)
    requires forall l :: l in lines ==> sep !in l
    ensures Split(Terminated(lines, sep), sep) == lines + [""]
    decreases |lines|
  {
    if |lines| > 0 {
      assert lines[0] in lines;
      forall l | l in lines[1..] ensures sep !in l {
        assert l in lines;
      }
      SplitTerminated(lines[1..], sep);
      SplitAppend(lines[0], Terminated(lines[1..], sep), sep);
      SplitNoSep(lines[0], sep);
      assert lines == [lines[0]] + lines[1..];
    }
  }

  // ---------------------------------------------------------------------------
  // Decimal rendering of integers, as string concatenation produces it.

  predicate IsDigit(c: char) { '0' <= c <= '9' }

  function Digit(d: nat): (c: char)
    requires d < 10
    ensures IsDigit(c)
  {
    "0123456789"[d]
  }

  function DigitValue(c: char): nat
    requires IsDigit(c)
  {
    (c as int - '0' as int) as nat
  }

  /** The value a string of decimal digits denotes. */
  function DecimalValue(s: string): nat
    requires forall c :: c in s ==> IsDigit(c)
  {
    if |s| == 0 then 0
    else
      assert s[|s| - 1] in s;
      DecimalValue(s[..|s| - 1]) * 10 + DigitValue(s[|s| - 1])
  }

  /** The decimal digits of a natural number, without leading zeros ("0" for zero). */
  function NatText(n: nat): (s: string)
    ensures |s| >= 1
    ensures forall c :: c in s ==> IsDigit(c)
    ensures DecimalValue(s) == n
    ensures n >= 10 ==> s[0] != '0'
    ensures s[0] == '0' ==> s == "0"
  {
    if n < 10 then [Digit(n)]
    else
      var s := NatText(n / 10) + [Digit(n % 10)];
      assert s[..|s| - 1] == NatText(n / 10);
      s
  }

  /** The decimal text of an integer, with a leading '-' when negative and no leading zeros. */
  function IntText(i: int): (s: string)
    ensures |s| >= 1
    ensures forall c :: c in s ==> IsDigit(c) || c == '-'
    ensures i >= 0 ==> (forall c :: c in s ==> IsDigit(c)) && DecimalValue(s) == i
    ensures i < 0 ==> s[0] == '-' && (forall c :: c in s[1..] ==> IsDigit(c)) && DecimalValue(s[1..]) == -i
    ensures s[0] == '0' ==> s == "0"
    ensures i < 0 ==> |s| >= 2 && s[1] != '0'
  {
    if i < 0 then
      var s := "-" + NatText(-i);
      assert s[1..] == NatText(-i);
      s
    else NatText(i)
  }
}
