/**
 * JavaScript plain objects as the flush builds and serialises them: an ordered
 * list of named fields. Enumeration (`for..in`) follows insertion order;
 * assigning to an existing name keeps its position, assigning a new name appends
 * it, and `delete` removes it.
 */
module Documents {
  import opened Wrappers
  import Text

  /**
   * A JavaScript value: a primitive, known by the text that string
   * concatenation turns it into and by its truthiness, or a plain object.
   */
  datatype Value = Prim(text: string, truthy: bool) | Obj(fields: seq<Field>)

  datatype Field = Field(name: string, value: Value)

  type Doc = seq<Field>

  /** A JavaScript string. */
  function Str(s: string): Value { Prim(s, s != "") }

  /** A JavaScript integer number. */
  function Num(i: int): Value { Prim(Text.IntText(i), i != 0) }

  /** JavaScript truthiness: every object is truthy. */
  predicate Truthy(v: Value) { v.Obj? || v.truthy }

  /** What `"" + v` gives: a primitive's own text, "[object Object]" for an object. */
  function ValueText(v: Value): string
  {
    match v
    case Prim(t, _) => t
    case Obj(_) => "[object Object]"
  }

  /** The field names in enumeration order. */
  function Names(d: Doc): (ns: seq<string>)
    ensures |ns| == |d|
  {
    if |d| == 0 then [] else [d[0].name] + Names(d[1..])
  }

  /** Field names are distinct, as in every JavaScript object. */
  predicate Unique(d: Doc)
  {
    forall i, j :: 0 <= i < j < |d| ==> d[i].name != d[j].name
  }

  /** `d[k]`: the value of the first field named `k`, or nothing (`undefined`). */
  function Get(d: Doc, k: string): Option<Value>
  {
    if |d| == 0 then None
    else if d[0].name == k then Some(d[0].value)
    else Get(d[1..], k)
  }

  /** `d[k] = v`: an existing field keeps its place, a new one is appended. */
  function SetField(d: Doc, k: string, v: Value): Doc
  {
    if |d| == 0 then [Field(k, v)]
    else if d[0].name == k then [Field(k, v)] + d[1..]
    else [d[0]] + SetField(d[1..], k, v)
  }

  /** `delete d[k]`: every other field stays, in its order. */
  function DeleteField(d: Doc, k: string): Doc
  {
    if |d| == 0 then []
    else if d[0].name == k then DeleteField(d[1..], k)
    else [d[0]] + DeleteField(d[1..], k)
  }

  /** `d[k]` is `undefined` exactly when no field is named `k`. */
  lemma {:induction false} GetNone(d: Doc, k: string)
    ensures Get(d, k).None? <==> k !in Names(d)
    decreases |d|
  {
    if |d| > 0 {
      GetNone(d[1..], k);
    }
  }

  /** Assignment keeps the names and their order, appending a new name at the end. */
  lemma {:induction false} SetFieldNames(d: Doc, k: string, v: Value)
    ensures Names(SetField(d, k, v)) == if k in Names(d) then Names(d) else Names(d) + [k]
    ensures Names(d) <= Names(SetField(d, k, v))
    decreases |d|
  {
    if |d| > 0 {
      if d[0].name == k {
        assert ([Field(k, v)] + d[1..])[1..] == d[1..];
      } else {
        SetFieldNames(d[1..], k, v);
        assert ([d[0]] + SetField(d[1..], k, v))[1..] == SetField(d[1..], k, v);
      }
    }
  }

  /** The names other than `k`, in their order. */
  function Without(ns: seq<string>, k: string): seq<string>
  {
    if |ns| == 0 then []
    else if ns[0] == k then Without(ns[1..], k)
    else [ns[0]] + Without(ns[1..], k)
  }

  /** Deletion removes the name, adds none, and keeps every other name in its order. */
  lemma {:induction false} DeleteFieldNames(d: Doc, k: string)
    ensures Names(DeleteField(d, k)) == Without(Names(d), k)
    ensures k !in Names(DeleteField(d, k))
    ensures forall n :: n in Names(DeleteField(d, k)) ==> n in Names(d)
    decreases |d|
  {
    if |d| > 0 {
      DeleteFieldNames(d[1..], k);
      assert Names(d)[1..] == Names(d[1..]);
      if d[0].name != k {
        assert ([d[0]] + DeleteField(d[1..], k))[1..] == DeleteField(d[1..], k);
      }
    }
  }

  /** After `d[k] = v`, `k` reads `v` and every other name reads as before. */
  lemma {:induction false} SetFieldGet(d: Doc, k: string, v: Value, n: string)
    ensures Get(SetField(d, k, v), n) == if n == k then Some(v) else Get(d, n)
    decreases |d|
  {
    if |d| > 0 && d[0].name != k {
      SetFieldGet(d[1..], k, v, n);
      assert ([d[0]] + SetField(d[1..], k, v))[1..] == SetField(d[1..], k, v);
    } else if |d| > 0 {
      assert ([Field(k, v)] + d[1..])[1..] == d[1..];
    }
  }

  /** A name occurs in `Names(d)` exactly when some field carries it. */
  lemma {:induction false} InNames(d: Doc, k: string)
    ensures k in Names(d) <==> exists i :: 0 <= i < |d| && d[i].name == k
    decreases |d|
  {
    if |d| > 0 {
      InNames(d[1..], k);
      if exists i :: 0 <= i < |d[1..]| && d[1..][i].name == k {
        var i :| 0 <= i < |d[1..]| && d[1..][i].name == k;
        assert d[i + 1].name == k;
      }
      if exists i :: 0 <= i < |d| && d[i].name == k {
        var i :| 0 <= i < |d| && d[i].name == k;
        if i > 0 {
          assert d[1..][i - 1].name == k;
        }
      }
    }
  }

  /** Assignment keeps the names of an object distinct. */
  lemma {:induction false} SetFieldUnique(d: Doc, k: string, v: Value)
    requires Unique(d)
    ensures Unique(SetField(d, k, v))
    decreases |d|
  {
    if |d| > 0 {
      assert Unique(d[1..]);
      HeadNotInTail(d);
      if d[0].name == k {
        UniqueCons(Field(k, v), d[1..]);
      } else {
        SetFieldUnique(d[1..], k, v);
        SetFieldNames(d[1..], k, v);
        UniqueCons(d[0], SetField(d[1..], k, v));
      }
    }
  }

  /** In an object with distinct names, the first name does not occur again. */
  lemma HeadNotInTail(d: Doc)
    requires Unique(d) && |d| > 0
    ensures d[0].name !in Names(d[1..])
  {
    InNames(d[1..], d[0].name);
  }

  /** A field whose name is new, put in front of distinct names, keeps them distinct. */
  lemma UniqueCons(f: Field, rest: Doc)
    requires Unique(rest) && f.name !in Names(rest)
    ensures Unique([f] + rest)
  {
    InNames(rest, f.name);
    var r := [f] + rest;
    forall i, j | 0 <= i < j < |r| ensures r[i].name != r[j].name {
      assert r[j] == rest[j - 1];
      if i > 0 {
        assert r[i] == rest[i - 1];
      }
    }
  }

  /** The name at position `i` of a list is the name of its `i`-th field. */
  lemma {:induction false} NameAt(d: Doc, i: nat)
    requires i < |d|
    ensures Names(d)[i] == d[i].name
    decreases i
  {
    if i > 0 {
      NameAt(d[1..], i - 1);
    }
  }

  /** After `delete d[k]`, `k` reads nothing and every other name reads as before. */
  lemma {:induction false} DeleteFieldGet(d: Doc, k: string, n: string)
    ensures Get(DeleteField(d, k), n) == if n == k then None else Get(d, n)
    decreases |d|
  {
    if |d| > 0 {
      DeleteFieldGet(d[1..], k, n);
      if d[0].name != k {
        assert ([d[0]] + DeleteField(d[1..], k))[1..] == DeleteField(d[1..], k);
      }
    }
  }

  /** Deletion keeps the names of an object distinct. */
  lemma {:induction false} DeleteFieldUnique(d: Doc, k: string)
    requires Unique(d)
    ensures Unique(DeleteField(d, k))
    decreases |d|
  {
    if |d| > 0 {
      assert Unique(d[1..]);
      DeleteFieldUnique(d[1..], k);
      if d[0].name != k {
        HeadNotInTail(d);
        DeleteFieldNames(d[1..], k);
        UniqueCons(d[0], DeleteField(d[1..], k));
      }
    }
  }

  /** Looking up a name in a list with one more field at the end. */
  lemma {:induction false} GetSnoc(d: Doc, f: Field, n: string)
    ensures Get(d + [f], n) == if n in Names(d) then Get(d, n) else if f.name == n then Some(f.value) else None
    decreases |d|
  {
    if |d| > 0 {
      assert (d + [f])[1..] == d[1..] + [f];
      GetSnoc(d[1..], f, n);
    }
  }

  /** In an object with distinct names, every field is found by its name. */
  lemma {:induction false} GetAt(d: Doc, i: nat)
    requires Unique(d) && i < |d|
    ensures Get(d, d[i].name) == Some(d[i].value)
    decreases i
  {
    if i > 0 {
      assert d[0].name != d[i].name;
      assert Unique(d[1..]);
      GetAt(d[1..], i - 1);
    }
  }
}
