/// Shared vocabulary of the multi-mapping decoder and of the batch synthesizer:
/// database values, the ExpandoObject-like records both of them build, and the
/// few .NET string operations the core relies on (ordinal prefix test, ordinal
/// case-insensitive equality, `string.Join`, `int.ToString()`).
module Records {

  datatype Option<+T> = None | Some(value: T)

  datatype Result<+R, +E> = Success(value: R) | Failure(error: E)

  /** A scalar as it travels between the database and an object (other CLR scalar types are abstracted away). */
  datatype Value = Null | Int(i: int) | Text(s: string) | Bool(b: bool)

  /** What `DbDataReader.GetValue` hands back for one column: `DBNull.Value` or a value. */
  datatype DbValue = DbNull | Cell(v: Value)

  /** `temp == DBNull.Value ? null : temp` */
  function Normalize(d: DbValue): Value {
    match d
    case DbNull => Null
    case Cell(v) => v
  }

  datatype Field = Field(key: string, value: Value)

  /**
   * An ExpandoObject seen through `IDictionary<string, object>`: its fields in the
   * order their keys were first added; keys are compared ordinally (case matters).
   */
  type Record = seq<Field>

  function Keys(r: Record): set<string> {
    if r == [] then {} else {r[0].key} + Keys(r[1..])
  }

  predicate DistinctKeys(r: Record) {
    forall i, j :: 0 <= i < j < |r| ==> r[i].key != r[j].key
  }

  /** The dictionary's getter; `None` is the KeyNotFoundException of `obj[key]`. */
  function Lookup(r: Record, k: string): (v: Option<Value>)
    ensures v.Some? <==> k in Keys(r)
  {
    if r == [] then None
    else if r[0].key == k then Some(r[0].value)
    else Lookup(r[1..], k)
  }

  /**
   * The dictionary's setter `obj[k] = v`: an existing key keeps its position and
   * takes the new value, a new key is appended.
   */
  function Set(r: Record, k: string, v: Value): (r': Record)
    ensures Lookup(r', k) == Some(v)
    ensures forall k' :: k' != k ==> Lookup(r', k') == Lookup(r, k')
    ensures Keys(r') == Keys(r) + {k}
    ensures k !in Keys(r) ==> r' == r + [Field(k, v)]
  {
    if r == [] then [Field(k, v)]
    else if r[0].key == k then [Field(k, v)] + r[1..]
    else
      var rest := Set(r[1..], k, v);
      assert ([r[0]] + rest)[1..] == rest;
      [r[0]] + rest
  }

  /** Overwriting an existing key keeps every key where it was. */
  lemma {:induction false} SetKeepsPositions(r: Record, k: string, v: Value)
    requires k in Keys(r)
    ensures |Set(r, k, v)| == |r|
    ensures forall i :: 0 <= i < |r| ==> Set(r, k, v)[i].key == r[i].key
  {
    if r[0].key != k {
      SetKeepsPositions(r[1..], k, v);
      var s := Set(r, k, v);
      assert s == [r[0]] + Set(r[1..], k, v);
      forall i | 0 < i < |r| ensures s[i].key == r[i].key {
        assert s[i] == Set(r[1..], k, v)[i - 1];
      }
    }
  }

  /** A record whose keys are distinct keeps them distinct through a write. */
  lemma SetKeepsDistinct(r: Record, k: string, v: Value)
    requires DistinctKeys(r)
    ensures DistinctKeys(Set(r, k, v))
  {
    if k in Keys(r) {
      SetKeepsPositions(r, k, v);
    } else {
      KeysIndex(r, k);
    }
  }

  /** A key is in a record exactly when some field carries it. */
  lemma {:induction false} KeysIndex(r: Record, k: string)
    ensures k in Keys(r) <==> exists i :: 0 <= i < |r| && r[i].key == k
  {
    if r != [] {
      KeysIndex(r[1..], k);
      if k in Keys(r[1..]) {
        var i :| 0 <= i < |r[1..]| && r[1..][i].key == k;
        assert r[i + 1].key == k;
      }
      if exists i :: 0 <= i < |r| && r[i].key == k {
        var i :| 0 <= i < |r| && r[i].key == k;
        if i > 0 { assert r[1..][i - 1].key == k; }
      }
    }
  }

  /** The keys of `r` in order: what enumerating the ExpandoObject yields. */
  function FieldNames(r: Record): (names: seq<string>)
    ensures |names| == |r|
  {
    if r == [] then [] else FieldNames(r[..|r| - 1]) + [r[|r| - 1].key]
  }

  lemma {:induction false} FieldNamesAt(fs: Record, k: nat)
    requires k < |fs|
    ensures FieldNames(fs)[k] == fs[k].key
  {
    if k < |fs| - 1 {
      FieldNamesAt(fs[..|fs| - 1], k);
    }
  }

  /** A key is in the record exactly when it is in its enumeration. */
  lemma KeyNamed(r: Record, k: string)
    ensures k in Keys(r) <==> k in FieldNames(r)
  {
    KeysIndex(r, k);
    if k in Keys(r) {
      var i :| 0 <= i < |r| && r[i].key == k;
      FieldNamesAt(r, i);
    }
    if k in FieldNames(r) {
      var i :| 0 <= i < |FieldNames(r)| && FieldNames(r)[i] == k;
      FieldNamesAt(r, i);
    }
  }

  /** A write enumerates its key where it already was, or last when it is new. */
  lemma SetNames(r: Record, k: string, v: Value)
    ensures FieldNames(Set(r, k, v)) == if k in FieldNames(r) then FieldNames(r) else FieldNames(r) + [k]
  {
    KeyNamed(r, k);
    var s := Set(r, k, v);
    if k in Keys(r) {
      SetKeepsPositions(r, k, v);
      forall i | 0 <= i < |r|
        ensures FieldNames(s)[i] == FieldNames(r)[i]
      {
        FieldNamesAt(s, i);
        FieldNamesAt(r, i);
      }
    } else {
      assert s[..|s| - 1] == r;
    }
  }

  /** Upper-casing as `StringComparison.OrdinalIgnoreCase` does it, on the ASCII letters. */
  function UpperInvariant(c: char): char {
    if 'a' <= c <= 'z' then (c as int - 32) as char else c
  }

  /** `a.Equals(b, StringComparison.OrdinalIgnoreCase)` */
  predicate EqualsIgnoreCase(a: string, b: string) {
    |a| == |b| && forall i :: 0 <= i < |a| ==> UpperInvariant(a[i]) == UpperInvariant(b[i])
  }

  /** `s.StartsWith(prefix)`, taken ordinally. */
  predicate StartsWith(s: string, prefix: string) {
    |prefix| <= |s| && s[..|prefix|] == prefix
  }

  /** `string.Join(separator, parts)` */
  function Join(separator: string, parts: seq<string>): string {
    if |parts| == 0 then ""
    else if |parts| == 1 then parts[0]
    else parts[0] + separator + Join(separator, parts[1..])
  }

  function Digit(d: nat): char
    requires d < 10
  {
    ('0' as int + d) as char
  }

  /** `n.ToString()` for a non-negative counter: its decimal digits, most significant first. */
  function NatToString(n: nat): (s: string)
    ensures |s| > 0
    ensures forall i :: 0 <= i < |s| ==> '0' <= s[i] <= '9'
  {
    if n < 10 then [Digit(n)] else NatToString(n / 10) + [Digit(n % 10)]
  }

  /** The number a string of decimal digits denotes (`int.Parse` on digits). */
  function DigitsValue(s: string): nat
    requires forall i :: 0 <= i < |s| ==> '0' <= s[i] <= '9'
  {
    if s == [] then 0
    else DigitsValue(s[..|s| - 1]) * 10 + (s[|s| - 1] as int - '0' as int)
  }

  /** Printing a counter and reading it back gives the counter again. */
  lemma {:induction false} NatToStringRoundTrip(n: nat)
    ensures DigitsValue(NatToString(n)) == n
  {
    if n >= 10 {
      NatToStringRoundTrip(n / 10);
      var s := NatToString(n);
      assert s[..|s| - 1] == NatToString(n / 10);
    }
  }

  /** Distinct counters print as distinct strings, so numbered placeholders never collide. */
  lemma NatToStringInjective(m: nat, n: nat)
    requires m != n
    ensures NatToString(m) != NatToString(n)
  {
    NatToStringRoundTrip(m);
    NatToStringRoundTrip(n);
  }

  /** Exactly four spellings of a name equal "id" when case is ignored. */
  lemma IdSpellings(name: string)
    ensures EqualsIgnoreCase(name, "id") <==> name in {"id", "iD", "Id", "ID"}
  {
    if EqualsIgnoreCase(name, "id") {
      assert UpperInvariant(name[0]) == 'I' && UpperInvariant(name[1]) == 'D';
      assert name[0] == 'i' || name[0] == 'I';
      assert name[1] == 'd' || name[1] == 'D';
      assert name == [name[0], name[1]];
    }
  }
}
