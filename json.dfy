/** JSON values as Python builds them (dicts keep insertion order) and their
    text as `json.dumps` writes it with its default `ensure_ascii=True`:
    every character outside printable ASCII is written as a `\uXXXX` escape
    (two of them, a surrogate pair, above U+FFFF). */
module JsonValues {
  import opened Base

  datatype Json =
    | JNull
    | JBool(b: bool)
    | JInt(i: int)
    | JStr(s: string)
    | JArr(items: seq<Json>)
    | JObj(fields: seq<(string, Json)>)

  // ---------------------------------------------------------------------
  // Dicts: ordered fields with Python's lookup and item assignment.

  function KeysOf(fs: seq<(string, Json)>): (ks: seq<string>)
    ensures |ks| == |fs|
    ensures forall i :: 0 <= i < |fs| ==> ks[i] == fs[i].0
  {
    if fs == [] then [] else [fs[0].0] + KeysOf(fs[1..])
  }

  predicate DistinctKeys(fs: seq<(string, Json)>) {
    forall i, j :: 0 <= i < j < |fs| ==> fs[i].0 != fs[j].0
  }

  /** `d.get(k)`: the value of the first field named `k`. */
  function Lookup(fs: seq<(string, Json)>, k: string): Option<Json> {
    if fs == [] then None
    else if fs[0].0 == k then Some(fs[0].1)
    else Lookup(fs[1..], k)
  }

  /** `d.get(k)` finds nothing exactly when no key is `k`. */
  lemma {:induction false} LookupNone(fs: seq<(string, Json)>, k: string)
    ensures Lookup(fs, k).None? <==> k !in KeysOf(fs)
  {
    if fs != [] {
      LookupNone(fs[1..], k);
      assert KeysOf(fs) == [fs[0].0] + KeysOf(fs[1..]);
    }
  }

  /** `d[k] = v`: overwrites the field in place when `k` is present, and
      otherwise appends a new last field. */
  function SetKey(fs: seq<(string, Json)>, k: string, v: Json): (r: seq<(string, Json)>)
    ensures KeysOf(r) == if k in KeysOf(fs) then KeysOf(fs) else KeysOf(fs) + [k]
  {
    if fs == [] then [(k, v)]
    else if fs[0].0 == k then [(k, v)] + fs[1..]
    else
      var tail := SetKey(fs[1..], k, v);
      var r := [fs[0]] + tail;
      assert r[1..] == tail;
      assert KeysOf(fs) == [fs[0].0] + KeysOf(fs[1..]);
      assert KeysOf(r) == [fs[0].0] + KeysOf(tail);
      r
  }

  /** After `d[k] = v`, `d[k]` is `v` and every other key reads as before. */
  lemma {:induction false} SetKeyLookup(fs: seq<(string, Json)>, k: string, v: Json, k': string)
    ensures Lookup(SetKey(fs, k, v), k) == Some(v)
    ensures k' != k ==> Lookup(SetKey(fs, k, v), k') == Lookup(fs, k')
  {
    if fs != [] && fs[0].0 != k {
      SetKeyLookup(fs[1..], k, v, k');
      var r := SetKey(fs, k, v);
      assert r[1..] == SetKey(fs[1..], k, v);
    }
  }

  /** Item assignment keeps the keys of a dict distinct. */
  lemma SetKeyDistinct(fs: seq<(string, Json)>, k: string, v: Json)
    requires DistinctKeys(fs)
    ensures DistinctKeys(SetKey(fs, k, v))
  {
    var r := SetKey(fs, k, v);
    var ks, rs := KeysOf(fs), KeysOf(r);
    assert forall i, j :: 0 <= i < j < |ks| ==> ks[i] != ks[j];
    assert forall i, j :: 0 <= i < j < |rs| ==> rs[i] != rs[j];
  }

  /** The first field named `k` is the one `d.get(k)` finds. */
  lemma {:induction false} LookupFirst(fs: seq<(string, Json)>, i: nat, k: string)
    requires i < |fs| && fs[i].0 == k
    requires forall j :: 0 <= j < i ==> fs[j].0 != k
    ensures Lookup(fs, k) == Some(fs[i].1)
  {
    if i > 0 {
      LookupFirst(fs[1..], i - 1, k);
    }
  }

  /** True when `j` is a dict with a field named `k`. */
  predicate HasKey(j: Json, k: string) {
    j.JObj? && k in KeysOf(j.fields)
  }

  /** The value of field `k` of a dict `j`. */
  function Get(j: Json, k: string): Option<Json> {
    if j.JObj? then Lookup(j.fields, k) else None
  }

  // ---------------------------------------------------------------------
  // Text.

  /** The two separators of `json.dumps`: between items and after a key. */
  datatype Separators = Separators(item: string, key: string)

  /** `separators=(',', ':')`. */
  const Compact := Separators(",", ":")

  /** Python's default separators, `(', ', ': ')`. */
  const PyDefault := Separators(", ", ": ")

  function HexDigit(d: nat): char
    requires d < 16
  {
    "0123456789abcdef"[d]
  }

  /** Four lower-case hex digits, as `'{0:04x}'.format(n)`. */
  function Hex4(n: nat): string
    requires n < 0x10000
  {
    [HexDigit(n / 0x1000), HexDigit(n / 0x100 % 0x10), HexDigit(n / 0x10 % 0x10), HexDigit(n % 0x10)]
  }

  /** The escape `json.dumps` writes for one character of a string. */
  function EscapeChar(c: char): string {
    var n := c as int;
    if c == '"' then "\\\""
    else if c == '\\' then "\\\\"
    else if c == '\n' then "\\n"
    else if c == '\r' then "\\r"
    else if c == '\t' then "\\t"
    else if n == 0x08 then "\\b"
    else if n == 0x0C then "\\f"
    else if 0x20 <= n <= 0x7E then [c]
    else if n < 0x10000 then UnicodeEscape(n)
    else
      var m := n - 0x10000;
      UnicodeEscape(0xD800 + m / 0x400) + UnicodeEscape(0xDC00 + m % 0x400)
  }

  /** `\uXXXX` for one UTF-16 code unit. */
  function UnicodeEscape(n: nat): string
    requires n < 0x10000
  {
    "\\u" + Hex4(n)
  }

  function EscapeString(s: string): string {
    if s == [] then "" else EscapeChar(s[0]) + EscapeString(s[1..])
  }

  /** A JSON string literal. */
  function Quote(s: string): string {
    "\"" + EscapeString(s) + "\""
  }

  /** `sep.join(parts)`. */
  function Join(parts: seq<string>, sep: string): string {
    if parts == [] then ""
    else if |parts| == 1 then parts[0]
    else parts[0] + sep + Join(parts[1..], sep)
  }

  /** `json.dumps(j, separators=sep)`. */
  function Dumps(j: Json, sep: Separators): string
    decreases j
  {
    match j
    case JNull => "null"
    case JBool(b) => if b then "true" else "false"
    case JInt(i) => IntToDecimal(i)
    case JStr(s) => Quote(s)
    case JArr(xs) =>
      "[" + Join(seq(|xs|, i requires 0 <= i < |xs| => Dumps(xs[i], sep)), sep.item) + "]"
    case JObj(fs) =>
      "{" + Join(seq(|fs|, i requires 0 <= i < |fs| => Quote(fs[i].0) + sep.key + Dumps(fs[i].1, sep)), sep.item) + "}"
  }

  /** A dict with one field is written as `{`, the key, the key separator,
      the value and `}`. */
  lemma DumpsSingleField(k: string, v: Json, sep: Separators)
    ensures Dumps(JObj([(k, v)]), sep) == "{" + Quote(k) + sep.key + Dumps(v, sep) + "}"
  {
    var fs := [(k, v)];
    var parts := seq(|fs|, i requires 0 <= i < |fs| => Quote(fs[i].0) + sep.key + Dumps(fs[i].1, sep));
    assert parts == [Quote(k) + sep.key + Dumps(v, sep)];
  }

  /** Every character is printable ASCII (space to tilde); in particular
      there is no line break. */
  predicate Printable(s: string) {
    forall i :: 0 <= i < |s| ==> ' ' <= s[i] <= '~'
  }

  lemma Hex4Printable(n: nat)
    requires n < 0x10000
    ensures Printable(Hex4(n))
  {
  }

  lemma UnicodeEscapePrintable(n: nat)
    requires n < 0x10000
    ensures Printable(UnicodeEscape(n))
  {
    Hex4Printable(n);
  }

  lemma PrintableConcat(a: string, b: string)
    requires Printable(a) && Printable(b)
    ensures Printable(a + b)
  {
  }

  lemma EscapeCharPrintable(c: char)
    ensures Printable(EscapeChar(c))
  {
    var n := c as int;
    if n >= 0x10000 {
      var m := n - 0x10000;
      UnicodeEscapePrintable(0xD800 + m / 0x400);
      UnicodeEscapePrintable(0xDC00 + m % 0x400);
      PrintableConcat(UnicodeEscape(0xD800 + m / 0x400), UnicodeEscape(0xDC00 + m % 0x400));
    } else if n < 0x20 || n > 0x7E {
      UnicodeEscapePrintable(n);
    }
  }

  lemma {:induction false} EscapeStringPrintable(s: string)
    ensures Printable(EscapeString(s))
  {
    if s != [] {
      EscapeCharPrintable(s[0]);
      EscapeStringPrintable(s[1..]);
    }
  }

  lemma {:induction false} JoinPrintable(parts: seq<string>, sep: string)
    requires Printable(sep)
    requires forall i :: 0 <= i < |parts| ==> Printable(parts[i])
    ensures Printable(Join(parts, sep))
  {
    if |parts| > 1 {
      JoinPrintable(parts[1..], sep);
    }
  }

  lemma QuotePrintable(s: string)
    ensures Printable(Quote(s))
  {
    EscapeStringPrintable(s);
  }

  /** Whatever the value, its `json.dumps` text is printable ASCII: no
      character of it is a line break. */
  lemma {:induction false} DumpsPrintable(j: Json, sep: Separators)
    requires Printable(sep.item) && Printable(sep.key)
    ensures Printable(Dumps(j, sep))
    decreases j
  {
    match j
    case JNull =>
    case JBool(b) =>
    case JInt(i) =>
    case JStr(s) => QuotePrintable(s);
    case JArr(xs) =>
      var parts := seq(|xs|, i requires 0 <= i < |xs| => Dumps(xs[i], sep));
      forall i | 0 <= i < |xs| ensures Printable(parts[i]) {
        DumpsPrintable(xs[i], sep);
      }
      JoinPrintable(parts, sep.item);
    case JObj(fs) =>
      var parts := seq(|fs|, i requires 0 <= i < |fs| => Quote(fs[i].0) + sep.key + Dumps(fs[i].1, sep));
      forall i | 0 <= i < |fs| ensures Printable(parts[i]) {
        QuotePrintable(fs[i].0);
        DumpsPrintable(fs[i].1, sep);
      }
      JoinPrintable(parts, sep.item);
  }
}
