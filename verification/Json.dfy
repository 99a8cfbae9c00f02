/**
 JSON values as Python's `json` module sees them, and the text that
 `json.dumps(value, ensure_ascii=False, sort_keys=True, separators=(",", ":"))` prints.

 Sections 4 to 7 of RFC 8259 give the grammar.  `PrintTo(v, k)` is the text of `v` followed by `k`, so that
 a parser can be shown to undo it without ever re-associating a concatenation.
 */
module Json {
  import opened Outcomes

  /** The text Python prints for a float.  A float is known here by this text only. */
  type FloatText = t: string | IsFloatText(t) witness "NaN"

  predicate IsFloatText(t: string) {
    && t != ""
    && (forall c :: c in t ==> IsAtomChar(c))
    && t !in ["null", "true", "false"]
    && !IsIntText(t)
  }

  /** A dictionary keeps its insertion order, as a Python dictionary does. */
  datatype Json =
    | Null
    | Bool(b: bool)
    | Int(n: int)
    | Float(text: FloatText)
    | Str(s: string)
    | Arr(items: seq<Json>)
    | Obj(fields: seq<Field>)

  datatype Field = Field(key: string, value: Json)

  function Keys(fields: seq<Field>): seq<string> {
    seq(|fields|, i requires 0 <= i < |fields| => fields[i].key)
  }

  predicate Distinct(keys: seq<string>) {
    forall i, j :: 0 <= i < j < |keys| ==> keys[i] != keys[j]
  }

  /** No dictionary inside `v` has the same key twice: what every Python value satisfies. */
  predicate WellFormed(v: Json) {
    match v
    case Arr(items) => forall x :: x in items ==> WellFormed(x)
    case Obj(fields) => Distinct(Keys(fields)) && forall f :: f in fields ==> WellFormed(f.value)
    case _ => true
  }

  // ---------- numbers and bare words ----------

  predicate IsDigit(c: char) {
    '0' <= c <= '9'
  }

  predicate IsAtomChar(c: char) {
    IsDigit(c) || 'a' <= c <= 'z' || 'A' <= c <= 'Z' || c in ['+', '-', '.']
  }

  function DigitChar(d: int): (c: char)
    requires 0 <= d < 10
    ensures IsDigit(c)
  {
    '0' + d as char
  }

  function Decimal(n: nat): (t: string)
    ensures t != "" && forall c :: c in t ==> IsDigit(c)
  {
    if n < 10 then [DigitChar(n)] else Decimal(n / 10) + [DigitChar(n % 10)]
  }

  function IntText(n: int): string {
    if n < 0 then "-" + Decimal(-n) else Decimal(n)
  }

  predicate IsDecimalText(t: string) {
    t != "" && IsDigit(t[0]) && forall i :: 0 <= i < |t| ==> IsDigit(t[i])
  }

  predicate IsIntText(t: string) {
    IsDecimalText(t) || (t != "" && t[0] == '-' && IsDecimalText(t[1..]))
  }

  function DigitValue(c: char): nat
    requires IsDigit(c)
  {
    c as int - '0' as int
  }

  function ParseDecimal(t: string): nat
    requires forall i :: 0 <= i < |t| ==> IsDigit(t[i])
  {
    if t == "" then 0
    else ParseDecimal(t[..|t| - 1]) * 10 + DigitValue(t[|t| - 1])
  }

  function ParseInt(t: string): int
    requires IsIntText(t)
  {
    if t[0] == '-' then -(ParseDecimal(t[1..]) as int) else ParseDecimal(t)
  }

  lemma {:induction false} ParseDecimalText(n: nat)
    ensures ParseDecimal(Decimal(n)) == n
  {
    if n >= 10 {
      ParseDecimalText(n / 10);
      assert Decimal(n)[..|Decimal(n)| - 1] == Decimal(n / 10);
    } else {
      assert Decimal(n)[..0] == "";
    }
  }

  lemma ParseIntText(n: int)
    ensures IsIntText(IntText(n)) && ParseInt(IntText(n)) == n
    ensures forall c :: c in IntText(n) ==> IsAtomChar(c)
    ensures IntText(n) !in ["null", "true", "false"]
  {
    if n < 0 {
      ParseDecimalText(-n);
      assert IntText(n)[1..] == Decimal(-n);
    } else {
      ParseDecimalText(n);
      assert IsDigit(IntText(n)[0]);
    }
  }

  // ---------- printing ----------

  function HexChar(d: int): char
    requires 0 <= d < 16
  {
    if d < 10 then DigitChar(d) else 'a' + (d - 10) as char
  }

  /** How one character is written inside a string. */
  function EscapeChar(c: char): (t: string)
    ensures t != ""
  {
    if c == '"' then "\\\""
    else if c == '\\' then "\\\\"
    else if c == '\n' then "\\n"
    else if c == '\r' then "\\r"
    else if c == '\t' then "\\t"
    else if c as int == 0x8 then "\\b"
    else if c as int == 0xC then "\\f"
    else if c as int < 0x20 then "\\u00" + [HexChar(c as int / 16), HexChar(c as int % 16)]
    else [c]
  }

  /** Section 7 of RFC 8259, as Python prints it: seven short escapes, the other controls in six characters. */
  lemma EscapeCharIs(c: char)
    ensures var t, n := EscapeChar(c), c as int;
            && (n >= 0x20 && c != '"' && c != '\\' <==> t == [c])
            && (t != [c] ==> t[0] == '\\' && (|t| == 2 || |t| == 6))
            && (|t| == 2 <==> c in ['"', '\\', '\n', '\r', '\t'] || n == 8 || n == 12)
            && (|t| == 6 ==> t[..4] == "\\u00" && t[4] in "01" && t[5] in "0123456789abcdef")
  {
  }

  /** The characters of `s`, the closing quote, then `k`. */
  function StringTo(s: string, k: string): (t: string)
    ensures |t| > |k|
  {
    if s == "" then "\"" + k else EscapeChar(s[0]) + StringTo(s[1..], k)
  }

  predicate IsAtom(v: Json) {
    !v.Str? && !v.Arr? && !v.Obj?
  }

  function AtomText(v: Json): string
    requires IsAtom(v)
  {
    match v
    case Null => "null"
    case Bool(b) => if b then "true" else "false"
    case Int(n) => IntText(n)
    case Float(t) => t
  }

  /** The text of `v` followed by `k`. */
  function PrintTo(v: Json, k: string): string
    decreases v, 0
  {
    match v
    case Str(s) => "\"" + StringTo(s, k)
    case Arr(items) => "[" + ItemsTo(items, k)
    case Obj(fields) => "{" + FieldsTo(fields, k)
    case _ => AtomText(v) + k
  }

  /** The items, separated by commas, the closing bracket, then `k`. */
  function ItemsTo(items: seq<Json>, k: string): string
    decreases items, 1
  {
    if items == [] then "]" + k
    else PrintTo(items[0], if |items| == 1 then "]" + k else "," + ItemsTo(items[1..], k))
  }

  function FieldsTo(fields: seq<Field>, k: string): string
    decreases fields, 1
  {
    if fields == [] then "}" + k
    else FieldTo(fields[0], if |fields| == 1 then "}" + k else "," + FieldsTo(fields[1..], k))
  }

  function FieldTo(f: Field, k: string): string
    decreases f, 1
  {
    "\"" + StringTo(f.key, ":" + PrintTo(f.value, k))
  }

  // ---------- parsing ----------

  function HexValue(c: char): Option<nat> {
    if IsDigit(c) then Some(DigitValue(c))
    else if 'a' <= c <= 'f' then Some(c as int - 'a' as int + 10)
    else None
  }

  function ParseHex(s: string): Option<char>
    requires |s| == 4
  {
    match (HexValue(s[0]), HexValue(s[1]), HexValue(s[2]), HexValue(s[3]))
    case (Some(a), Some(b), Some(c), Some(d)) =>
      var n := ((a * 16 + b) * 16 + c) * 16 + d;
      if 0 <= n < 0xD800 || 0xE000 <= n < 0x10000 then Some(n as char) else None
    case _ => None
  }

  /** One possibly escaped character: what it stands for and the text after it. */
  function ParseChar(s: string): (r: Option<(char, string)>)
    ensures r.Some? ==> |r.value.1| < |s|
  {
    if s == "" || (s[0] as int) < 0x20 || s[0] == '"' then None
    else if s[0] != '\\' then Some((s[0], s[1..]))
    else if |s| < 2 then None
    else if s[1] == '"' then Some(('"', s[2..]))
    else if s[1] == '\\' then Some(('\\', s[2..]))
    else if s[1] == 'n' then Some(('\n', s[2..]))
    else if s[1] == 'r' then Some(('\r', s[2..]))
    else if s[1] == 't' then Some(('\t', s[2..]))
    else if s[1] == 'b' then Some((0x8 as char, s[2..]))
    else if s[1] == 'f' then Some((0xC as char, s[2..]))
    else if s[1] == 'u' && |s| >= 6 && ParseHex(s[2..6]).Some? then Some((ParseHex(s[2..6]).value, s[6..]))
    else None
  }

  /** The rest of a string whose opening quote has been read. */
  function ParseString(s: string): (r: Option<(string, string)>)
    ensures r.Some? ==> |r.value.1| < |s|
    decreases |s|
  {
    if s != "" && s[0] == '"' then Some(("", s[1..]))
    else match ParseChar(s)
      case None => None
      case Some((c, rest)) =>
        match ParseString(rest)
        case None => None
        case Some((text, rest')) => Some(([c] + text, rest'))
  }

  function AtomPrefix(s: string): (n: nat)
    ensures n <= |s|
  {
    if s == "" || !IsAtomChar(s[0]) then 0 else 1 + AtomPrefix(s[1..])
  }

  function ParseAtom(t: string): Json
    requires t != "" && forall c :: c in t ==> IsAtomChar(c)
  {
    if t == "null" then Null
    else if t == "true" then Bool(true)
    else if t == "false" then Bool(false)
    else if IsIntText(t) then Int(ParseInt(t))
    else Float(t)
  }

  lemma AtomPrefixIsAtom(s: string)
    ensures forall c :: c in s[..AtomPrefix(s)] ==> IsAtomChar(c)
  {
    if s != "" && IsAtomChar(s[0]) {
      AtomPrefixIsAtom(s[1..]);
      assert s[..AtomPrefix(s)] == [s[0]] + s[1..][..AtomPrefix(s[1..])];
    }
  }

  function ParseValue(s: string): (r: Option<(Json, string)>)
    ensures r.Some? ==> |r.value.1| < |s|
    decreases |s|, 1
  {
    if s == "" then None
    else if s[0] == '"' then
      match ParseString(s[1..])
      case None => None
      case Some((text, rest)) => Some((Str(text), rest))
    else if s[0] == '[' then
      if |s| > 1 && s[1] == ']' then Some((Arr([]), s[2..])) else
      match ParseItems(s[1..])
      case None => None
      case Some((items, rest)) => Some((Arr(items), rest))
    else if s[0] == '{' then
      if |s| > 1 && s[1] == '}' then Some((Obj([]), s[2..])) else
      match ParseFields(s[1..])
      case None => None
      case Some((fields, rest)) => Some((Obj(fields), rest))
    else
      var n := AtomPrefix(s);
      if n == 0 then None else
      AtomPrefixIsAtom(s);
      Some((ParseAtom(s[..n]), s[n..]))
  }

  /** One or more items up to and including the closing bracket. */
  function ParseItems(s: string): (r: Option<(seq<Json>, string)>)
    ensures r.Some? ==> |r.value.1| < |s|
    decreases |s|, 2
  {
    match ParseValue(s)
    case None => None
    case Some((v, rest)) =>
      if rest == "" then None
      else if rest[0] == ']' then Some(([v], rest[1..]))
      else if rest[0] != ',' then None
      else match ParseItems(rest[1..])
        case None => None
        case Some((items, rest')) => Some(([v] + items, rest'))
  }

  function ParseField(s: string): (r: Option<(Field, string)>)
    ensures r.Some? ==> |r.value.1| < |s|
    decreases |s|, 2
  {
    if s == "" || s[0] != '"' then None else
    match ParseString(s[1..])
    case None => None
    case Some((key, rest)) =>
      if rest == "" || rest[0] != ':' then None
      else match ParseValue(rest[1..])
        case None => None
        case Some((v, rest')) => Some((Field(key, v), rest'))
  }

  function ParseFields(s: string): (r: Option<(seq<Field>, string)>)
    ensures r.Some? ==> |r.value.1| < |s|
    decreases |s|, 3
  {
    match ParseField(s)
    case None => None
    case Some((f, rest)) =>
      if rest == "" then None
      else if rest[0] == '}' then Some(([f], rest[1..]))
      else if rest[0] != ',' then None
      else match ParseFields(rest[1..])
        case None => None
        case Some((fields, rest')) => Some(([f] + fields, rest'))
  }

  function Parse(s: string): Option<Json> {
    match ParseValue(s)
    case Some((v, rest)) => if rest == "" then Some(v) else None
    case None => None
  }

  // ---------- the parser undoes the printer ----------

  lemma ParseEscaped(c: char, k: string)
    ensures ParseChar(EscapeChar(c) + k) == Some((c, k))
  {
    var t := EscapeChar(c) + k;
    assert forall i :: 0 <= i < |EscapeChar(c)| ==> t[i] == EscapeChar(c)[i];
    assert t[|EscapeChar(c)|..] == k;
    var n := c as int;
    if n < 0x20 && |EscapeChar(c)| == 6 {
      assert t[2..6] == ['0', '0', HexChar(n / 16), HexChar(n % 16)];
      assert n == n / 16 * 16 + n % 16;
    }
  }

  lemma {:induction false} ParsePrintedString(s: string, k: string)
    ensures ParseString(StringTo(s, k)) == Some((s, k))
  {
    if s != "" {
      var rest := StringTo(s[1..], k);
      ParseEscaped(s[0], rest);
      assert StringTo(s, k)[0] == EscapeChar(s[0])[0];
      ParsePrintedString(s[1..], k);
      assert [s[0]] + s[1..] == s;
    }
  }

  /** What may follow a value inside a text. */
  predicate Delimited(k: string) {
    k == "" || k[0] in [',', ']', '}']
  }

  lemma {:induction false} AtomPrefixOf(t: string, k: string)
    requires forall c :: c in t ==> IsAtomChar(c)
    requires k == "" || !IsAtomChar(k[0])
    ensures AtomPrefix(t + k) == |t|
  {
    if t == "" {
      assert t + k == k;
    } else {
      assert (t + k)[1..] == t[1..] + k;
      AtomPrefixOf(t[1..], k);
    }
  }

  lemma AtomTextIsAtom(v: Json)
    requires IsAtom(v)
    ensures AtomText(v) != "" && forall c :: c in AtomText(v) ==> IsAtomChar(c)
    ensures ParseAtom(AtomText(v)) == v
  {
    match v
    case Int(n) => ParseIntText(n);
    case _ =>
  }

  lemma ParsePrintedAtom(v: Json, k: string)
    requires IsAtom(v) && Delimited(k)
    ensures ParseValue(AtomText(v) + k) == Some((v, k))
  {
    AtomTextIsAtom(v);
    var t := AtomText(v);
    AtomPrefixOf(t, k);
    assert (t + k)[0] == t[0];
    assert (t + k)[..|t|] == t && (t + k)[|t|..] == k;
  }

  lemma {:induction false} ParsePrinted(v: Json, k: string)
    requires Delimited(k)
    ensures ParseValue(PrintTo(v, k)) == Some((v, k))
    decreases v, 0
  {
    hide ParseString, StringTo, AtomText, ParseAtom, AtomPrefix;
    match v
    case Str(s) =>
      ParsePrintedString(s, k);
      assert PrintTo(v, k)[1..] == StringTo(s, k);
    case Arr(items) =>
      assert PrintTo(v, k)[1..] == ItemsTo(items, k);
      if items != [] {
        ParsePrintedItems(items, k);
        PrintToStart(items[0], if |items| == 1 then "]" + k else "," + ItemsTo(items[1..], k));
      } else {
        assert PrintTo(v, k)[2..] == k;
      }
    case Obj(fields) =>
      assert PrintTo(v, k)[1..] == FieldsTo(fields, k);
      if fields != [] {
        ParsePrintedFields(fields, k);
      } else {
        assert PrintTo(v, k)[2..] == k;
      }
    case _ => ParsePrintedAtom(v, k);
  }

  lemma PrintToStart(v: Json, k: string)
    ensures PrintTo(v, k) != "" && PrintTo(v, k)[0] != ']'
  {
    if IsAtom(v) {
      AtomTextIsAtom(v);
      assert PrintTo(v, k)[0] == AtomText(v)[0];
      assert IsAtomChar(PrintTo(v, k)[0]);
    }
  }

  lemma {:induction false} ParsePrintedItems(items: seq<Json>, k: string)
    requires items != []
    ensures ParseItems(ItemsTo(items, k)) == Some((items, k))
    decreases items, 1
  {
    var k' := if |items| == 1 then "]" + k else "," + ItemsTo(items[1..], k);
    ParsePrinted(items[0], k');
    if |items| == 1 {
      assert k'[1..] == k;
      assert items == [items[0]];
    } else {
      ParsePrintedItems(items[1..], k);
      assert k'[1..] == ItemsTo(items[1..], k);
      assert items == [items[0]] + items[1..];
    }
  }

  lemma {:induction false} ParsePrintedField(f: Field, k: string)
    requires Delimited(k)
    ensures ParseField(FieldTo(f, k)) == Some((f, k))
    decreases f, 1
  {
    var rest := ":" + PrintTo(f.value, k);
    ParsePrintedString(f.key, rest);
    assert FieldTo(f, k)[1..] == StringTo(f.key, rest);
    assert rest[1..] == PrintTo(f.value, k);
    ParsePrinted(f.value, k);
  }

  lemma FieldStarts(f: Field, k: string)
    ensures FieldTo(f, k)[0] == '"'
  {
  }

  lemma {:induction false} ParsePrintedFields(fields: seq<Field>, k: string)
    requires fields != []
    ensures ParseFields(FieldsTo(fields, k)) == Some((fields, k))
    ensures FieldsTo(fields, k)[0] == '"'
    decreases fields, 1
  {
    hide PrintTo, StringTo, ParseField, ParseString, ParseValue;
    var k' := if |fields| == 1 then "}" + k else "," + FieldsTo(fields[1..], k);
    ParsePrintedField(fields[0], k');
    FieldStarts(fields[0], k');
    if |fields| == 1 {
      assert k'[1..] == k;
      assert fields == [fields[0]];
    } else {
      ParsePrintedFields(fields[1..], k);
      assert k'[1..] == FieldsTo(fields[1..], k);
      assert fields == [fields[0]] + fields[1..];
    }
  }

  function Print(v: Json): string {
    PrintTo(v, "")
  }

  /** Round trip: parsing a printed value gives that value back, dictionary order included. */
  lemma ParsePrint(v: Json)
    ensures Parse(Print(v)) == Some(v)
  {
    ParsePrinted(v, "");
  }
}
