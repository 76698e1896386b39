/** JSON values, the text `json.dumps` prints for them, and the text `strict_json` accepts.

    Objects keep the order in which their keys were written, because a Python
    dictionary does; everything that must not depend on that order is proved
    not to in module `Canonical`. */
module Json {
  import opened Prelude

  datatype Json =
    | Null
    | Bool(b: bool)
    | Int(n: int)
    | Float(spelling: string)
    | Str(s: string)
    | Arr(items: Items)
    | Obj(fields: Fields)

  datatype Items = NoItems | Item(head: Json, tail: Items)

  datatype Fields = NoFields | Field(key: string, value: Json, rest: Fields)

  /** `dict.get(key)`. */
  function Get(f: Fields, key: string): Option<Json> {
    match f
    case NoFields => None
    case Field(k, v, rest) => if k == key then Some(v) else Get(rest, key)
  }

  function Keys(f: Fields): set<string> {
    match f
    case NoFields => {}
    case Field(k, _, rest) => {k} + Keys(rest)
  }

  predicate Distinct(f: Fields) {
    match f
    case NoFields => true
    case Field(k, _, rest) => k !in Keys(rest) && Distinct(rest)
  }

  /** The values `strict_json` can build: no object at any depth repeats a key,
      and every fractional number carries the spelling Python prints for it. */
  predicate Strict(v: Json) {
    match v
    case Arr(items) => StrictItems(items)
    case Obj(fields) => Distinct(fields) && StrictFields(fields)
    case Float(l) => IsFloatSpelling(l) && Respelled(l) == l
    case _ => true
  }

  predicate StrictItems(items: Items) {
    match items
    case NoItems => true
    case Item(head, tail) => Strict(head) && StrictItems(tail)
  }

  predicate StrictFields(f: Fields) {
    match f
    case NoFields => true
    case Field(_, v, rest) => Strict(v) && StrictFields(rest)
  }

  /** `dict(f, k=v)`: a key that is present keeps its place. */
  function Put(f: Fields, k: string, v: Json): Fields {
    match f
    case NoFields => Field(k, v, NoFields)
    case Field(j, w, rest) => if j == k then Field(k, v, rest) else Field(j, w, Put(rest, k, v))
  }

  /** `len` of a list. */
  function Count(items: Items): nat {
    if items.NoItems? then 0 else 1 + Count(items.tail)
  }

  /** `a + b` on lists. */
  function Concat(a: Items, b: Items): Items {
    if a.NoItems? then b else Item(a.head, Concat(a.tail, b))
  }

  // ---------------------------------------------------------------- numbers

  predicate IsDigit(c: char) {
    '0' <= c <= '9'
  }

  /** Length of the longest run of digits that starts `s`. */
  function DigitRun(s: string): (n: nat)
    ensures n <= |s|
  {
    if s == "" || !IsDigit(s[0]) then 0 else 1 + DigitRun(s[1..])
  }

  function IntLength(s: string): (n: nat)
    ensures n <= |s|
  {
    if s != "" && s[0] == '0' then 1 else DigitRun(s)
  }

  function FractionLength(s: string): (n: nat)
    ensures n <= |s|
  {
    if s != "" && s[0] == '.' && DigitRun(s[1..]) > 0 then 1 + DigitRun(s[1..]) else 0
  }

  predicate IsSign(c: char) {
    c == '+' || c == '-'
  }

  function ExponentLength(s: string): (n: nat)
    ensures n <= |s|
  {
    if s != "" && (s[0] == 'e' || s[0] == 'E') then
      var sign := if |s| > 1 && IsSign(s[1]) then 1 else 0;
      if DigitRun(s[1 + sign..]) > 0 then 1 + sign + DigitRun(s[1 + sign..]) else 0
    else 0
  }

  /** Length of the fraction and exponent together. */
  function MoreLength(s: string): (n: nat)
    ensures n <= |s|
  {
    FractionLength(s) + ExponentLength(s[FractionLength(s)..])
  }

  function SignLength(s: string): (n: nat)
    ensures n <= |s| && n <= 1
  {
    if s != "" && s[0] == '-' then 1 else 0
  }

  /** How much of `s` the JSON number grammar takes: the sign, the integer part,
      and the fraction and exponent. An empty integer part is no number. */
  datatype Lexed = Lexed(sign: nat, whole: nat, more: nat) {
    function Length(): nat {
      sign + whole + more
    }
  }

  function Lex(s: string): (l: Lexed)
    ensures l.Length() <= |s|
  {
    var b := s[SignLength(s)..];
    Lexed(SignLength(s), IntLength(b), MoreLength(b[IntLength(b)..]))
  }

  predicate IsFloatSpelling(s: string) {
    Lex(s).whole > 0 && Lex(s).more > 0 && Lex(s).Length() == |s|
  }

  /** What `repr(float(text))` gives. Nothing is assumed about it. */
  const PythonFloat: string -> string

  /** The spelling under which a fractional number is kept. A respelling that is
      not itself a stable JSON number is ignored, so respelling twice changes nothing. */
  function Respelled(l: string): (r: string)
    requires IsFloatSpelling(l)
    ensures IsFloatSpelling(r)
  {
    var r := PythonFloat(l);
    if IsFloatSpelling(r) && PythonFloat(r) == r then r else l
  }

  function DigitChar(d: int): char
    requires 0 <= d < 10
  {
    '0' + (d as char)
  }

  function Decimal(n: nat): string {
    if n < 10 then [DigitChar(n)] else Decimal(n / 10) + [DigitChar(n % 10)]
  }

  function DecimalValue(ds: string): (n: nat)
    requires DigitRun(ds) == |ds|
  {
    if ds == "" then 0
    else
      assert ds == ds[..|ds| - 1] + [ds[|ds| - 1]];
      DigitRunSplit(ds[..|ds| - 1], [ds[|ds| - 1]]);
      DecimalValue(ds[..|ds| - 1]) * 10 + (ds[|ds| - 1] - '0') as int
  }

  // ---------------------------------------------------------------- printing

  function HexChar(d: int): char
    requires 0 <= d < 16
  {
    if d < 10 then '0' + (d as char) else 'a' + ((d - 10) as char)
  }

  function EscapeChar(c: char): string {
    if c == '"' then "\\\""
    else if c == '\\' then "\\\\"
    else if c == '\n' then "\\n"
    else if c == '\r' then "\\r"
    else if c == '\t' then "\\t"
    else if c == '\U{000C}' then "\\f"
    else if c == '\U{0008}' then "\\b"
    else if c < ' ' then "\\u00" + [HexChar(c as int / 16), HexChar(c as int % 16)]
    else [c]
  }

  function Escape(s: string): string {
    if s == "" then "" else EscapeChar(s[0]) + Escape(s[1..])
  }

  function Quote(s: string): string {
    "\"" + Escape(s) + "\""
  }

  /** The `separators` argument of `json.dumps`. */
  datatype Style = Compact | Spaced {
    function Comma(): string {
      if Compact? then "," else ", "
    }

    function Colon(): string {
      if Compact? then ":" else ": "
    }
  }

  /** `json.dumps(v, ensure_ascii=False, separators=st)`. */
  function Print(v: Json, st: Style): string {
    match v
    case Null => "null"
    case Bool(b) => if b then "true" else "false"
    case Int(n) => if n < 0 then "-" + Decimal(-n) else Decimal(n)
    case Float(l) => l
    case Str(s) => Quote(s)
    case Arr(items) => "[" + PrintItems(items, st) + "]"
    case Obj(fields) => "{" + PrintFields(fields, st) + "}"
  }

  function PrintItems(items: Items, st: Style): string {
    match items
    case NoItems => ""
    case Item(head, NoItems) => Print(head, st)
    case Item(head, tail) => Print(head, st) + st.Comma() + PrintItems(tail, st)
  }

  function PrintFields(f: Fields, st: Style): string {
    match f
    case NoFields => ""
    case Field(k, v, NoFields) => Quote(k) + st.Colon() + Print(v, st)
    case Field(k, v, rest) => Quote(k) + st.Colon() + Print(v, st) + st.Comma() + PrintFields(rest, st)
  }

  // ---------------------------------------------------------------- parsing

  predicate IsBlank(c: char) {
    c == ' ' || c == '\t' || c == '\n' || c == '\r'
  }

  function Skip(s: string): (r: string)
    ensures |r| <= |s|
  {
    if s != "" && IsBlank(s[0]) then Skip(s[1..]) else s
  }

  predicate Starts(s: string, c: char) {
    s != "" && s[0] == c
  }

  function HexValue(c: char): (r: Option<int>)
    ensures r.Some? ==> 0 <= r.value < 16
  {
    if '0' <= c <= '9' then Some((c - '0') as int)
    else if 'a' <= c <= 'f' then Some((c - 'a') as int + 10)
    else if 'A' <= c <= 'F' then Some((c - 'A') as int + 10)
    else None
  }

  function Hex4(s: string): (r: Option<(int, string)>)
    ensures r.Some? ==> 0 <= r.value.0 < 0x10000 && |r.value.1| == |s| - 4
  {
    if |s| < 4 then None
    else
      var a :- HexValue(s[0]);
      var b :- HexValue(s[1]);
      var c :- HexValue(s[2]);
      var d :- HexValue(s[3]);
      Some((a * 4096 + b * 256 + c * 16 + d, s[4..]))
  }

  /** A `\u` escape, joining a surrogate pair as Python does. Half a pair names
      no character of this model and is refused. */
  function UnicodeEscape(s: string): (r: Option<(char, string)>)
    ensures r.Some? ==> |r.value.1| < |s|
  {
    var (high, rest) :- Hex4(s);
    if high < 0xD800 || 0xE000 <= high then Some((high as char, rest))
    else if high < 0xDC00 && |rest| >= 2 && rest[..2] == "\\u" then
      var (low, rest') :- Hex4(rest[2..]);
      if 0xDC00 <= low < 0xE000
      then Some(((0x10000 + (high - 0xD800) * 1024 + (low - 0xDC00)) as char, rest'))
      else None
    else None
  }

  function EscapeSequence(s: string): (r: Option<(char, string)>)
    ensures r.Some? ==> |r.value.1| < |s|
  {
    if s == "" then None
    else if s[0] == '"' || s[0] == '\\' || s[0] == '/' then Some((s[0], s[1..]))
    else if s[0] == 'b' then Some(('\U{0008}', s[1..]))
    else if s[0] == 'f' then Some(('\U{000C}', s[1..]))
    else if s[0] == 'n' then Some(('\n', s[1..]))
    else if s[0] == 'r' then Some(('\r', s[1..]))
    else if s[0] == 't' then Some(('\t', s[1..]))
    else if s[0] == 'u' then UnicodeEscape(s[1..])
    else None
  }

  /** The body of a string literal, from just after its opening quote. */
  function ParseString(s: string): (r: Option<(string, string)>)
    ensures r.Some? ==> |r.value.1| < |s|
    decreases |s|
  {
    if s == "" || s[0] < ' ' then None
    else if s[0] == '"' then Some(("", s[1..]))
    else if s[0] == '\\' then
      var (c, rest) :- EscapeSequence(s[1..]);
      var (t, rest') :- ParseString(rest);
      Some(([c] + t, rest'))
    else
      var (t, rest) :- ParseString(s[1..]);
      Some(([s[0]] + t, rest))
  }

  /** The number that a whole JSON number text denotes. */
  function NumberValue(text: string): Json
    requires Lex(text).whole > 0 && Lex(text).Length() == |text|
  {
    var l := Lex(text);
    if l.more > 0 then Float(Respelled(text))
    else
      WholeIsDigits(text[l.sign..]);
      assert text[l.sign..] == text[l.sign..][..l.whole];
      var n: int := DecimalValue(text[l.sign..]);
      Int(if l.sign == 1 then -n else n)
  }

  function ParseNumber(s: string): (r: Option<(Json, string)>)
    ensures r.Some? ==> |r.value.1| < |s|
  {
    var n := Lex(s).Length();
    if Lex(s).whole == 0 then None
    else
      LexPrefix(s);
      Some((NumberValue(s[..n]), s[n..]))
  }

  function Keyword(s: string, word: string, v: Json): (r: Option<(Json, string)>)
    requires word != ""
    ensures r.Some? ==> |r.value.1| < |s|
  {
    if word <= s then Some((v, s[|word|..])) else None
  }

  function ParseValue(s: string): (r: Option<(Json, string)>)
    ensures r.Some? ==> |r.value.1| < |s|
    decreases |s|, 1
  {
    if s == "" then None
    else if s[0] == '"' then ParseText(s[1..])
    else if s[0] == '{' then ParseObject(Skip(s[1..]))
    else if s[0] == '[' then ParseArray(Skip(s[1..]))
    else if s[0] == 'n' then Keyword(s, "null", Null)
    else if s[0] == 't' then Keyword(s, "true", Bool(true))
    else if s[0] == 'f' then Keyword(s, "false", Bool(false))
    else ParseNumber(s)
  }

  function ParseText(s: string): (r: Option<(Json, string)>)
    ensures r.Some? ==> |r.value.1| < |s|
  {
    var (t, rest) :- ParseString(s);
    Some((Str(t), rest))
  }

  /** From just after the brace; the whole object fails if it repeats a key. */
  function ParseObject(s: string): (r: Option<(Json, string)>)
    ensures r.Some? ==> |r.value.1| < |s|
    decreases |s|, 3
  {
    if Starts(s, '}') then Some((Obj(NoFields), s[1..]))
    else
      var (f, rest) :- ParseFields(s);
      if Distinct(f) then Some((Obj(f), rest)) else None
  }

  function ParseArray(s: string): (r: Option<(Json, string)>)
    ensures r.Some? ==> |r.value.1| < |s|
    decreases |s|, 3
  {
    if Starts(s, ']') then Some((Arr(NoItems), s[1..]))
    else
      var (items, rest) :- ParseItems(s);
      Some((Arr(items), rest))
  }

  function ParseItems(s: string): (r: Option<(Items, string)>)
    ensures r.Some? ==> |r.value.1| < |s|
    decreases |s|, 2
  {
    var (v, t) :- ParseValue(s);
    AfterItem(v, Skip(t))
  }

  function AfterItem(v: Json, s: string): (r: Option<(Items, string)>)
    ensures r.Some? ==> |r.value.1| < |s|
    decreases |s|, 3
  {
    if Starts(s, ']') then Some((Item(v, NoItems), s[1..]))
    else if Starts(s, ',') then
      var (items, rest) :- ParseItems(Skip(s[1..]));
      Some((Item(v, items), rest))
    else None
  }

  function ParseFields(s: string): (r: Option<(Fields, string)>)
    ensures r.Some? ==> |r.value.1| < |s|
    decreases |s|, 2
  {
    if Starts(s, '"') then
      var (k, t) :- ParseString(s[1..]);
      AfterKey(k, Skip(t))
    else None
  }

  function AfterKey(k: string, s: string): (r: Option<(Fields, string)>)
    ensures r.Some? ==> |r.value.1| < |s|
    decreases |s|, 3
  {
    if Starts(s, ':') then
      var (v, t) :- ParseValue(Skip(s[1..]));
      AfterField(k, v, Skip(t))
    else None
  }

  function AfterField(k: string, v: Json, s: string): (r: Option<(Fields, string)>)
    ensures r.Some? ==> |r.value.1| < |s|
    decreases |s|, 3
  {
    if Starts(s, '}') then Some((Field(k, v, NoFields), s[1..]))
    else if Starts(s, ',') then
      var (f, rest) :- ParseFields(Skip(s[1..]));
      Some((Field(k, v, f), rest))
    else None
  }

  /** `strict_json(text)`: one value, nothing after it, no key twice. */
  function Loads(text: string): Option<Json> {
    var (v, rest) :- ParseValue(Skip(text));
    if Skip(rest) == "" then Some(v) else None
  }

  // ---------------------------------------------------------------- numbers: proofs

  lemma {:induction false} DigitRunSplit(a: string, b: string)
    ensures DigitRun(a + b) == |a + b| <==> DigitRun(a) == |a| && DigitRun(b) == |b|
  {
    if a == "" {
      assert a + b == b;
    } else {
      assert (a + b)[1..] == a[1..] + b;
      DigitRunSplit(a[1..], b);
    }
  }

  lemma {:induction false} DigitRunTaken(s: string)
    ensures DigitRun(s[..DigitRun(s)]) == DigitRun(s)
  {
    var n := DigitRun(s);
    if n > 0 {
      DigitRunTaken(s[1..]);
      assert s[..n][1..] == s[1..][..n - 1];
    }
  }

  lemma {:induction false} WholeIsDigits(s: string)
    ensures DigitRun(s[..IntLength(s)]) == IntLength(s)
  {
    if s != "" && s[0] == '0' {
      assert s[..1] == ['0'];
      assert DigitRun(s[..1][1..]) == 0;
    } else {
      DigitRunTaken(s);
    }
  }

  /** Text that cannot make a preceding number longer. */
  predicate Ends(r: string) {
    r == "" || !(IsDigit(r[0]) || r[0] == '.' || r[0] == 'e' || r[0] == 'E' || IsSign(r[0]))
  }

  lemma {:induction false} DigitRunAppend(a: string, r: string)
    requires Ends(r)
    ensures DigitRun(a + r) == DigitRun(a)
  {
    if a == "" {
      assert a + r == r;
    } else {
      assert (a + r)[1..] == a[1..] + r;
      DigitRunAppend(a[1..], r);
    }
  }

  lemma {:induction false} FractionAppend(a: string, r: string)
    requires Ends(r)
    ensures FractionLength(a + r) == FractionLength(a)
  {
    if a == "" {
      assert a + r == r;
    } else {
      assert (a + r)[1..] == a[1..] + r;
      DigitRunAppend(a[1..], r);
    }
  }

  lemma {:induction false} ExponentAppend(a: string, r: string)
    requires Ends(r)
    ensures ExponentLength(a + r) == ExponentLength(a)
  {
    if a == "" {
      assert a + r == r;
    } else {
      assert (a + r)[1..] == a[1..] + r;
      DigitRunAppend(a[1..], r);
      if |a| > 1 {
        assert (a + r)[2..] == a[2..] + r;
        DigitRunAppend(a[2..], r);
      } else if r != "" {
        assert (a + r)[1] == r[0];
      }
    }
  }

  lemma {:induction false} MoreAppend(a: string, r: string)
    requires Ends(r)
    ensures MoreLength(a + r) == MoreLength(a)
  {
    FractionAppend(a, r);
    assert (a + r)[FractionLength(a)..] == a[FractionLength(a)..] + r;
    ExponentAppend(a[FractionLength(a)..], r);
  }

  lemma {:induction false} IntAppend(a: string, r: string)
    requires Ends(r)
    ensures IntLength(a + r) == IntLength(a)
  {
    DigitRunAppend(a, r);
    if a == "" {
      assert a + r == r;
    }
  }

  /** The number grammar does not look past a terminator. */
  lemma {:induction false} LexAppend(a: string, r: string)
    requires Ends(r)
    ensures Lex(a + r) == Lex(a)
  {
    if a == "" {
      assert a + r == r;
    }
    var sign := SignLength(a);
    var b := a[sign..];
    assert (a + r)[sign..] == b + r;
    IntAppend(b, r);
    var whole := IntLength(b);
    assert (b + r)[whole..] == b[whole..] + r;
    MoreAppend(b[whole..], r);
  }

  lemma {:induction false} DigitRunPrefix(s: string, n: nat)
    requires n <= |s|
    ensures DigitRun(s[..n]) == if n < DigitRun(s) then n else DigitRun(s)
  {
    if n > 0 && IsDigit(s[0]) {
      assert s[..n][1..] == s[1..][..n - 1];
      DigitRunPrefix(s[1..], n - 1);
    }
  }

  lemma {:induction false} FractionPrefix(s: string, n: nat)
    requires FractionLength(s) <= n <= |s|
    ensures FractionLength(s[..n]) == FractionLength(s)
  {
    if n > 0 {
      assert s[..n][1..] == s[1..][..n - 1];
      DigitRunPrefix(s[1..], n - 1);
    }
  }

  lemma {:induction false} ExponentPrefix(s: string, n: nat)
    requires ExponentLength(s) <= n <= |s|
    ensures ExponentLength(s[..n]) == ExponentLength(s)
  {
    if n > 0 {
      assert s[..n][1..] == s[1..][..n - 1];
      DigitRunPrefix(s[1..], n - 1);
      if n > 1 {
        assert s[..n][2..] == s[2..][..n - 2];
        DigitRunPrefix(s[2..], n - 2);
      }
    }
  }

  lemma {:induction false} MorePrefix(s: string, n: nat)
    requires MoreLength(s) <= n <= |s|
    ensures MoreLength(s[..n]) == MoreLength(s)
  {
    var fraction := FractionLength(s);
    FractionPrefix(s, n);
    assert s[..n][fraction..] == s[fraction..][..n - fraction];
    ExponentPrefix(s[fraction..], n - fraction);
  }

  lemma {:induction false} IntPrefix(s: string, n: nat)
    requires IntLength(s) <= n <= |s|
    ensures IntLength(s[..n]) == IntLength(s)
  {
    DigitRunPrefix(s, n);
  }

  lemma {:induction false} BodyPrefix(b: string, n: nat)
    requires n == IntLength(b) + MoreLength(b[IntLength(b)..])
    ensures IntLength(b[..n]) == IntLength(b)
    ensures MoreLength(b[..n][IntLength(b)..]) == MoreLength(b[IntLength(b)..])
  {
    var whole := IntLength(b);
    IntPrefix(b, n);
    assert b[..n][whole..] == b[whole..][..n - whole];
    MorePrefix(b[whole..], n - whole);
  }

  /** Reading back exactly what was taken takes all of it. */
  lemma {:induction false} LexPrefix(s: string)
    ensures Lex(s[..Lex(s).Length()]) == Lex(s)
  {
    var sign, n := SignLength(s), Lex(s).Length();
    BodyPrefix(s[sign..], n - sign);
    assert s[..n][sign..] == s[sign..][..n - sign];
    assert SignLength(s[..n]) == sign;
  }

  lemma {:induction false} DecimalDigits(n: nat)
    ensures DigitRun(Decimal(n)) == |Decimal(n)| > 0
    ensures n > 0 ==> Decimal(n)[0] != '0'
    ensures n == 0 ==> Decimal(n) == "0"
  {
    if n < 10 {
      assert DigitRun(Decimal(n)[1..]) == 0;
    } else {
      DecimalDigits(n / 10);
      var last := [DigitChar(n % 10)];
      assert DigitRun(last[1..]) == 0;
      DigitRunSplit(Decimal(n / 10), last);
    }
  }

  lemma {:induction false} DecimalRoundTrip(n: nat)
    ensures DigitRun(Decimal(n)) == |Decimal(n)|
    ensures DecimalValue(Decimal(n)) == n
  {
    DecimalDigits(n);
    var ds := Decimal(n);
    if n < 10 {
      assert ds[..0] == "";
      assert DecimalValue(ds[..0]) == 0;
    } else {
      DecimalRoundTrip(n / 10);
      assert ds[..|ds| - 1] == Decimal(n / 10);
    }
  }

  lemma {:induction false} LexInt(n: int, st: Style)
    ensures var m := if n < 0 then -n else n;
            Lex(Print(Int(n), st)) == Lexed(if n < 0 then 1 else 0, |Decimal(m)|, 0)
  {
    var m: nat := if n < 0 then -n else n;
    var text := Print(Int(n), st);
    DecimalDigits(m);
    assert text[SignLength(text)..] == Decimal(m);
    assert Decimal(m)[|Decimal(m)|..] == "";
  }

  lemma {:induction false} IntValue(n: int, st: Style)
    ensures var text := Print(Int(n), st);
            Lex(text).whole > 0 && Lex(text).Length() == |text| && NumberValue(text) == Int(n)
  {
    var m: nat := if n < 0 then -n else n;
    LexInt(n, st);
    DecimalDigits(m);
    DecimalRoundTrip(m);
    assert Print(Int(n), st)[if n < 0 then 1 else 0..] == Decimal(m);
  }

  /** A number text is read to its end and no further. */
  lemma {:induction false} NumberRoundTrip(text: string, rest: string)
    requires Lex(text).whole > 0 && Lex(text).Length() == |text| && Ends(rest)
    ensures ParseNumber(text + rest) == Some((NumberValue(text), rest))
  {
    LexAppend(text, rest);
    assert (text + rest)[..|text|] == text;
    assert (text + rest)[|text|..] == rest;
  }

  // ---------------------------------------------------------------- strings: proofs

  lemma {:induction false} HexRoundTrip(d: int)
    requires 0 <= d < 16
    ensures HexValue(HexChar(d)) == Some(d)
  {
  }

  lemma {:induction false} EscapeRoundTrip(c: char, rest: string)
    ensures EscapeChar(c)[0] != '"' && EscapeChar(c)[0] >= ' '
    ensures EscapeChar(c)[0] == '\\' ==> EscapeSequence(EscapeChar(c)[1..] + rest) == Some((c, rest))
    ensures EscapeChar(c)[0] != '\\' ==> EscapeChar(c) == [c]
  {
    var e := EscapeChar(c);
    var s := e[1..] + rest;
    if |e| == 2 {
      assert s[0] == e[1] && s[1..] == rest;
    } else if |e| == 6 {
      assert s[0] == 'u' && s[1] == '0' && s[2] == '0' && s[3] == e[4] && s[4] == e[5];
      var t := s[1..];
      assert t[0] == '0' && t[1] == '0' && t[2] == e[4] && t[3] == e[5] && t[4..] == rest;
      HexRoundTrip(c as int / 16);
      HexRoundTrip(c as int % 16);
      assert Hex4(t) == Some((c as int, rest));
    }
  }

  lemma {:induction false} CharRoundTrip(c: char, tail: string, t: string, rest: string)
    requires ParseString(tail) == Some((t, rest))
    ensures ParseString(EscapeChar(c) + tail) == Some(([c] + t, rest))
  {
    var e := EscapeChar(c);
    EscapeRoundTrip(c, tail);
    assert (e + tail)[1..] == e[1..] + tail;
    if e[0] != '\\' {
      assert (e + tail)[1..] == tail;
    }
  }

  lemma {:induction false} StringRoundTrip(s: string, rest: string)
    ensures ParseString(Escape(s) + "\"" + rest) == Some((s, rest))
  {
    var text := Escape(s) + "\"" + rest;
    if s == "" {
      assert text == "\"" + rest;
      assert text[1..] == rest;
    } else {
      var tail := Escape(s[1..]) + "\"" + rest;
      StringRoundTrip(s[1..], rest);
      assert text == EscapeChar(s[0]) + tail;
      CharRoundTrip(s[0], tail, s[1..], rest);
      assert [s[0]] + s[1..] == s;
    }
  }

  lemma {:induction false} QuoteRoundTrip(s: string, rest: string)
    ensures Starts(Quote(s) + rest, '"')
    ensures ParseString((Quote(s) + rest)[1..]) == Some((s, rest))
  {
    StringRoundTrip(s, rest);
    assert (Quote(s) + rest)[1..] == Escape(s) + "\"" + rest;
  }

  // ---------------------------------------------------------------- values: proofs

  lemma {:induction false} SkipSolid(s: string)
    requires s != "" && !IsBlank(s[0])
    ensures Skip(s) == s
  {
  }

  lemma {:induction false} SkipSeparator(sep: string, c: char, s: string)
    requires sep == [c] || sep == [c, ' ']
    requires !IsBlank(c)
    requires s != "" && !IsBlank(s[0])
    ensures Skip(sep + s) == sep + s
    ensures Starts(sep + s, c)
    ensures Skip((sep + s)[1..]) == s
  {
    if sep == [c] {
      assert (sep + s)[1..] == s;
    } else {
      assert (sep + s)[1..] == [' '] + s;
      assert ([' '] + s)[1..] == s;
    }
  }

  predicate Opens(c: char) {
    !IsBlank(c) && c != ']' && c != '}' && c != ',' && c != ':'
  }

  /** What a printed value starts with selects the branch that reads it back. */
  lemma {:induction false} PrintHead(v: Json, st: Style)
    requires Strict(v)
    ensures Print(v, st) != "" && Opens(Print(v, st)[0])
    ensures v.Int? || v.Float? ==> IsDigit(Print(v, st)[0]) || Print(v, st)[0] == '-'
  {
    match v
    case Int(n) => DecimalDigits(if n < 0 then -n else n);
    case Float(l) =>
      if l[0] != '-' {
        assert l[0..] == l;
      }
    case _ =>
  }

  lemma {:induction false} PrintItemsHead(items: Items, st: Style)
    requires items.Item? && StrictItems(items)
    ensures PrintItems(items, st) != "" && Opens(PrintItems(items, st)[0])
  {
    PrintHead(items.head, st);
  }

  lemma {:induction false} PrintFieldsHead(f: Fields, st: Style)
    requires f.Field?
    ensures Starts(PrintFields(f, st), '"')
  {
  }

  /** `strict_json` reads back exactly what `json.dumps` printed, whatever follows it. */
  lemma {:induction false} ValueRoundTrip(v: Json, st: Style, rest: string)
    requires Strict(v) && Ends(rest)
    ensures ParseValue(Print(v, st) + rest) == Some((v, rest))
    decreases v, 0
  {
    match v
    case Arr(items) =>
      ArrayRoundTrip(items, st, rest);
    case Obj(f) =>
      ObjectRoundTrip(f, st, rest);
    case Str(t) =>
      QuoteRoundTrip(t, rest);
    case Int(_) =>
      PrintedNumberRoundTrip(v, st, rest);
    case Float(_) =>
      PrintedNumberRoundTrip(v, st, rest);
    case _ =>
      KeywordRoundTrip(v, st, rest);
  }

  lemma {:induction false} KeywordRoundTrip(v: Json, st: Style, rest: string)
    requires v.Null? || v.Bool?
    ensures ParseValue(Print(v, st) + rest) == Some((v, rest))
  {
    var text := Print(v, st);
    assert text <= text + rest;
    assert (text + rest)[|text|..] == rest;
  }

  lemma {:induction false} NumberBranch(s: string, r: Option<(Json, string)>)
    requires s != "" && (IsDigit(s[0]) || s[0] == '-')
    requires ParseNumber(s) == r
    ensures ParseValue(s) == r
  {
    assert s[0] != '"' && s[0] != '{' && s[0] != '[' && s[0] != 'n' && s[0] != 't' && s[0] != 'f';
  }

  lemma {:induction false} PrintedNumberRoundTrip(v: Json, st: Style, rest: string)
    requires Strict(v) && Ends(rest) && (v.Int? || v.Float?)
    ensures ParseValue(Print(v, st) + rest) == Some((v, rest))
  {
    PrintHead(v, st);
    if v.Int? {
      IntValue(v.n, st);
    }
    NumberRoundTrip(Print(v, st), rest);
    NumberBranch(Print(v, st) + rest, Some((v, rest)));
  }

  lemma {:induction false} ArrayRoundTrip(items: Items, st: Style, rest: string)
    requires StrictItems(items)
    ensures ParseValue(Print(Arr(items), st) + rest) == Some((Arr(items), rest))
    decreases items, 2
  {
    var s := Print(Arr(items), st) + rest;
    var t := PrintItems(items, st) + "]" + rest;
    assert s[1..] == t;
    if items == NoItems {
      assert t == "]" + rest;
      assert t[1..] == rest;
    } else {
      ItemsRoundTrip(items, st, rest);
      PrintItemsHead(items, st);
      SkipSolid(t);
    }
    assert ParseArray(t) == Some((Arr(items), rest));
    ArrayBranch(s, t);
  }

  /** An opening bracket hands over to `ParseArray`. */
  lemma {:induction false} ArrayBranch(s: string, t: string)
    requires s != "" && s[0] == '[' && s[1..] == t && Skip(t) == t
    ensures ParseValue(s) == ParseArray(t)
  {
  }

  lemma {:induction false} ObjectRoundTrip(f: Fields, st: Style, rest: string)
    requires Strict(Obj(f))
    ensures ParseValue(Print(Obj(f), st) + rest) == Some((Obj(f), rest))
    decreases f, 2
  {
    var s := Print(Obj(f), st) + rest;
    var t := PrintFields(f, st) + "}" + rest;
    assert s[1..] == t;
    if f == NoFields {
      assert t == "}" + rest;
      assert t[1..] == rest;
    } else {
      FieldsRoundTrip(f, st, rest);
      PrintFieldsHead(f, st);
      SkipSolid(t);
    }
    assert ParseObject(t) == Some((Obj(f), rest));
    ObjectBranch(s, t);
  }

  /** An opening brace hands over to `ParseObject`. */
  lemma {:induction false} ObjectBranch(s: string, t: string)
    requires s != "" && s[0] == '{' && s[1..] == t && Skip(t) == t
    ensures ParseValue(s) == ParseObject(t)
  {
  }

  lemma {:induction false} Regroup(head: string, sep: string, tail: string, close: string, rest: string)
    ensures head + sep + tail + close + rest == head + (sep + (tail + close + rest))
    ensures head + close + rest == head + (close + rest)
  {
  }

  lemma {:induction false} ItemsRoundTrip(items: Items, st: Style, rest: string)
    requires items.Item? && StrictItems(items)
    ensures ParseItems(PrintItems(items, st) + "]" + rest) == Some((items, rest))
    decreases items, 1
  {
    var head := Print(items.head, st);
    var tail := PrintItems(items.tail, st);
    Regroup(head, st.Comma(), tail, "]", rest);
    if items.tail == NoItems {
      ValueRoundTrip(items.head, st, "]" + rest);
      assert ("]" + rest)[1..] == rest;
    } else {
      var more := tail + "]" + rest;
      ValueRoundTrip(items.head, st, st.Comma() + more);
      ItemsRoundTrip(items.tail, st, rest);
      PrintItemsHead(items.tail, st);
      SkipSeparator(st.Comma(), ',', more);
    }
  }

  lemma {:induction false} KeyRoundTrip(k: string, after: string)
    requires Skip(after) == after
    ensures ParseFields(Quote(k) + after) == AfterKey(k, after)
  {
    QuoteRoundTrip(k, after);
  }

  /** A printed field is read up to what follows its value. */
  lemma {:induction false} FieldRoundTrip(k: string, v: Json, st: Style, after: string)
    requires Strict(v)
    requires ParseValue(Print(v, st) + after) == Some((v, after))
    ensures ParseFields(Quote(k) + st.Colon() + Print(v, st) + after) == AfterField(k, v, Skip(after))
  {
    PrintHead(v, st);
    var text := Print(v, st) + after;
    var colon := st.Colon() + text;
    assert Quote(k) + st.Colon() + Print(v, st) + after == Quote(k) + colon;
    SkipSeparator(st.Colon(), ':', text);
    ColonRoundTrip(k, v, colon, text, after);
    KeyRoundTrip(k, colon);
  }

  lemma {:induction false} ColonRoundTrip(k: string, v: Json, s: string, text: string, after: string)
    requires Starts(s, ':') && Skip(s[1..]) == text
    requires ParseValue(text) == Some((v, after))
    ensures AfterKey(k, s) == AfterField(k, v, Skip(after))
  {
  }

  lemma {:induction false} FieldsRoundTrip(f: Fields, st: Style, rest: string)
    requires f.Field? && StrictFields(f)
    ensures ParseFields(PrintFields(f, st) + "}" + rest) == Some((f, rest))
    decreases f, 1
  {
    var head := Quote(f.key) + st.Colon() + Print(f.value, st);
    var tail := PrintFields(f.rest, st);
    Regroup(head, st.Comma(), tail, "}", rest);
    if f.rest == NoFields {
      ValueRoundTrip(f.value, st, "}" + rest);
      FieldRoundTrip(f.key, f.value, st, "}" + rest);
      assert ("}" + rest)[1..] == rest;
    } else {
      var more := tail + "}" + rest;
      ValueRoundTrip(f.value, st, st.Comma() + more);
      FieldRoundTrip(f.key, f.value, st, st.Comma() + more);
      FieldsRoundTrip(f.rest, st, rest);
      PrintFieldsHead(f.rest, st);
      SkipSeparator(st.Comma(), ',', more);
    }
  }

  lemma {:induction false} DumpsRoundTrip(v: Json, st: Style)
    requires Strict(v)
    ensures Loads(Print(v, st)) == Some(v)
  {
    ValueRoundTrip(v, st, "");
    PrintHead(v, st);
    assert Print(v, st) + "" == Print(v, st);
  }

  /** Two values print alike only if they are alike, so a hash of the text names the value. */
  lemma {:induction false} PrintInjective(v: Json, w: Json, st: Style)
    requires Strict(v) && Strict(w)
    requires Print(v, st) == Print(w, st)
    ensures v == w
  {
    DumpsRoundTrip(v, st);
    DumpsRoundTrip(w, st);
  }

  /** Every value `strict_json` returns is free of repeated keys at every depth. */
  lemma {:induction false} ParsedIsStrict(s: string)
    ensures ParseValue(s).Some? ==> Strict(ParseValue(s).value.0)
    decreases |s|, 1
  {
    if s == "" {
    } else if s[0] == '[' {
      ParsedArrayIsStrict(Skip(s[1..]));
    } else if s[0] == '{' {
      ParsedObjectIsStrict(Skip(s[1..]));
    } else if s[0] == '"' || s[0] == 'n' || s[0] == 't' || s[0] == 'f' {
      assert ParseValue(s).Some? ==> !ParseValue(s).value.0.Float?;
    } else {
      ParsedNumberIsStrict(s);
    }
  }

  lemma {:induction false} ParsedArrayIsStrict(s: string)
    ensures ParseArray(s).Some? ==> Strict(ParseArray(s).value.0)
    decreases |s|, 3
  {
    ParsedItemsAreStrict(s);
  }

  lemma {:induction false} ParsedObjectIsStrict(s: string)
    ensures ParseObject(s).Some? ==> Strict(ParseObject(s).value.0)
    decreases |s|, 3
  {
    ParsedFieldsAreStrict(s);
  }

  lemma {:induction false} ParsedItemsAreStrict(s: string)
    ensures ParseItems(s).Some? ==> StrictItems(ParseItems(s).value.0)
    decreases |s|, 2
  {
    if ParseItems(s).Some? {
      ParsedIsStrict(s);
      var t := Skip(ParseValue(s).value.1);
      if !Starts(t, ']') {
        ParsedItemsAreStrict(Skip(t[1..]));
      }
    }
  }

  lemma {:induction false} ParsedFieldsAreStrict(s: string)
    ensures ParseFields(s).Some? ==> StrictFields(ParseFields(s).value.0)
    decreases |s|, 2
  {
    if Starts(s, '"') && ParseString(s[1..]).Some? {
      var (k, t) := ParseString(s[1..]).value;
      AfterKeyIsStrict(k, Skip(t));
    }
  }

  lemma {:induction false} AfterKeyIsStrict(k: string, s: string)
    ensures AfterKey(k, s).Some? ==> StrictFields(AfterKey(k, s).value.0)
    decreases |s|, 3
  {
    if Starts(s, ':') && ParseValue(Skip(s[1..])).Some? {
      var (v, t) := ParseValue(Skip(s[1..])).value;
      ParsedIsStrict(Skip(s[1..]));
      AfterFieldIsStrict(k, v, Skip(t));
    }
  }

  lemma {:induction false} AfterFieldIsStrict(k: string, v: Json, s: string)
    requires Strict(v)
    ensures AfterField(k, v, s).Some? ==> StrictFields(AfterField(k, v, s).value.0)
    decreases |s|, 3
  {
    if Starts(s, ',') {
      ParsedFieldsAreStrict(Skip(s[1..]));
    }
  }

  lemma {:induction false} ParsedNumberIsStrict(s: string)
    ensures ParseNumber(s).Some? ==> Strict(ParseNumber(s).value.0)
  {
    if Lex(s).whole > 0 && Lex(s).more > 0 {
      LexPrefix(s);
      RespelledTwice(s[..Lex(s).Length()]);
    }
  }

  lemma {:induction false} RespelledTwice(l: string)
    requires IsFloatSpelling(l)
    ensures Respelled(Respelled(l)) == Respelled(l)
  {
  }

  lemma {:induction false} LoadsIsStrict(text: string)
    ensures Loads(text).Some? ==> Strict(Loads(text).value)
  {
    ParsedIsStrict(Skip(text));
  }

  // ---------------------------------------------------------------- dictionary laws

  lemma {:induction false} PutThenGet(f: Fields, k: string, v: Json, key: string)
    ensures Get(Put(f, k, v), key) == if key == k then Some(v) else Get(f, key)
  {
    if f.Field? && f.key != k {
      PutThenGet(f.rest, k, v, key);
    }
  }

  lemma {:induction false} PutTwice(f: Fields, k: string, v: Json, w: Json)
    ensures Put(Put(f, k, v), k, w) == Put(f, k, w)
  {
    if f.Field? && f.key != k {
      PutTwice(f.rest, k, v, w);
    }
  }

  lemma {:induction false} PutBack(f: Fields, k: string, v: Json)
    ensures Put(f, k, v) == f <==> Get(f, k) == Some(v)
  {
    if f.Field? && f.key != k {
      PutBack(f.rest, k, v);
    }
  }

  lemma {:induction false} StrictGet(f: Fields, key: string)
    requires StrictFields(f) && Get(f, key).Some?
    ensures Strict(Get(f, key).value)
  {
    if f.key != key {
      StrictGet(f.rest, key);
    }
  }

  lemma {:induction false} PutIsStrict(f: Fields, k: string, v: Json)
    requires Strict(Obj(f)) && Strict(v)
    ensures Strict(Obj(Put(f, k, v))) && Keys(Put(f, k, v)) == Keys(f) + {k}
  {
    if f.Field? && f.key != k {
      assert Strict(Obj(f.rest));
      PutIsStrict(f.rest, k, v);
    }
  }
}
