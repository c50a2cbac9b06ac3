/** The grammar of JSON texts, sections 2 to 7 of RFC 8259, as concrete syntax trees.
    A tree keeps every character of the text it stands for, white space included, so
    `Render` is a plain flattening and a string is JSON exactly when some tree renders it.
    Strings are sequences of bytes; a byte is written as the character with its value. */
module JsonGrammar {

  predicate IsSpace(c: char) {
    c == ' ' || c == '\t' || c == '\n' || c == '\r'
  }

  predicate Spaces(s: string) {
    forall i | 0 <= i < |s| :: IsSpace(s[i])
  }

  predicate IsDigit(c: char) {
    '0' <= c <= '9'
  }

  predicate Digits(s: string) {
    forall i | 0 <= i < |s| :: IsDigit(s[i])
  }

  predicate IsHex(c: char) {
    IsDigit(c) || 'a' <= c <= 'f' || 'A' <= c <= 'F'
  }

  /** The characters that may follow a backslash, apart from `u`. */
  predicate IsEscape(c: char) {
    c == '"' || c == '\\' || c == '/' || c == 'b' || c == 'f' || c == 'n' || c == 'r' || c == 't'
  }

  /** A character a string may hold as it is. */
  predicate IsPlain(c: char) {
    ' ' <= c && c != '"' && c != '\\'
  }

  /** One character of a string: itself, a two-character escape, or `\u` with four hex digits. */
  datatype Unit = Plain(c: char) | Escape(c: char) | Unicode(a: char, b: char, c: char, d: char)

  /** minus, integer part, fraction and exponent of a number. */
  datatype Number = Number(minus: bool, whole: string, fraction: string, exponent: string)

  datatype Value =
    | Word(text: string)
    | Num(number: Number)
    | Str(units: seq<Unit>)
    | EmptyArray(gap: string)
    | Array(items: Items)
    | EmptyObject(gap: string)
    | Object(members: Members)

  datatype Items =
    | LastItem(pre: string, item: Value, post: string)
    | MoreItems(pre: string, item: Value, post: string, rest: Items)

  datatype Members =
    | LastMember(pre: string, key: seq<Unit>, mid: string, lead: string, item: Value, post: string)
    | MoreMembers(pre: string, key: seq<Unit>, mid: string, lead: string, item: Value, post: string, rest: Members)

  predicate WellFormedUnit(u: Unit) {
    match u
    case Plain(c) => IsPlain(c)
    case Escape(c) => IsEscape(c)
    case Unicode(a, b, c, d) => IsHex(a) && IsHex(b) && IsHex(c) && IsHex(d)
  }

  predicate WellFormedUnits(us: seq<Unit>) {
    forall i | 0 <= i < |us| :: WellFormedUnit(us[i])
  }

  predicate WellFormedWhole(s: string) {
    s == "0" || (|s| > 0 && Digits(s) && s[0] != '0')
  }

  predicate WellFormedFraction(s: string) {
    s == "" || (|s| > 1 && s[0] == '.' && Digits(s[1..]))
  }

  predicate IsExponentMark(c: char) {
    c == 'e' || c == 'E'
  }

  predicate IsSign(c: char) {
    c == '+' || c == '-'
  }

  predicate WellFormedExponent(s: string) {
    || s == ""
    || (|s| > 1 && IsExponentMark(s[0]) && Digits(s[1..]))
    || (|s| > 2 && IsExponentMark(s[0]) && IsSign(s[1]) && Digits(s[2..]))
  }

  predicate WellFormedNumber(n: Number) {
    WellFormedWhole(n.whole) && WellFormedFraction(n.fraction) && WellFormedExponent(n.exponent)
  }

  predicate WellFormed(v: Value) {
    match v
    case Word(t) => t == "true" || t == "false" || t == "null"
    case Num(n) => WellFormedNumber(n)
    case Str(us) => WellFormedUnits(us)
    case EmptyArray(g) => Spaces(g)
    case Array(xs) => WellFormedItems(xs)
    case EmptyObject(g) => Spaces(g)
    case Object(ms) => WellFormedMembers(ms)
  }

  predicate WellFormedItems(xs: Items) {
    Spaces(xs.pre) && WellFormed(xs.item) && Spaces(xs.post) && (xs.MoreItems? ==> WellFormedItems(xs.rest))
  }

  predicate WellFormedMembers(ms: Members) {
    && Spaces(ms.pre) && WellFormedUnits(ms.key) && Spaces(ms.mid) && Spaces(ms.lead)
    && WellFormed(ms.item) && Spaces(ms.post)
    && (ms.MoreMembers? ==> WellFormedMembers(ms.rest))
  }

  function RenderUnit(u: Unit): string {
    match u
    case Plain(c) => [c]
    case Escape(c) => ['\\', c]
    case Unicode(a, b, c, d) => ['\\', 'u', a, b, c, d]
  }

  function RenderUnits(us: seq<Unit>): string {
    if us == [] then "" else RenderUnit(us[0]) + RenderUnits(us[1..])
  }

  function RenderString(us: seq<Unit>): string {
    ['"'] + (RenderUnits(us) + ['"'])
  }

  function RenderNumber(n: Number): string {
    (if n.minus then "-" else "") + (n.whole + (n.fraction + n.exponent))
  }

  function Render(v: Value): string {
    match v
    case Word(t) => t
    case Num(n) => RenderNumber(n)
    case Str(us) => RenderString(us)
    case EmptyArray(g) => ['['] + (g + [']'])
    case Array(xs) => ['['] + (RenderItems(xs) + [']'])
    case EmptyObject(g) => ['{'] + (g + ['}'])
    case Object(ms) => ['{'] + (RenderMembers(ms) + ['}'])
  }

  function RenderItems(xs: Items): string {
    xs.pre + (Render(xs.item) + (xs.post + if xs.MoreItems? then [','] + RenderItems(xs.rest) else ""))
  }

  function RenderMembers(ms: Members): string {
    ms.pre + (RenderString(ms.key) + (ms.mid + ([':'] + (ms.lead + (Render(ms.item) + (ms.post +
      if ms.MoreMembers? then [','] + RenderMembers(ms.rest) else ""))))))
  }

  /** A JSON text: a value with white space around it. */
  datatype Text = Text(pre: string, value: Value, post: string)

  predicate WellFormedText(t: Text) {
    Spaces(t.pre) && WellFormed(t.value) && Spaces(t.post)
  }

  function RenderText(t: Text): string {
    t.pre + (Render(t.value) + t.post)
  }

  ghost predicate IsJson(s: string) {
    exists t: Text :: WellFormedText(t) && s == RenderText(t)
  }

  predicate IsOpen(c: char) {
    c == '{' || c == '['
  }

  predicate IsClose(c: char) {
    c == '}' || c == ']'
  }

  predicate IsContainer(v: Value) {
    v.EmptyArray? || v.Array? || v.EmptyObject? || v.Object?
  }

  /** `s` is exactly one array or object, with no white space around it. */
  ghost predicate IsContainerText(s: string) {
    exists v :: WellFormed(v) && IsContainer(v) && s == Render(v)
  }
}
