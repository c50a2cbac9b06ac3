/** The validity check of JSON texts as the pushdown automaton of Go's standard scanner, and the
    proof that it accepts exactly the texts of the grammar. */
module JsonScanner {
  import opened JsonGrammar

  /** What the innermost open bracket waits for. */
  datatype Frame = InArray | InKey | InValue

  datatype Stack = Bottom | Push(top: Frame, below: Stack)

  datatype Mode =
    | BeginValue
    | BeginValueOrEnd
    | BeginKey
    | BeginKeyOrEnd
    | EndValue
    | InString
    | InEscape
    | InUnicode(left: nat)
    | InWord(rest: string)
    | AfterMinus
    | InZero
    | InWhole
    | AfterDot
    | InFraction
    | AfterMark
    | AfterSign
    | InExponent
    | Error

  datatype Config = Config(mode: Mode, stack: Stack)

  const START := Config(BeginValue, Bottom)
  const REJECT := Config(Error, Bottom)

  function StepValue(st: Stack, c: char): Config {
    if c == '{' then Config(BeginKeyOrEnd, Push(InKey, st))
    else if c == '[' then Config(BeginValueOrEnd, Push(InArray, st))
    else if c == '"' then Config(InString, st)
    else if c == '-' then Config(AfterMinus, st)
    else if c == '0' then Config(InZero, st)
    else if '1' <= c <= '9' then Config(InWhole, st)
    else if c == 't' then Config(InWord("rue"), st)
    else if c == 'f' then Config(InWord("alse"), st)
    else if c == 'n' then Config(InWord("ull"), st)
    else REJECT
  }

  function StepEnd(st: Stack, c: char): Config {
    if IsSpace(c) then Config(EndValue, st)
    else if st.Bottom? then REJECT
    else match st.top
      case InKey => if c == ':' then Config(BeginValue, Push(InValue, st.below)) else REJECT
      case InValue =>
        if c == ',' then Config(BeginKey, Push(InKey, st.below))
        else if c == '}' then Config(EndValue, st.below) else REJECT
      case InArray =>
        if c == ',' then Config(BeginValue, st)
        else if c == ']' then Config(EndValue, st.below) else REJECT
  }

  function StepFraction(st: Stack, c: char): Config {
    if c == '.' then Config(AfterDot, st) else StepMark(st, c)
  }

  function StepMark(st: Stack, c: char): Config {
    if IsExponentMark(c) then Config(AfterMark, st) else StepEnd(st, c)
  }

  function Step(k: Config, c: char): Config {
    var st := k.stack;
    match k.mode
    case BeginValue => if IsSpace(c) then k else StepValue(st, c)
    case BeginValueOrEnd =>
      if IsSpace(c) then k
      else if c == ']' then (if st.Push? then Config(EndValue, st.below) else REJECT)
      else StepValue(st, c)
    case BeginKey => if IsSpace(c) then k else if c == '"' then Config(InString, st) else REJECT
    case BeginKeyOrEnd =>
      if IsSpace(c) then k
      else if c == '}' then (if st.Push? then Config(EndValue, st.below) else REJECT)
      else if c == '"' then Config(InString, st) else REJECT
    case EndValue => StepEnd(st, c)
    case InString =>
      if c == '"' then Config(EndValue, st)
      else if c == '\\' then Config(InEscape, st)
      else if ' ' <= c then k else REJECT
    case InEscape =>
      if IsEscape(c) then Config(InString, st)
      else if c == 'u' then Config(InUnicode(4), st) else REJECT
    case InUnicode(left) =>
      if IsHex(c) then Config(if left > 1 then InUnicode(left - 1) else InString, st) else REJECT
    case InWord(rest) =>
      if rest != "" && c == rest[0] then
        Config(if |rest| == 1 then EndValue else InWord(rest[1..]), st)
      else REJECT
    case AfterMinus =>
      if c == '0' then Config(InZero, st) else if '1' <= c <= '9' then Config(InWhole, st) else REJECT
    case InZero => StepFraction(st, c)
    case InWhole => if IsDigit(c) then k else StepFraction(st, c)
    case AfterDot => if IsDigit(c) then Config(InFraction, st) else REJECT
    case InFraction => if IsDigit(c) then k else StepMark(st, c)
    case AfterMark =>
      if IsSign(c) then Config(AfterSign, st) else if IsDigit(c) then Config(InExponent, st) else REJECT
    case AfterSign => if IsDigit(c) then Config(InExponent, st) else REJECT
    case InExponent => if IsDigit(c) then k else StepEnd(st, c)
    case Error => REJECT
  }

  function Run(k: Config, s: string): Config
    decreases |s|
  {
    if s == "" then k else Run(Step(k, s[0]), s[1..])
  }

  /** At the end of the input the scanner is fed one space, which ends a number. */
  predicate Accepts(k: Config) {
    Step(k, ' ') == Config(EndValue, Bottom)
  }

  predicate Valid(s: string) {
    Accepts(Run(START, s))
  }

  lemma {:induction false} RunAppend(k: Config, a: string, b: string)
    ensures Run(k, a + b) == Run(Run(k, a), b)
    decreases |a|
  {
    if a == "" {
      assert a + b == b;
    } else {
      assert (a + b)[0] == a[0] && (a + b)[1..] == a[1..] + b;
      RunAppend(Step(k, a[0]), a[1..], b);
    }
  }

  lemma {:induction false} RunError(s: string)
    ensures Run(REJECT, s) == REJECT
    decreases |s|
  {
    if s != "" {
      RunError(s[1..]);
    }
  }

  // ---- every text of the grammar is accepted ----

  /** A value of context `st` is complete: the next character is read as after a value,
      unless it is one that would extend a number. */
  predicate Done(k: Config, st: Stack) {
    k.stack == st && (k.mode.EndValue? || k.mode.InZero? || k.mode.InWhole? || k.mode.InFraction? || k.mode.InExponent?)
  }

  predicate ExtendsNumber(c: char) {
    IsDigit(c) || c == '.' || IsExponentMark(c)
  }

  lemma {:induction false} RunSpaces(k: Config, g: string)
    requires Spaces(g)
    requires k.mode.BeginValue? || k.mode.BeginValueOrEnd? || k.mode.BeginKey? || k.mode.BeginKeyOrEnd? || k.mode.EndValue?
    ensures Run(k, g) == k
    decreases |g|
  {
    if g != "" {
      RunSpaces(k, g[1..]);
    }
  }

  lemma {:induction false} RunDigits(k: Config, ds: string)
    requires Digits(ds)
    requires k.mode.InWhole? || k.mode.InFraction? || k.mode.InExponent?
    ensures Run(k, ds) == k
    decreases |ds|
  {
    if ds != "" {
      RunDigits(k, ds[1..]);
    }
  }

  lemma RunOne(k: Config, c: char)
    ensures Run(k, [c]) == Step(k, c)
  {
    assert [c][1..] == "";
  }

  lemma RunUnit(st: Stack, u: Unit)
    requires WellFormedUnit(u)
    ensures Run(Config(InString, st), RenderUnit(u)) == Config(InString, st)
  {
    var k := Config(InString, st);
    var r := RenderUnit(u);
    match u
    case Plain(c) =>
      assert r[1..] == "";
    case Escape(c) =>
      assert r[1..] == [c];
      RunOne(Config(InEscape, st), c);
    case Unicode(a, b, c, d) =>
      assert r[1..] == ['u', a, b, c, d] && r[1..][1..] == [a, b, c, d];
      RunHexes(st, [a, b, c, d]);
  }

  lemma {:induction false} RunHexes(st: Stack, hs: string)
    requires hs != "" && forall i | 0 <= i < |hs| :: IsHex(hs[i])
    ensures Run(Config(InUnicode(|hs|), st), hs) == Config(InString, st)
    decreases |hs|
  {
    if |hs| > 1 {
      RunHexes(st, hs[1..]);
    }
  }

  lemma {:induction false} RunUnits(st: Stack, us: seq<Unit>)
    requires WellFormedUnits(us)
    ensures Run(Config(InString, st), RenderUnits(us)) == Config(InString, st)
  {
    if us != [] {
      RunUnit(st, us[0]);
      RunAppend(Config(InString, st), RenderUnit(us[0]), RenderUnits(us[1..]));
      RunUnits(st, us[1..]);
    }
  }

  lemma RunString(k: Config, us: seq<Unit>)
    requires WellFormedUnits(us)
    requires k.mode.BeginValue? || k.mode.BeginKey?
    ensures Run(k, RenderString(us)) == Config(EndValue, k.stack)
  {
    var body, inside := RenderUnits(us), Config(InString, k.stack);
    RunOne(k, '"');
    RunAppend(k, ['"'], body + ['"']);
    RunUnits(k.stack, us);
    RunAppend(inside, body, ['"']);
    RunOne(inside, '"');
  }

  lemma RunWhole(st: Stack, s: string, minus: bool)
    requires WellFormedWhole(s)
    ensures Run(Config(if minus then AfterMinus else BeginValue, st), s) == Config(if s == "0" then InZero else InWhole, st)
  {
    if s == "0" {
      RunOne(Config(if minus then AfterMinus else BeginValue, st), '0');
    } else {
      RunDigits(Config(InWhole, st), s[1..]);
    }
  }

  lemma RunFraction(k: Config, s: string)
    requires WellFormedFraction(s) && (k.mode.InZero? || k.mode.InWhole?)
    ensures Run(k, s) == if s == "" then k else Config(InFraction, k.stack)
  {
    if s != "" {
      var ds := s[1..];
      assert IsDigit(ds[0]);
      RunDigits(Config(InFraction, k.stack), ds[1..]);
    }
  }

  lemma RunExponent(k: Config, s: string)
    requires WellFormedExponent(s) && (k.mode.InZero? || k.mode.InWhole? || k.mode.InFraction?)
    ensures Run(k, s) == if s == "" then k else Config(InExponent, k.stack)
  {
    if s != "" {
      var t := s[1..];
      if IsSign(t[0]) {
        var ds := t[1..];
        assert ds == s[2..];
        assert IsDigit(ds[0]);
        RunDigits(Config(InExponent, k.stack), ds[1..]);
        assert Run(Config(AfterSign, k.stack), ds) == Config(InExponent, k.stack);
      } else {
        RunDigits(Config(InExponent, k.stack), t[1..]);
      }
    }
  }

  lemma RunNumber(st: Stack, n: Number)
    requires WellFormedNumber(n)
    ensures Done(Run(Config(BeginValue, st), RenderNumber(n)), st)
  {
    var k := Config(BeginValue, st);
    var sign := if n.minus then "-" else "";
    RunOne(k, '-');
    RunAppend(k, sign, n.whole + (n.fraction + n.exponent));
    var k1 := Run(k, sign);
    RunWhole(st, n.whole, n.minus);
    RunAppend(k1, n.whole, n.fraction + n.exponent);
    var k2 := Run(k1, n.whole);
    RunFraction(k2, n.fraction);
    RunAppend(k2, n.fraction, n.exponent);
    RunExponent(Run(k2, n.fraction), n.exponent);
  }

  lemma RunWord(st: Stack, t: string)
    requires t == "true" || t == "false" || t == "null"
    ensures Run(Config(BeginValue, st), t) == Config(EndValue, st)
  {
    RunRest(st, t[1..]);
    assert t[1..] == "rue" || t[1..] == "alse" || t[1..] == "ull";
  }

  lemma {:induction false} RunRest(st: Stack, rest: string)
    requires rest != ""
    ensures Run(Config(InWord(rest), st), rest) == Config(EndValue, st)
    decreases |rest|
  {
    if |rest| > 1 {
      RunRest(st, rest[1..]);
    }
  }

  /** After a complete value, white space and then `c` act as they do after a value. */
  lemma DoneThen(k: Config, st: Stack, g: string, c: char)
    requires Done(k, st) && Spaces(g) && !ExtendsNumber(c)
    ensures Run(k, g + [c]) == StepEnd(st, c)
  {
    if g == "" {
      assert g + [c] == [c];
      RunOne(k, c);
    } else {
      assert Step(k, g[0]) == Config(EndValue, st);
      assert (g + [c])[1..] == g[1..] + [c];
      RunSpaces(Config(EndValue, st), g[1..]);
      RunAppend(Config(EndValue, st), g[1..], [c]);
      RunOne(Config(EndValue, st), c);
    }
  }

  /** A value that starts where an array element or the end of the array may stand is read like any other. */
  lemma BeginOrEnd(st: Stack, g: string, s: string)
    requires Spaces(g) && s != "" && s[0] != ']' && !IsSpace(s[0])
    ensures Run(Config(BeginValueOrEnd, st), g + s) == Run(Config(BeginValue, st), s)
  {
    var k := Config(BeginValueOrEnd, st);
    RunAppend(k, g, s);
    RunSpaces(k, g);
  }

  lemma BeginKeyOr(st: Stack, g: string, s: string)
    requires Spaces(g) && s != "" && s[0] == '"'
    ensures Run(Config(BeginKeyOrEnd, st), g + s) == Run(Config(BeginKey, st), g + s)
  {
    RunAppend(Config(BeginKeyOrEnd, st), g, s);
    RunSpaces(Config(BeginKeyOrEnd, st), g);
    RunAppend(Config(BeginKey, st), g, s);
    RunSpaces(Config(BeginKey, st), g);
  }

  lemma FirstOfValue(v: Value)
    requires WellFormed(v)
    ensures Render(v) != "" && Render(v)[0] != ']' && !IsSpace(Render(v)[0])
    ensures IsContainer(v) <==> IsOpen(Render(v)[0])
  {
    if v.Num? {
      var n := v.number;
      assert RenderNumber(n)[0] == if n.minus then '-' else n.whole[0];
    }
  }

  lemma {:induction false} RunValue(st: Stack, v: Value)
    requires WellFormed(v)
    ensures Done(Run(Config(BeginValue, st), Render(v)), st)
    decreases v
  {
    var k := Config(BeginValue, st);
    match v
    case Word(t) =>
      RunWord(st, t);
    case Num(n) =>
      RunNumber(st, n);
    case Str(us) =>
      RunString(k, us);
    case EmptyArray(g) =>
      var open := Config(BeginValueOrEnd, Push(InArray, st));
      RunAppend(k, ['['], g + [']']);
      RunOne(k, '[');
      RunAppend(open, g, [']']);
      RunSpaces(open, g);
      RunOne(open, ']');
    case Array(xs) =>
      var open := Config(BeginValueOrEnd, Push(InArray, st));
      RunAppend(k, ['['], RenderItems(xs) + [']']);
      RunOne(k, '[');
      RunItems(st, xs, true);
    case EmptyObject(g) =>
      var open := Config(BeginKeyOrEnd, Push(InKey, st));
      RunAppend(k, ['{'], g + ['}']);
      RunOne(k, '{');
      RunAppend(open, g, ['}']);
      RunSpaces(open, g);
      RunOne(open, '}');
    case Object(ms) =>
      var open := Config(BeginKeyOrEnd, Push(InKey, st));
      RunAppend(k, ['{'], RenderMembers(ms) + ['}']);
      RunOne(k, '{');
      RunMembers(st, ms, true);
  }

  lemma {:induction false} RunItems(st: Stack, xs: Items, first: bool)
    requires WellFormedItems(xs)
    ensures Run(Config(if first then BeginValueOrEnd else BeginValue, Push(InArray, st)), RenderItems(xs) + [']']) == Config(EndValue, st)
    decreases xs
  {
    hide Run, Step;
    var inner := Push(InArray, st);
    var start := Config(if first then BeginValueOrEnd else BeginValue, inner);
    var x := Render(xs.item);
    var tail := xs.post + if xs.MoreItems? then [','] + (RenderItems(xs.rest) + [']']) else [']'];
    assert RenderItems(xs) + [']'] == xs.pre + (x + tail);
    FirstOfValue(xs.item);
    if first {
      BeginOrEnd(inner, xs.pre, x + tail);
    } else {
      RunAppend(start, xs.pre, x + tail);
      RunSpaces(start, xs.pre);
    }
    RunAppend(Config(BeginValue, inner), x, tail);
    RunValue(inner, xs.item);
    var k := Run(Config(BeginValue, inner), x);
    if xs.MoreItems? {
      DoneThen(k, inner, xs.post, ',');
      assert tail == (xs.post + [',']) + (RenderItems(xs.rest) + [']']);
      RunAppend(k, xs.post + [','], RenderItems(xs.rest) + [']']);
      RunItems(st, xs.rest, false);
    } else {
      DoneThen(k, inner, xs.post, ']');
    }
  }

  lemma {:induction false} RunMembers(st: Stack, ms: Members, first: bool)
    requires WellFormedMembers(ms)
    ensures Run(Config(if first then BeginKeyOrEnd else BeginKey, Push(InKey, st)), RenderMembers(ms) + ['}']) == Config(EndValue, st)
    decreases ms
  {
    hide Run, Step;
    var inValue := Push(InValue, st);
    var start := Config(if first then BeginKeyOrEnd else BeginKey, Push(InKey, st));
    var head := ms.pre + (RenderString(ms.key) + (ms.mid + ([':'] + ms.lead)));
    var x := Render(ms.item);
    var tail := ms.post + if ms.MoreMembers? then [','] + (RenderMembers(ms.rest) + ['}']) else ['}'];
    MembersSplit(ms, head, tail);
    RunAppend(start, head, x + tail);
    RunMemberHead(st, ms.pre, ms.key, ms.mid, ms.lead, first);
    RunAppend(Config(BeginValue, inValue), x, tail);
    RunValue(inValue, ms.item);
    var k := Run(Config(BeginValue, inValue), x);
    if ms.MoreMembers? {
      DoneThen(k, inValue, ms.post, ',');
      assert tail == (ms.post + [',']) + (RenderMembers(ms.rest) + ['}']);
      RunAppend(k, ms.post + [','], RenderMembers(ms.rest) + ['}']);
      RunMembers(st, ms.rest, false);
    } else {
      DoneThen(k, inValue, ms.post, '}');
    }
  }

  lemma MembersSplit(ms: Members, head: string, tail: string)
    requires head == ms.pre + (RenderString(ms.key) + (ms.mid + ([':'] + ms.lead)))
    requires tail == ms.post + if ms.MoreMembers? then [','] + (RenderMembers(ms.rest) + ['}']) else ['}']
    ensures RenderMembers(ms) + ['}'] == head + (Render(ms.item) + tail)
  {
    var key, x := RenderString(ms.key), Render(ms.item);
    var end := ms.post + if ms.MoreMembers? then [','] + RenderMembers(ms.rest) else "";
    assert tail == end + ['}'];
    assert RenderMembers(ms) == ms.pre + (key + (ms.mid + ([':'] + (ms.lead + (x + end)))));
    Regroup(ms.pre, key, ms.mid, ms.lead, x + end);
    assert head + (x + end) + ['}'] == head + (x + (end + ['}']));
  }

  lemma Regroup(a: string, b: string, c: string, d: string, e: string)
    ensures a + (b + (c + ([':'] + (d + e)))) == (a + (b + (c + ([':'] + d)))) + e
  {}

  lemma RunMemberHead(st: Stack, pre: string, key: seq<Unit>, mid: string, lead: string, first: bool)
    requires Spaces(pre) && WellFormedUnits(key) && Spaces(mid) && Spaces(lead)
    ensures Run(Config(if first then BeginKeyOrEnd else BeginKey, Push(InKey, st)), pre + (RenderString(key) + (mid + ([':'] + lead))))
         == Config(BeginValue, Push(InValue, st))
  {
    var inKey := Push(InKey, st);
    var start, ended := Config(BeginKey, inKey), Config(EndValue, inKey);
    var text, after := RenderString(key), mid + ([':'] + lead);
    if first {
      BeginKeyOr(inKey, pre, text + after);
    }
    RunAppend(start, pre, text + after);
    RunSpaces(start, pre);
    RunAppend(start, text, after);
    RunString(start, key);
    assert after == (mid + [':']) + lead;
    RunAppend(ended, mid + [':'], lead);
    DoneThen(ended, inKey, mid, ':');
    RunSpaces(Config(BeginValue, Push(InValue, st)), lead);
  }

  lemma GrammarIsAccepted(s: string)
    requires IsJson(s)
    ensures Valid(s)
  {
    var t: Text :| WellFormedText(t) && s == RenderText(t);
    var Text(pre, v, post) := t;
    RunAppend(START, pre, Render(v) + post);
    RunSpaces(START, pre);
    RunAppend(START, Render(v), post);
    RunValue(Bottom, v);
    var k := Run(START, Render(v));
    DoneThen(k, Bottom, post, ' ');
    RunAppend(k, post, [' ']);
    RunOne(Run(k, post), ' ');
  }
}
