/** Every text the scanner accepts has a syntax tree: each lemma reads one construct off an
    accepted run and returns its tree and the text that follows, from where the run goes on. */
module JsonReader {
  import opened JsonGrammar
  import opened JsonScanner

  lemma {:induction false} ReadSpaces(k: Config, s: string) returns (g: string, rest: string)
    requires k.mode.BeginValue? || k.mode.BeginValueOrEnd? || k.mode.BeginKey? || k.mode.BeginKeyOrEnd? || k.mode.EndValue?
    ensures s == g + rest && Spaces(g) && (rest != "" ==> !IsSpace(rest[0]))
    ensures Run(k, s) == Run(k, rest)
    decreases |s|
  {
    if s == "" || !IsSpace(s[0]) {
      g, rest := "", s;
    } else {
      var g', rest' := ReadSpaces(k, s[1..]);
      g, rest := [s[0]] + g', rest';
    }
  }

  lemma ReadHex(st: Stack, s: string, left: nat)
    requires 1 <= left <= 4 && Accepts(Run(Config(InUnicode(left), st), s))
    ensures s != "" && IsHex(s[0])
    ensures Accepts(Run(Config(if left > 1 then InUnicode(left - 1) else InString, st), s[1..]))
  {
    if s != "" && !IsHex(s[0]) {
      RunError(s[1..]);
    }
  }

  lemma ReadUnit(st: Stack, s: string) returns (u: Unit, rest: string)
    requires Accepts(Run(Config(InString, st), s)) && (s != "" ==> s[0] != '"')
    ensures s == RenderUnit(u) + rest && WellFormedUnit(u) && Accepts(Run(Config(InString, st), rest))
  {
    assert s != "";
    if s[0] != '\\' {
      u, rest := Plain(s[0]), s[1..];
      if !IsPlain(s[0]) {
        RunError(s[1..]);
      }
    } else {
      var t := s[1..];
      assert Accepts(Run(Config(InEscape, st), t));
      assert t != "";
      if t[0] == 'u' {
        assert Accepts(Run(Config(InUnicode(4), st), t[1..]));
        ReadHex(st, t[1..], 4);
        ReadHex(st, t[2..], 3);
        assert t[2..][1..] == t[3..];
        ReadHex(st, t[3..], 2);
        assert t[3..][1..] == t[4..];
        ReadHex(st, t[4..], 1);
        assert t[4..][1..] == t[5..];
        u, rest := Unicode(t[1], t[2], t[3], t[4]), t[5..];
      } else {
        u, rest := Escape(t[0]), t[1..];
        if !IsEscape(t[0]) {
          assert Step(Config(InEscape, st), t[0]) == REJECT;
          RunError(t[1..]);
        }
        assert Accepts(Run(Config(InString, st), rest));
      }
    }
  }

  lemma {:induction false} ReadUnits(st: Stack, s: string) returns (us: seq<Unit>, rest: string)
    requires Accepts(Run(Config(InString, st), s))
    ensures s == RenderUnits(us) + (['"'] + rest) && WellFormedUnits(us) && Accepts(Run(Config(EndValue, st), rest))
    decreases |s|
  {
    if s != "" && s[0] == '"' {
      us, rest := [], s[1..];
    } else {
      var u, tail := ReadUnit(st, s);
      var us', rest' := ReadUnits(st, tail);
      us, rest := [u] + us', rest';
      assert us[1..] == us';
    }
  }

  lemma ReadString(k: Config, s: string) returns (us: seq<Unit>, rest: string)
    requires (k.mode.BeginValue? || k.mode.BeginKey?) && s != "" && s[0] == '"' && Accepts(Run(k, s))
    ensures s == RenderString(us) + rest && WellFormedUnits(us) && Accepts(Run(Config(EndValue, k.stack), rest))
  {
    us, rest := ReadUnits(k.stack, s[1..]);
    assert s == ['"'] + s[1..];
  }

  lemma {:induction false} ReadWord(st: Stack, word: string, s: string) returns (rest: string)
    requires word != "" && word[0] != ' ' && Accepts(Run(Config(InWord(word), st), s))
    requires forall i | 0 <= i < |word| :: word[i] != ' '
    ensures s == word + rest && Accepts(Run(Config(EndValue, st), rest))
    decreases |word|
  {
    assert s != "";
    if s[0] != word[0] {
      RunError(s[1..]);
    }
    if |word| == 1 {
      rest := s[1..];
    } else {
      rest := ReadWord(st, word[1..], s[1..]);
    }
  }

  lemma {:induction false} ReadDigits(k: Config, s: string) returns (ds: string, rest: string)
    requires k.mode.InWhole? || k.mode.InFraction? || k.mode.InExponent?
    ensures s == ds + rest && Digits(ds) && (rest != "" ==> !IsDigit(rest[0]))
    ensures Run(k, s) == Run(k, rest)
    decreases |s|
  {
    if s == "" || !IsDigit(s[0]) {
      ds, rest := "", s;
    } else {
      var ds', rest' := ReadDigits(k, s[1..]);
      ds, rest := [s[0]] + ds', rest';
    }
  }

  lemma EndNumber(k: Config, s: string)
    requires Done(k, k.stack) && Accepts(Run(k, s)) && (s != "" ==> !ExtendsNumber(s[0]))
    ensures Accepts(Run(Config(EndValue, k.stack), s))
  {
    var ended := Config(EndValue, k.stack);
    if s != "" {
      EndStep(k, s[0]);
      assert Run(ended, s) == Run(Step(ended, s[0]), s[1..]);
    }
  }

  lemma EndStep(k: Config, c: char)
    requires Done(k, k.stack) && !ExtendsNumber(c)
    ensures Step(k, c) == Step(Config(EndValue, k.stack), c)
  {}

  /** At least one digit, as after a point, an exponent mark or its sign. */
  lemma ReadSomeDigits(k: Config, m: Mode, s: string) returns (ds: string, rest: string)
    requires k.mode.AfterDot? || k.mode.AfterMark? || k.mode.AfterSign?
    requires m == if k.mode.AfterDot? then InFraction else InExponent
    requires Accepts(Run(k, s)) && (s != "" ==> !IsSign(s[0]) || !k.mode.AfterMark?)
    ensures s == ds + rest && ds != "" && Digits(ds) && (rest != "" ==> !IsDigit(rest[0]))
    ensures Accepts(Run(Config(m, k.stack), rest))
  {
    assert s != "";
    if !IsDigit(s[0]) {
      RunError(s[1..]);
    }
    ds, rest := ReadDigits(Config(m, k.stack), s[1..]);
    ds := [s[0]] + ds;
  }

  lemma ReadExponent(k: Config, s: string) returns (e: string, rest: string)
    requires k.mode.InZero? || k.mode.InWhole? || k.mode.InFraction?
    requires Accepts(Run(k, s))
    requires s != "" ==> (k.mode.InZero? || !IsDigit(s[0])) && (k.mode.InFraction? || s[0] != '.')
    ensures s == e + rest && WellFormedExponent(e) && Accepts(Run(Config(EndValue, k.stack), rest))
  {
    if s != "" && IsExponentMark(s[0]) {
      var t := s[1..];
      var marked := Config(AfterMark, k.stack);
      assert Accepts(Run(marked, t));
      if t != "" && IsSign(t[0]) {
        assert Accepts(Run(Config(AfterSign, k.stack), t[1..]));
        var ds;
        ds, rest := ReadSomeDigits(Config(AfterSign, k.stack), InExponent, t[1..]);
        e := [s[0], t[0]] + ds;
        assert e[2..] == ds;
        EndExponent(k.stack, rest);
      } else {
        var ds;
        ds, rest := ReadSomeDigits(marked, InExponent, t);
        e := [s[0]] + ds;
        assert e[1..] == ds;
        EndExponent(k.stack, rest);
      }
    } else {
      e, rest := "", s;
      if s != "" && IsDigit(s[0]) {
        assert Step(k, s[0]) == StepEnd(k.stack, s[0]) == REJECT;
        RunError(s[1..]);
      } else if s != "" && s[0] == '.' {
        assert Step(k, s[0]) == REJECT;
        RunError(s[1..]);
      }
      EndNumber(k, s);
    }
  }

  lemma EndExponent(st: Stack, s: string)
    requires Accepts(Run(Config(InExponent, st), s)) && (s != "" ==> !IsDigit(s[0]))
    ensures Accepts(Run(Config(EndValue, st), s))
  {
    if s != "" && ExtendsNumber(s[0]) {
      assert Step(Config(InExponent, st), s[0]) == REJECT;
      RunError(s[1..]);
    } else {
      EndNumber(Config(InExponent, st), s);
    }
  }

  lemma ReadFraction(k: Config, s: string) returns (f: string, e: string, rest: string)
    requires k.mode.InZero? || k.mode.InWhole?
    requires Accepts(Run(k, s)) && (s != "" && k.mode.InWhole? ==> !IsDigit(s[0]))
    ensures s == f + (e + rest) && WellFormedFraction(f) && WellFormedExponent(e)
    ensures Accepts(Run(Config(EndValue, k.stack), rest))
  {
    if s != "" && s[0] == '.' {
      var ds, tail := ReadSomeDigits(Config(AfterDot, k.stack), InFraction, s[1..]);
      f := ['.'] + ds;
      assert f[1..] == ds;
      e, rest := ReadExponent(Config(InFraction, k.stack), tail);
    } else {
      f := "";
      e, rest := ReadExponent(k, s);
    }
  }

  lemma ReadUnsigned(k: Config, t: string) returns (whole: string, f: string, e: string, rest: string)
    requires (k.mode.AfterMinus? || k.mode.BeginValue?) && t != "" && IsDigit(t[0]) && Accepts(Run(k, t))
    ensures t == whole + (f + (e + rest))
    ensures WellFormedWhole(whole) && WellFormedFraction(f) && WellFormedExponent(e)
    ensures Accepts(Run(Config(EndValue, k.stack), rest))
  {
    if t[0] == '0' {
      whole := "0";
      f, e, rest := ReadFraction(Config(InZero, k.stack), t[1..]);
    } else {
      assert Accepts(Run(Config(InWhole, k.stack), t[1..]));
      var ds, tail := ReadDigits(Config(InWhole, k.stack), t[1..]);
      whole := [t[0]] + ds;
      assert Digits(whole);
      f, e, rest := ReadFraction(Config(InWhole, k.stack), tail);
    }
  }

  lemma ReadNumber(st: Stack, s: string) returns (n: Number, rest: string)
    requires s != "" && (s[0] == '-' || IsDigit(s[0])) && Accepts(Run(Config(BeginValue, st), s))
    ensures s == RenderNumber(n) + rest && WellFormedNumber(n) && Accepts(Run(Config(EndValue, st), rest))
  {
    var minus := s[0] == '-';
    var t := if minus then s[1..] else s;
    var k := Config(if minus then AfterMinus else BeginValue, st);
    assert Accepts(Run(k, t));
    assert t != "";
    if !IsDigit(t[0]) {
      RunError(t[1..]);
    }
    hide Run, Step;
    var whole, f, e;
    whole, f, e, rest := ReadUnsigned(k, t);
    n := Number(minus, whole, f, e);
    JoinItems(if minus then "-" else "", whole, f, e, rest);
  }

  lemma {:induction false} ReadValue(st: Stack, s: string) returns (v: Value, rest: string)
    requires s != "" && !IsSpace(s[0]) && Accepts(Run(Config(BeginValue, st), s))
    ensures s == Render(v) + rest && WellFormed(v) && Accepts(Run(Config(EndValue, st), rest))
    decreases |s|, 0
  {
    var t := s[1..];
    if s[0] == '"' {
      var us;
      us, rest := ReadString(Config(BeginValue, st), s);
      v := Str(us);
    } else if s[0] == '-' || IsDigit(s[0]) {
      var n;
      n, rest := ReadNumber(st, s);
      v := Num(n);
    } else if s[0] == '[' {
      v, rest := ReadArray(st, t);
    } else if s[0] == '{' {
      v, rest := ReadObject(st, t);
    } else if s[0] == 't' {
      rest := ReadWord(st, "rue", t);
      v := Word("true");
    } else if s[0] == 'f' {
      rest := ReadWord(st, "alse", t);
      v := Word("false");
    } else if s[0] == 'n' {
      rest := ReadWord(st, "ull", t);
      v := Word("null");
    } else {
      RunError(t);
      assert false;
    }
  }

  lemma {:induction false} ReadArray(st: Stack, t: string) returns (v: Value, rest: string)
    requires Accepts(Run(Config(BeginValueOrEnd, Push(InArray, st)), t))
    ensures ['['] + t == Render(v) + rest && WellFormed(v) && Accepts(Run(Config(EndValue, st), rest))
    decreases |t|, 2
  {
    var inner := Push(InArray, st);
    var g, tail := ReadSpaces(Config(BeginValueOrEnd, inner), t);
    assert tail != "";
    if tail[0] == ']' {
      v, rest := EmptyArray(g), tail[1..];
    } else {
      BeginOrEnd(inner, g, tail);
      RunAppend(Config(BeginValue, inner), g, tail);
      RunSpaces(Config(BeginValue, inner), g);
      var xs;
      xs, rest := ReadItems(st, t);
      v := Array(xs);
    }
  }

  /** After an element of an open array comes a comma or the closing bracket. */
  lemma AfterItem(st: Stack, s: string)
    requires Accepts(Run(Config(EndValue, Push(InArray, st)), s)) && (s != "" ==> !IsSpace(s[0]))
    ensures s != "" && (s[0] == ',' || s[0] == ']')
    ensures s[0] == ',' ==> Accepts(Run(Config(BeginValue, Push(InArray, st)), s[1..]))
    ensures s[0] == ']' ==> Accepts(Run(Config(EndValue, st), s[1..]))
  {
    assert s != "";
    if s[0] != ',' && s[0] != ']' {
      RunError(s[1..]);
    }
  }

  lemma NotAtEnd(k: Config, s: string)
    requires k.mode.BeginValue? && Accepts(Run(k, s))
    ensures s != ""
  {}

  lemma {:induction false} ReadItems(st: Stack, s: string) returns (xs: Items, rest: string)
    requires Accepts(Run(Config(BeginValue, Push(InArray, st)), s))
    ensures s == RenderItems(xs) + ([']'] + rest) && WellFormedItems(xs) && Accepts(Run(Config(EndValue, st), rest))
    decreases |s|, 1
  {
    hide Run, Accepts;
    var inner := Push(InArray, st);
    var pre, s1 := ReadSpaces(Config(BeginValue, inner), s);
    NotAtEnd(Config(BeginValue, inner), s1);
    var x, s2 := ReadValue(inner, s1);
    FirstOfValue(x);
    var post, s3 := ReadSpaces(Config(EndValue, inner), s2);
    AfterItem(st, s3);
    if s3[0] == ',' {
      var more;
      more, rest := ReadItems(st, s3[1..]);
      xs := MoreItems(pre, x, post, more);
      assert s3 == ([','] + RenderItems(more)) + ([']'] + rest);
      JoinItems(pre, Render(x), post, [','] + RenderItems(more), [']'] + rest);
    } else {
      xs, rest := LastItem(pre, x, post), s3[1..];
      assert s3 == "" + ([']'] + rest);
      JoinItems(pre, Render(x), post, "", [']'] + rest);
    }
  }

  lemma JoinItems(a: string, b: string, c: string, d: string, e: string)
    ensures a + (b + (c + (d + e))) == (a + (b + (c + d))) + e
  {}

  lemma {:induction false} ReadObject(st: Stack, t: string) returns (v: Value, rest: string)
    requires Accepts(Run(Config(BeginKeyOrEnd, Push(InKey, st)), t))
    ensures ['{'] + t == Render(v) + rest && WellFormed(v) && Accepts(Run(Config(EndValue, st), rest))
    decreases |t|, 2
  {
    var inner := Push(InKey, st);
    var g, tail := ReadSpaces(Config(BeginKeyOrEnd, inner), t);
    assert tail != "";
    if tail[0] == '}' {
      v, rest := EmptyObject(g), tail[1..];
    } else {
      if tail[0] != '"' {
        RunError(tail[1..]);
      }
      BeginKeyOr(inner, g, tail);
      var ms;
      ms, rest := ReadMembers(st, t);
      v := Object(ms);
    }
  }

  /** `"key" :` and the white space around it. */
  lemma ReadKey(st: Stack, s: string) returns (pre: string, key: seq<Unit>, mid: string, rest: string)
    requires Accepts(Run(Config(BeginKey, Push(InKey, st)), s))
    ensures s == pre + (RenderString(key) + (mid + ([':'] + rest)))
    ensures Spaces(pre) && WellFormedUnits(key) && Spaces(mid)
    ensures Accepts(Run(Config(BeginValue, Push(InValue, st)), rest))
  {
    var inner := Push(InKey, st);
    var s1;
    pre, s1 := ReadSpaces(Config(BeginKey, inner), s);
    assert s1 != "";
    if s1[0] != '"' {
      RunError(s1[1..]);
    }
    var s2;
    key, s2 := ReadString(Config(BeginKey, inner), s1);
    var s3;
    mid, s3 := ReadSpaces(Config(EndValue, inner), s2);
    assert s3 != "";
    if s3[0] != ':' {
      RunError(s3[1..]);
    }
    rest := s3[1..];
    assert s3 == [':'] + rest;
  }

  /** After a member of an open object comes a comma or the closing brace. */
  lemma AfterMember(st: Stack, s: string)
    requires Accepts(Run(Config(EndValue, Push(InValue, st)), s)) && (s != "" ==> !IsSpace(s[0]))
    ensures s != "" && (s[0] == ',' || s[0] == '}')
    ensures s[0] == ',' ==> Accepts(Run(Config(BeginKey, Push(InKey, st)), s[1..]))
    ensures s[0] == '}' ==> Accepts(Run(Config(EndValue, st), s[1..]))
  {
    assert s != "";
    if s[0] != ',' && s[0] != '}' {
      RunError(s[1..]);
    }
  }

  lemma {:induction false} ReadMembers(st: Stack, s: string) returns (ms: Members, rest: string)
    requires Accepts(Run(Config(BeginKey, Push(InKey, st)), s))
    ensures s == RenderMembers(ms) + (['}'] + rest) && WellFormedMembers(ms) && Accepts(Run(Config(EndValue, st), rest))
    decreases |s|, 1
  {
    hide Run, Accepts;
    var inner := Push(InValue, st);
    var pre, key, mid, s0 := ReadKey(st, s);
    var lead, s1 := ReadSpaces(Config(BeginValue, inner), s0);
    NotAtEnd(Config(BeginValue, inner), s1);
    var x, s2 := ReadValue(inner, s1);
    FirstOfValue(x);
    var post, s3 := ReadSpaces(Config(EndValue, inner), s2);
    AfterMember(st, s3);
    if s3[0] == ',' {
      var more;
      more, rest := ReadMembers(st, s3[1..]);
      ms := MoreMembers(pre, key, mid, lead, x, post, more);
      assert s3 == ([','] + RenderMembers(more)) + (['}'] + rest);
      JoinMembers(pre, RenderString(key), mid, lead, Render(x), post, [','] + RenderMembers(more), ['}'] + rest);
    } else {
      ms, rest := LastMember(pre, key, mid, lead, x, post), s3[1..];
      assert s3 == "" + (['}'] + rest);
      JoinMembers(pre, RenderString(key), mid, lead, Render(x), post, "", ['}'] + rest);
    }
  }

  lemma JoinMembers(a: string, b: string, c: string, d: string, e: string, f: string, g: string, h: string)
    ensures a + (b + (c + ([':'] + (d + (e + (f + (g + h))))))) == (a + (b + (c + ([':'] + (d + (e + (f + g))))))) + h
  {}

  /** The scanner's verdict is the grammar's. */
  lemma ValidIsGrammar(s: string)
    ensures Valid(s) <==> IsJson(s)
  {
    if IsJson(s) {
      GrammarIsAccepted(s);
    }
    if Valid(s) {
      var pre, s1 := ReadSpaces(START, s);
      assert s1 != "";
      var v, s2 := ReadValue(Bottom, s1);
      var post, s3 := ReadSpaces(Config(EndValue, Bottom), s2);
      if s3 != "" {
        RunError(s3[1..]);
      }
      assert s == RenderText(Text(pre, v, post));
    }
  }
}
