/** Finding and completing JSON in a model's text: `balancedEnd`, the scanning phase of
    `ExtractJSON`, and `completeJSON` (agent/output.go). Both scanners track only brackets and
    strings; the theorems relate them to the grammar of RFC 8259. */
module PartialJson {
  import opened JsonGrammar
  import opened JsonScanner
  import opened JsonReader

  // ---- what the scanner knows of a run ----

  function Height(st: Stack): nat {
    if st.Bottom? then 0 else 1 + Height(st.below)
  }

  predicate StringMode(m: Mode) {
    m.InString? || m.InEscape? || m.InUnicode?
  }

  function Closer(f: Frame): char {
    if f.InArray? then ']' else '}'
  }

  /** The closers that complete every open bracket, innermost first. */
  function CloseText(st: Stack): string {
    if st.Bottom? then "" else [Closer(st.top)] + CloseText(st.below)
  }

  /** The same closers as a stack that grows to the right. */
  function Shape(st: Stack): seq<char> {
    if st.Bottom? then [] else Shape(st.below) + [Closer(st.top)]
  }

  predicate Tidy(st: Stack) {
    st.Bottom? || (!st.top.InKey? && Tidy(st.below))
  }

  /** Only the innermost object can be waiting for a key. */
  predicate Legit(k: Config) {
    match k.mode
    case BeginKey | BeginKeyOrEnd => k.stack.Push? && k.stack.top.InKey? && Tidy(k.stack.below)
    case BeginValueOrEnd => k.stack.Push? && k.stack.top.InArray? && Tidy(k.stack.below)
    case EndValue | InString | InEscape | InUnicode(_) => k.stack.Bottom? || Tidy(k.stack.below)
    case Error => true
    case InWord(rest) => Tidy(k.stack) && forall i | 0 <= i < |rest| :: 'a' <= rest[i] <= 'z'
    case _ => Tidy(k.stack)
  }

  lemma StepValueLegit(st: Stack, c: char)
    requires Tidy(st)
    ensures Legit(StepValue(st, c))
  {
    var (t, f, n) := ("rue", "alse", "ull");
    assert t == ['r', 'u', 'e'] && f == ['a', 'l', 's', 'e'] && n == ['u', 'l', 'l'];
  }

  lemma StepEndLegit(st: Stack, c: char)
    requires st.Bottom? || Tidy(st.below)
    ensures Legit(StepEnd(st, c))
  {}

  lemma StepLegit(k: Config, c: char)
    requires Legit(k)
    ensures Legit(Step(k, c))
  {
    hide StepValue, StepEnd;
    if Tidy(k.stack) {
      StepValueLegit(k.stack, c);
    }
    if k.stack.Bottom? || Tidy(k.stack.below) {
      StepEndLegit(k.stack, c);
    }
  }

  lemma {:induction false} RunLegit(k: Config, s: string)
    requires Legit(k)
    ensures Legit(Run(k, s))
    decreases |s|
  {
    if s != "" {
      StepLegit(k, s[0]);
      RunLegit(Step(k, s[0]), s[1..]);
    }
  }

  /** The configurations the scanner goes through, one before each character and one at the end. */
  function Trail(k: Config, s: string): seq<Config>
    decreases |s|
  {
    if s == "" then [k] else [k] + Trail(Step(k, s[0]), s[1..])
  }

  predicate IsTrail(s: string, ks: seq<Config>) {
    |ks| == |s| + 1 && forall i | 0 <= i < |s| :: ks[i + 1] == Step(ks[i], s[i])
  }

  lemma {:induction false} TrailRuns(k: Config, s: string)
    ensures IsTrail(s, Trail(k, s))
    ensures forall i | 0 <= i <= |s| :: Trail(k, s)[i] == Run(k, s[..i])
    decreases |s|
  {
    var ks := Trail(k, s);
    if s != "" {
      var k', t := Step(k, s[0]), s[1..];
      TrailRuns(k', t);
      assert ks == [k] + Trail(k', t);
      forall i | 0 <= i <= |s|
        ensures ks[i] == Run(k, s[..i])
      {
        if i > 0 {
          assert s[..i][0] == s[0] && s[..i][1..] == t[..i - 1];
          assert ks[i] == Trail(k', t)[i - 1];
        }
      }
      forall i | 0 <= i < |s|
        ensures ks[i + 1] == Step(ks[i], s[i])
      {
        if i > 0 {
          assert ks[i] == Trail(k', t)[i - 1] && ks[i + 1] == Trail(k', t)[i] && s[i] == t[i - 1];
        } else {
          assert ks[1] == Trail(k', t)[0];
        }
      }
    }
  }

  /** Along the trail of a text with an accepted continuation nothing is rejected. */
  lemma TrailIsViable(k: Config, p: string, t: string)
    requires p <= t && Accepts(Run(k, t)) && Legit(k)
    ensures |Trail(k, p)| == |p| + 1
    ensures forall i | 0 <= i <= |p| :: !Trail(k, p)[i].mode.Error? && Legit(Trail(k, p)[i])
  {
    TrailRuns(k, p);
    forall i | 0 <= i <= |p|
      ensures !Trail(k, p)[i].mode.Error? && Legit(Trail(k, p)[i])
    {
      assert p[..i] == t[..i];
      assert t == t[..i] + t[i..];
      RunAppend(k, t[..i], t[i..]);
      RunLegit(k, t[..i]);
      if Run(k, t[..i]).mode.Error? {
        ErrorStays(Run(k, t[..i]), t[i..]);
      }
    }
  }

  lemma {:induction false} ErrorStays(k: Config, s: string)
    requires k.mode.Error?
    ensures Run(k, s).mode.Error?
    decreases |s|
  {
    if s != "" {
      ErrorStays(Step(k, s[0]), s[1..]);
    }
  }

  // ---- balancedEnd ----

  datatype Brackets = Brackets(depth: int, inString: bool, escaped: bool)

  function NextBrackets(b: Brackets, c: char): Brackets {
    if b.escaped then b.(escaped := false)
    else if b.inString then b.(inString := c != '"', escaped := c == '\\')
    else if c == '"' then b.(inString := true)
    else if IsOpen(c) then b.(depth := b.depth + 1)
    else if IsClose(c) then b.(depth := b.depth - 1)
    else b
  }

  /** The index just past the bracket that brings the depth back to zero, or -1. */
  function Balanced(s: string, i: nat, b: Brackets): (end: int)
    requires i <= |s|
    ensures end == -1 || (i < end <= |s| && IsClose(s[end - 1]))
    decreases |s| - i
  {
    if i == |s| then -1
    else
      var b' := NextBrackets(b, s[i]);
      if b'.depth == 0 && b.depth == 1 then i + 1 else Balanced(s, i + 1, b')
  }

  method BalancedEnd(s: string, start: nat) returns (end: int)
    requires start <= |s|
    ensures end == -1 || (start < end <= |s| && IsClose(s[end - 1]))
    ensures forall j | start < j <= |s| && IsContainerText(s[start..j]) :: end == j
  {
    forall j | start < j <= |s| && IsContainerText(s[start..j])
      ensures Balanced(s, start, Brackets(0, false, false)) == j
    {
      BalancedOnContainer(s, start, j);
    }
    var depth, inString, escaped := 0, false, false;
    var i := start;
    while i < |s|
      invariant start <= i <= |s|
      invariant escaped ==> inString
      invariant Balanced(s, start, Brackets(0, false, false)) == Balanced(s, i, Brackets(depth, inString, escaped))
    {
      var c := s[i];
      if escaped {
        escaped := false;
      } else if inString {
        if c == '\\' {
          escaped := true;
        } else if c == '"' {
          inString := false;
        }
      } else if c == '"' {
        inString := true;
      } else if IsOpen(c) {
        depth := depth + 1;
      } else if IsClose(c) {
        depth := depth - 1;
        if depth == 0 {
          return i + 1;
        }
      }
      i := i + 1;
    }
    return -1;
  }

  lemma {:induction false} OnlySpacesFollow(s: string)
    requires Accepts(Run(Config(EndValue, Bottom), s))
    ensures Spaces(s)
    decreases |s|
  {
    if s != "" {
      if !IsSpace(s[0]) {
        RunError(s[1..]);
      }
      OnlySpacesFollow(s[1..]);
    }
  }

  lemma ContainerFacts(v: string)
    requires IsContainerText(v)
    ensures |v| >= 2 && IsOpen(v[0]) && IsClose(v[|v| - 1]) && Valid(v)
  {
    var x :| WellFormed(x) && IsContainer(x) && v == Render(x);
    FirstOfValue(x);
    assert v == RenderText(Text("", x, ""));
    GrammarIsAccepted(v);
  }

  /** Once a bracket has been opened, the stack is empty only after a complete value. */
  lemma {:induction false} OpenInside(v: string, ks: seq<Config>, j: nat)
    requires 1 <= j <= |v| && IsOpen(v[0]) && IsTrail(v, ks) && ks[0] == START
    requires forall i | 0 <= i <= |v| :: !ks[i].mode.Error?
    ensures ks[j].stack.Push? || ks[j].mode.EndValue?
    decreases j
  {
    assert ks[j] == Step(ks[j - 1], v[j - 1]);
    if j > 1 {
      OpenInside(v, ks, j - 1);
    }
  }

  lemma OpenAt(v: string, k: Config, j: nat)
    requires 1 <= j < |v| && IsClose(v[|v| - 1]) && Accepts(Run(k, v[j..]))
    requires k.stack.Push? || k.mode.EndValue?
    ensures k.stack.Push?
  {
    if k.stack.Bottom? {
      assert v[|v| - 1] == v[j..][|v| - 1 - j];
      OnlySpacesFollow(v[j..]);
    }
  }

  /** Inside a container some bracket is open; only its last character closes the outermost one. */
  lemma StillOpen(v: string, ks: seq<Config>)
    requires IsContainerText(v) && ks == Trail(START, v)
    ensures IsTrail(v, ks) && ks[0] == START && forall i | 0 <= i <= |v| :: !ks[i].mode.Error? && Legit(ks[i])
    ensures forall j | 1 <= j < |v| :: ks[j].stack.Push?
    ensures ks[|v|].stack.Bottom?
  {
    ContainerFacts(v);
    ContainerTrail(START, v);
    forall j | 1 <= j < |v|
      ensures ks[j].stack.Push?
    {
      OpenInside(v, ks, j);
      OpenAt(v, ks[j], j);
    }
  }

  lemma TrailAccepts(k: Config, v: string, i: nat)
    requires i <= |v| && Accepts(Run(k, v))
    ensures Accepts(Run(Run(k, v[..i]), v[i..]))
  {
    assert v == v[..i] + v[i..];
    RunAppend(k, v[..i], v[i..]);
  }

  lemma ContainerTrail(k: Config, v: string)
    requires v != "" && Accepts(Run(k, v)) && Legit(k)
    ensures IsTrail(v, Trail(k, v)) && Trail(k, v)[0] == k && Trail(k, v)[|v|].stack.Bottom?
    ensures forall i | 0 <= i <= |v| :: !Trail(k, v)[i].mode.Error? && Legit(Trail(k, v)[i]) && Accepts(Run(Trail(k, v)[i], v[i..]))
  {
    TrailRuns(k, v);
    TrailIsViable(k, v, v);
    var ks := Trail(k, v);
    forall i | 0 <= i <= |v|
      ensures Accepts(Run(ks[i], v[i..]))
    {
      TrailAccepts(k, v, i);
    }
    AcceptedAtEnd(ks[|v|], v[|v|..]);
  }

  lemma AcceptedAtEnd(k: Config, s: string)
    requires s == "" && Accepts(Run(k, s))
    ensures k.stack.Bottom? && !StringMode(k.mode)
  {}

  /** The bracket scan follows the run: same depth, same place inside a string. */
  predicate InStep(k: Config, b: Brackets) {
    b == Brackets(Height(k.stack), StringMode(k.mode), k.mode.InEscape?)
  }

  lemma StepScan(k: Config, c: char, b: Brackets)
    requires Legit(k) && InStep(k, b) && !Step(k, c).mode.Error?
    ensures InStep(Step(k, c), NextBrackets(b, c))
  {}

  lemma {:induction false} BalancedFrom(s: string, start: nat, v: string, ks: seq<Config>, i: nat, b: Brackets)
    requires start + |v| <= |s| && v == s[start..start + |v|] && i < |v| && |v| >= 2
    requires IsTrail(v, ks) && forall h | 0 <= h <= |v| :: !ks[h].mode.Error? && Legit(ks[h])
    requires forall h | 1 <= h < |v| :: ks[h].stack.Push?
    requires ks[|v|].stack.Bottom? && InStep(ks[i], b)
    ensures Balanced(s, start + i, b) == start + |v|
    decreases |v| - i
  {
    hide Step, Legit;
    assert ks[i + 1] == Step(ks[i], v[i]) && s[start + i] == v[i];
    StepScan(ks[i], v[i], b);
    if i + 1 < |v| {
      BalancedFrom(s, start, v, ks, i + 1, NextBrackets(b, v[i]));
    }
  }

  /** `balancedEnd` started at an array or object returns exactly its end, whatever follows. */
  lemma BalancedOnContainer(s: string, start: nat, j: nat)
    requires start < j <= |s| && IsContainerText(s[start..j])
    ensures Balanced(s, start, Brackets(0, false, false)) == j
  {
    var v := s[start..j];
    StillOpen(v, Trail(START, v));
    ContainerFacts(v);
    BalancedFrom(s, start, v, Trail(START, v), 0, Brackets(0, false, false));
  }

  // ---- the scanning phase of ExtractJSON ----

  datatype Extracted = NoJson | Found(json: string)

  lemma EndsOf(a: string, b: string, c: string)
    ensures a != "" ==> (a + (b + c))[0] == a[0]
    ensures c != "" ==> var s := a + (b + c); s[|s| - 1] == c[|c| - 1]
  {}

  lemma ContainerIsJson(s: string)
    requires IsContainerText(s)
    ensures IsJson(s)
  {
    ContainerFacts(s);
    ValidIsGrammar(s);
  }

  lemma JsonIsContainer(s: string)
    requires s != "" && IsOpen(s[0]) && IsClose(s[|s| - 1]) && IsJson(s)
    ensures IsContainerText(s)
  {
    var t: Text :| WellFormedText(t) && s == RenderText(t);
    var Text(pre, v, post) := t;
    FirstOfValue(v);
    EndsOf(pre, Render(v), post);
    assert pre + (Render(v) + post) == Render(v);
  }

  lemma TrimmedIsContainer(s: string)
    requires s != "" && IsOpen(s[0]) && IsClose(s[|s| - 1])
    ensures IsJson(s) <==> IsContainerText(s)
  {
    hide IsJson, IsContainerText, IsOpen, IsClose;
    if IsContainerText(s) {
      ContainerIsJson(s);
    }
    if IsJson(s) {
      JsonIsContainer(s);
    }
  }

  /** The text holds a JSON array or object that starts at `i`. */
  ghost predicate ContainerAt(text: string, i: nat) {
    exists j :: i < j <= |text| && IsContainerText(text[i..j])
  }

  /** Returns the leftmost array or object in the text, and fails only when there is none. */
  method ExtractScan(text: string) returns (r: Extracted)
    ensures r.NoJson? <==> forall i: nat | i < |text| :: !ContainerAt(text, i)
    ensures r.Found? ==> exists i: nat, j: nat :: i < j <= |text| && r.json == text[i..j] && IsContainerText(r.json)
                          && forall h: nat | h < i :: !ContainerAt(text, h)
  {
    var i := 0;
    while i < |text|
      invariant i <= |text|
      invariant forall h: nat | h < i :: !ContainerAt(text, h)
    {
      if IsOpen(text[i]) {
        var end := BalancedEnd(text, i);
        if end >= 0 {
          var candidate := text[i..end];
          ValidIsGrammar(candidate);
          TrimmedIsContainer(candidate);
          if Valid(candidate) {
            assert ContainerAt(text, i);
            return Found(candidate);
          }
        }
      } else if ContainerAt(text, i) {
        var j :| i < j <= |text| && IsContainerText(text[i..j]);
        ContainerFacts(text[i..j]);
      }
      i := i + 1;
    }
    return NoJson;
  }

  /** Prose without brackets around one array or object does not hide it. */
  lemma ProseAround(pre: string, v: string, post: string, i: nat, j: nat)
    requires IsContainerText(v) && forall h | 0 <= h < |pre| :: !IsOpen(pre[h])
    requires i < j <= |pre + v + post| && IsContainerText((pre + v + post)[i..j])
    requires forall h: nat | h < i :: !ContainerAt(pre + v + post, h)
    ensures (pre + v + post)[i..j] == v
  {
    var text := pre + v + post;
    var n := |pre|;
    assert text[n..n + |v|] == v;
    ContainerFacts(v);
    assert ContainerAt(text, n);
    ContainerFacts(text[i..j]);
    assert forall h | 0 <= h < n :: text[h] == pre[h];
    assert i == n;
    BalancedOnContainer(text, n, j);
    BalancedOnContainer(text, n, n + |v|);
  }

  // ---- completeJSON ----

  /** A point up to which the text is a complete sequence of values, with the closers open there. */
  datatype Cut = Cut(at: nat, closers: string)

  datatype Scan = Scan(stack: seq<char>, inString: bool, escaped: bool, safe: seq<Cut>)

  const FRESH := Scan([], false, false, [])

  function Closers(stack: seq<char>): string {
    seq(|stack|, i requires 0 <= i < |stack| => stack[|stack| - 1 - i])
  }

  function Mark(x: Scan, at: nat): Scan {
    x.(safe := x.safe + [Cut(at, Closers(x.stack))])
  }

  function ScanStep(x: Scan, i: nat, c: char): Scan {
    if x.escaped then x.(escaped := false)
    else if x.inString then x.(escaped := c == '\\', inString := c != '"')
    else if c == '"' then x.(inString := true)
    else if c == '{' then Mark(x.(stack := x.stack + ['}']), i + 1)
    else if c == '[' then Mark(x.(stack := x.stack + [']']), i + 1)
    else if IsClose(c) then Mark(if |x.stack| > 0 then x.(stack := x.stack[..|x.stack| - 1]) else x, i + 1)
    else if c == ',' then Mark(x, i)
    else x
  }

  function ScanAll(s: string): Scan {
    if s == "" then FRESH else ScanStep(ScanAll(s[..|s| - 1]), |s| - 1, s[|s| - 1])
  }

  /** The text with its open string closed, then every open bracket. */
  function Full(s: string, x: Scan): string {
    (if !x.inString then s
     else if x.escaped && |s| > 0 then s[..|s| - 1] + ['"']
     else s + ['"']) + Closers(x.stack)
  }

  lemma {:induction false} CloseTextIsClosers(st: Stack)
    ensures Closers(Shape(st)) == CloseText(st)
  {
    if st.Push? {
      CloseTextIsClosers(st.below);
      assert Closers(Shape(st)) == [Closer(st.top)] + Closers(Shape(st.below));
    }
  }

  /** Closing every open bracket here ends the text. */
  predicate Closable(k: Config) {
    || (Done(k, k.stack) && Tidy(k.stack))
    || ((k.mode.BeginKeyOrEnd? || k.mode.BeginValueOrEnd?) && Legit(k))
  }

  lemma {:induction false} CloseAll(k: Config)
    requires Closable(k) && (k.stack.Bottom? ==> k.mode.EndValue?)
    ensures Accepts(Run(k, CloseText(k.stack)))
    decreases k.stack
  {
    if k.stack.Push? {
      var below := Config(EndValue, k.stack.below);
      assert Step(k, Closer(k.stack.top)) == below;
      assert CloseText(k.stack)[1..] == CloseText(k.stack.below);
      CloseAll(below);
    }
  }

  predicate IsStructural(c: char) {
    IsOpen(c) || IsClose(c) || c == ','
  }

  /** How much of the text a completion keeps for the bracket or comma at `i`. */
  function KeptAt(s: string, i: nat): nat
    requires i < |s|
  {
    if s[i] == ',' then i else i + 1
  }

  /** Position `i` of the text holds a bracket or comma that is not inside a string. */
  predicate StructuralAt(s: string, i: nat) {
    i < |s| && IsStructural(s[i]) && !StringMode(Run(START, s[..i]).mode)
  }

  /** A completion keeps everything up to each such position: through a bracket, up to a comma. */
  ghost predicate Keeps(s: string, r: string) {
    forall i: nat | StructuralAt(s, i) :: s[..KeptAt(s, i)] <= r
  }

  /** A cut lies where closing the open brackets gives an accepted text. */
  predicate CutCloses(ks: seq<Config>, n: nat, cut: Cut) {
    && cut.at <= n && cut.at < |ks|
    && Accepts(Run(ks[cut.at], cut.closers))
  }

  /** The state after `n` characters: it mirrors the run, every cut closes, and the last cut
      lies at or after all brackets and commas outside strings. */
  ghost predicate Follows(s: string, ks: seq<Config>, n: nat, x: Scan)
    requires n <= |s| && IsTrail(s, ks)
  {
    && x.inString == StringMode(ks[n].mode) && x.escaped == ks[n].mode.InEscape? && x.stack == Shape(ks[n].stack)
    && (x.escaped ==> n > 0 && s[n - 1] == '\\')
    && (forall cut | cut in x.safe :: CutCloses(ks, n, cut))
    && (forall i | 0 <= i < n && IsStructural(s[i]) && !StringMode(ks[i].mode) ::
          x.safe != [] && x.safe[|x.safe| - 1].at >= KeptAt(s, i))
  }

  /** One more character of a text that is not rejected: what the scanner's stack becomes. */
  lemma StepStack(k: Config, c: char)
    requires Legit(k) && !StringMode(k.mode) && !Step(k, c).mode.Error?
    ensures c == '{' ==> Step(k, c) == Config(BeginKeyOrEnd, Push(InKey, k.stack)) && Closable(Step(k, c))
    ensures c == '[' ==> Step(k, c) == Config(BeginValueOrEnd, Push(InArray, k.stack)) && Closable(Step(k, c))
    ensures IsClose(c) ==> k.stack.Push? && Step(k, c) == Config(EndValue, k.stack.below) && Closable(Step(k, c))
    ensures c == ',' ==> k.stack.Push? && Closable(k) && Shape(Step(k, c).stack) == Shape(k.stack) && !StringMode(Step(k, c).mode)
    ensures !IsStructural(c) ==> Shape(Step(k, c).stack) == Shape(k.stack) && (StringMode(Step(k, c).mode) <==> c == '"')
    ensures !Step(k, c).mode.InEscape?
  {}

  lemma StepInString(k: Config, c: char)
    requires StringMode(k.mode) && !Step(k, c).mode.Error?
    ensures Step(k, c).stack == k.stack
    ensures k.mode.InEscape? ==> StringMode(Step(k, c).mode) && !Step(k, c).mode.InEscape?
    ensures !k.mode.InEscape? ==> (StringMode(Step(k, c).mode) <==> c != '"') && (Step(k, c).mode.InEscape? <==> c == '\\')
  {}

  /** The cut recorded at a bracket or comma closes. */
  lemma NewCut(k: Config, c: char)
    requires Legit(k) && !StringMode(k.mode) && !Step(k, c).mode.Error? && IsStructural(c)
    ensures var kc := if c == ',' then k else Step(k, c);
      Accepts(Run(kc, Closers(Shape(kc.stack)))) && Shape(kc.stack) == Shape(Step(k, c).stack)
  {
    StepStack(k, c);
    var kc := if c == ',' then k else Step(k, c);
    CloseTextIsClosers(kc.stack);
    CloseAll(kc);
  }

  lemma StepStructural(k: Config, x: Scan, n: nat, c: char)
    requires Legit(k) && !StringMode(k.mode) && !Step(k, c).mode.Error? && IsStructural(c)
    requires !x.inString && !x.escaped && x.stack == Shape(k.stack)
    ensures var k', at := Step(k, c), if c == ',' then n else n + 1;
      !StringMode(k'.mode) && ScanStep(x, n, c) == Scan(Shape(k'.stack), false, false, x.safe + [Cut(at, Closers(Shape(k'.stack)))])
  {
    StepStack(k, c);
  }

  lemma ScanOutside(s: string, ks: seq<Config>, n: nat, x: Scan)
    requires IsTrail(s, ks) && n < |s| && !ks[n + 1].mode.Error? && Legit(ks[n])
    requires Follows(s, ks, n, x) && !x.inString
    ensures Follows(s, ks, n + 1, ScanStep(x, n, s[n]))
  {
    var k, c := ks[n], s[n];
    assert ks[n + 1] == Step(k, c);
    if IsStructural(c) {
      StepStructural(k, x, n, c);
      NewCut(k, c);
      ExtendFollows(s, ks, n, x, Cut(KeptAt(s, n), Closers(Shape(ks[n + 1].stack))));
    } else {
      StepStack(k, c);
    }
  }

  lemma ExtendFollows(s: string, ks: seq<Config>, n: nat, x: Scan, cut: Cut)
    requires IsTrail(s, ks) && n < |s| && Follows(s, ks, n, x)
    requires cut.at == KeptAt(s, n) && CutCloses(ks, n + 1, cut)
    requires !StringMode(ks[n + 1].mode)
    ensures Follows(s, ks, n + 1, Scan(Shape(ks[n + 1].stack), false, false, x.safe + [cut]))
  {
    forall i | 0 <= i < n + 1 && IsStructural(s[i]) && !StringMode(ks[i].mode)
      ensures cut.at >= KeptAt(s, i)
    {
    }
  }

  lemma ScanInside(s: string, ks: seq<Config>, n: nat, x: Scan)
    requires IsTrail(s, ks) && n < |s| && !ks[n + 1].mode.Error?
    requires Follows(s, ks, n, x) && x.inString
    ensures Follows(s, ks, n + 1, ScanStep(x, n, s[n]))
  {
    assert ks[n + 1] == Step(ks[n], s[n]);
    StepInString(ks[n], s[n]);
  }

  lemma {:induction false} ScanFollows(s: string, ks: seq<Config>, n: nat)
    requires IsTrail(s, ks) && n <= |s| && ks[0] == START
    requires forall i | 0 <= i <= |s| :: !ks[i].mode.Error? && Legit(ks[i])
    ensures Follows(s, ks, n, ScanAll(s[..n]))
    decreases n
  {
    if n > 0 {
      ScanFollows(s, ks, n - 1);
      assert s[..n][..n - 1] == s[..n - 1];
      if ScanAll(s[..n - 1]).inString {
        ScanInside(s, ks, n - 1, ScanAll(s[..n - 1]));
      } else {
        ScanOutside(s, ks, n - 1, ScanAll(s[..n - 1]));
      }
    }
  }

  /** The scan of a prefix of JSON mirrors the run. */
  lemma ScanOfPrefix(s: string, t: string) returns (ks: seq<Config>)
    requires s <= t && IsJson(t)
    ensures ks == Trail(START, s) && IsTrail(s, ks) && Follows(s, ks, |s|, ScanAll(s))
    ensures forall i | 0 <= i <= |s| :: ks[i] == Run(START, s[..i])
  {
    ValidIsGrammar(t);
    ks := Trail(START, s);
    TrailRuns(START, s);
    TrailIsViable(START, s, t);
    ScanFollows(s, ks, |s|);
    assert s[..|s|] == s;
  }

  lemma KeepsLonger(s: string, n: nat, r: string)
    requires n <= |s| && s[..n] <= r
    requires forall i: nat | StructuralAt(s, i) :: n >= KeptAt(s, i)
    ensures Keeps(s, r)
  {
    forall i: nat | StructuralAt(s, i)
      ensures s[..KeptAt(s, i)] <= r
    {
      assert s[..KeptAt(s, i)] == s[..n][..KeptAt(s, i)];
    }
  }

  lemma CutIsJson(s: string, ks: seq<Config>, cut: Cut)
    requires |ks| == |s| + 1 && CutCloses(ks, |s|, cut) && ks[cut.at] == Run(START, s[..cut.at])
    ensures IsJson(s[..cut.at] + cut.closers)
  {
    RunAppend(START, s[..cut.at], cut.closers);
    ValidIsGrammar(s[..cut.at] + cut.closers);
  }

  lemma FirstIsCut(s: string, ks: seq<Config>, x: Scan)
    requires s != "" && IsOpen(s[0]) && IsTrail(s, ks) && Follows(s, ks, |s|, x) && ks[0] == Run(START, s[..0])
    ensures x.safe != []
  {
    assert s[..0] == "";
    assert !StringMode(ks[0].mode);
  }

  /** Every cut of a prefix of JSON closes to JSON. */
  lemma CutsOfPrefix(s: string, t: string)
    requires s <= t && s != "" && IsJson(t) && IsOpen(t[0])
    ensures ScanAll(s).safe != []
    ensures forall cut | cut in ScanAll(s).safe :: cut.at <= |s| && IsJson(s[..cut.at] + cut.closers)
  {
    var ks := ScanOfPrefix(s, t);
    var x := ScanAll(s);
    FirstIsCut(s, ks, x);
    forall cut | cut in x.safe
      ensures cut.at <= |s| && IsJson(s[..cut.at] + cut.closers)
    {
      CutIsJson(s, ks, cut);
    }
  }

  /** The last cut alone keeps all that must be kept. */
  lemma LastCutKeeps(s: string, t: string)
    requires s <= t && IsJson(t) && ScanAll(s).safe != []
    ensures var cut := ScanAll(s).safe[|ScanAll(s).safe| - 1]; cut.at <= |s| && Keeps(s, s[..cut.at] + cut.closers)
  {
    var ks := ScanOfPrefix(s, t);
    var x := ScanAll(s);
    var last := x.safe[|x.safe| - 1];
    assert last in x.safe;
    forall i: nat | StructuralAt(s, i)
      ensures last.at >= KeptAt(s, i)
    {
      assert ks[i] == Run(START, s[..i]);
    }
    KeepsLonger(s, last.at, s[..last.at] + last.closers);
  }

  /** The closed text of a prefix of JSON keeps it all, except a backslash that escapes nothing yet. */
  lemma FullOfPrefix(s: string, t: string)
    requires s <= t && IsJson(t)
    ensures Keeps(s, Full(s, ScanAll(s)))
  {
    var ks := ScanOfPrefix(s, t);
    var x := ScanAll(s);
    var kept := if x.escaped then |s| - 1 else |s|;
    assert s[..kept] <= Full(s, x);
    forall i: nat | StructuralAt(s, i)
      ensures kept >= KeptAt(s, i)
    {
      assert ks[i] == Run(START, s[..i]);
    }
    KeepsLonger(s, kept, Full(s, x));
  }

  /** A complete text is left as it is. */
  lemma FullUnchanged(s: string, x: Scan)
    requires !x.inString && x.stack == []
    ensures Full(s, x) == s
  {}

  lemma FullOfWhole(t: string)
    requires IsJson(t)
    ensures Full(t, ScanAll(t)) == t
  {
    var ks := ScanOfPrefix(t, t);
    ValidIsGrammar(t);
    assert t[..|t|] == t;
    AcceptedAtEnd(ks[|t|], "");
    FullUnchanged(t, ScanAll(t));
  }

  function Candidate(s: string, cut: Cut): string
    requires cut.at <= |s|
  {
    s[..cut.at] + cut.closers
  }

  /** `r` is the text of the last cut that closes to JSON. */
  ghost predicate IsLastValidCut(s: string, safe: seq<Cut>, r: string) {
    exists j :: 0 <= j < |safe| && safe[j].at <= |s| && r == Candidate(s, safe[j])
      && forall h | j < h < |safe| :: safe[h].at <= |s| && !Valid(Candidate(s, safe[h]))
  }

  /** What `completeJSON` promises on the first part of a JSON array or object. */
  ghost predicate CompletesPrefixes(s: string, r: string, ok: bool) {
    forall t | s <= t && s != "" && IsJson(t) && IsOpen(t[0]) :: ok && Keeps(s, r) && (s == t ==> r == s)
  }

  lemma FullCompletes(s: string)
    ensures CompletesPrefixes(s, Full(s, ScanAll(s)), true)
  {
    hide Run, Valid, IsJson, ScanAll, Full, Candidate, Keeps, IsOpen;
    forall t | s <= t && s != "" && IsJson(t) && IsOpen(t[0])
      ensures Keeps(s, Full(s, ScanAll(s))) && (s == t ==> Full(s, ScanAll(s)) == s)
    {
      FullOfPrefix(s, t);
      if s == t {
        FullOfWhole(t);
      }
    }
  }

  /** On a prefix of JSON the last cut does what is promised, and a whole text needs no cut. */
  lemma LastCutWorks(s: string, t: string, cut: Cut)
    requires s <= t && s != "" && IsJson(t) && IsOpen(t[0])
    requires ScanAll(s).safe != [] ==> cut == ScanAll(s).safe[|ScanAll(s).safe| - 1]
    ensures ScanAll(s).safe != []
    ensures cut.at <= |s| && Valid(Candidate(s, cut)) && Keeps(s, Candidate(s, cut))
    ensures s == t ==> Valid(Full(s, ScanAll(s)))
  {
    hide Run, Valid, IsJson, ScanAll, Full, IsOpen;
    CutsOfPrefix(s, t);
    assert cut in ScanAll(s).safe;
    ValidIsGrammar(Candidate(s, cut));
    LastCutKeeps(s, t);
    if s == t {
      FullOfWhole(t);
      ValidIsGrammar(t);
    }
  }

  lemma LastCutCompletes(s: string, cut: Cut, r: string)
    requires !Valid(Full(s, ScanAll(s))) && ScanAll(s).safe != [] && cut == ScanAll(s).safe[|ScanAll(s).safe| - 1]
    requires cut.at <= |s| && (Valid(Candidate(s, cut)) ==> r == Candidate(s, cut))
    ensures CompletesPrefixes(s, r, true)
  {
    hide Run, Valid, IsJson, ScanAll, Full, Candidate, Keeps, IsOpen;
    forall t | s <= t && s != "" && IsJson(t) && IsOpen(t[0])
      ensures Keeps(s, r) && s != t
    {
      LastCutWorks(s, t, cut);
    }
  }

  lemma NoCutCompletes(s: string, safe: seq<Cut>)
    requires !Valid(Full(s, ScanAll(s))) && safe == ScanAll(s).safe
    requires safe != [] ==> safe[|safe| - 1].at <= |s| && !Valid(Candidate(s, safe[|safe| - 1]))
    ensures CompletesPrefixes(s, "", false)
  {
    hide Run, Valid, IsJson, ScanAll, Full, Candidate, Keeps, IsOpen;
    forall t | s <= t && s != "" && IsJson(t) && IsOpen(t[0])
      ensures false
    {
      LastCutWorks(s, t, if safe == [] then Cut(0, "") else safe[|safe| - 1]);
    }
  }

  // ---- how much of a prefix a completion keeps ----

  predicate InValueString(k: Config) {
    StringMode(k.mode) && k.stack.Push? && !k.stack.top.InKey?
  }

  /** The text ends where every open value is complete, or in the middle of a string value. */
  predicate KeepsAll(k: Config) {
    Closable(k) || (k.mode.InString? && InValueString(k))
  }

  /** The text ends in a string value behind a backslash that escapes nothing yet. */
  predicate EndsInEscape(k: Config) {
    k.mode.InEscape? && InValueString(k)
  }

  /** What is added behind the text that is kept. */
  function Ending(k: Config): string {
    (if StringMode(k.mode) then ['"'] else "") + CloseText(k.stack)
  }

  /** What the scan of a prefix says about the run. */
  predicate Mirrors(x: Scan, k: Config) {
    && Legit(k) && !k.mode.Error?
    && x.inString == StringMode(k.mode) && x.escaped == k.mode.InEscape? && x.stack == Shape(k.stack)
  }

  lemma PrefixMirrors(s: string, t: string)
    requires s <= t && IsJson(t)
    ensures Mirrors(ScanAll(s), Run(START, s)) && (Run(START, s).mode.InEscape? ==> s != "" && s[|s| - 1] == '\\')
  {
    hide IsJson, Valid, Step, Run, ScanAll, Legit;
    var ks := ScanOfPrefix(s, t);
    assert s[..|s|] == s;
    PrefixIsLegit(s, t);
  }

  lemma PrefixIsLegit(s: string, t: string)
    requires s <= t && IsJson(t)
    ensures Legit(Run(START, s)) && !Run(START, s).mode.Error?
  {
    ValidIsGrammar(t);
    assert t == s + t[|s|..];
    RunAppend(START, s, t[|s|..]);
    RunLegit(START, s);
    if Run(START, s).mode.Error? {
      ErrorStays(Run(START, s), t[|s|..]);
    }
  }

  lemma RunLast(k: Config, s: string)
    requires s != ""
    ensures Run(k, s) == Step(Run(k, s[..|s| - 1]), s[|s| - 1])
  {
    assert s == s[..|s| - 1] + [s[|s| - 1]];
    RunAppend(k, s[..|s| - 1], [s[|s| - 1]]);
    RunOne(Run(k, s[..|s| - 1]), s[|s| - 1]);
  }

  /** Past its first bracket the text of an array or object is inside a bracket, or complete. */
  lemma {:induction false} InsideOrDone(s: string)
    requires s != "" && IsOpen(s[0]) && !Run(START, s).mode.Error?
    ensures Run(START, s).stack.Push? || Run(START, s).mode.EndValue?
    decreases |s|
  {
    RunLast(START, s);
    var front := s[..|s| - 1];
    if front == "" {
      assert Run(START, front) == START;
    } else {
      assert front[0] == s[0];
      InsideOrDone(front);
    }
  }

  lemma BeforeEscape(s: string)
    requires Run(START, s).mode.InEscape?
    ensures s != "" && Run(START, s[..|s| - 1]) == Config(InString, Run(START, s).stack)
  {
    assert s != "" by {
      ScanNothing();
    }
    hide Run, Step;
    RunLast(START, s);
    IntoEscape(Run(START, s[..|s| - 1]), s[|s| - 1]);
  }

  lemma IntoEscape(k: Config, c: char)
    requires Step(k, c).mode.InEscape?
    ensures k == Config(InString, Step(k, c).stack)
  {}

  lemma FullAsEnding(s: string, x: Scan, k: Config)
    requires Mirrors(x, k) && (k.mode.InEscape? ==> s != "")
    ensures Full(s, x) == (if k.mode.InEscape? then s[..|s| - 1] else s) + Ending(k)
  {
    CloseTextIsClosers(k.stack);
  }

  lemma RunStep(k: Config, c: char, s: string)
    ensures Run(k, [c] + s) == Run(Step(k, c), s)
  {
    assert ([c] + s)[1..] == s;
  }

  /** From a string value, or from a point where all is complete, the ending is accepted. */
  lemma EndingAccepted(k: Config)
    requires Legit(k) && KeepsAll(k) && (k.stack.Push? || k.mode.EndValue?)
    ensures Accepts(Run(k, Ending(k)))
  {
    if Closable(k) {
      assert Ending(k) == CloseText(k.stack);
      CloseAll(k);
    } else {
      var closed := Config(EndValue, k.stack);
      RunStep(k, '"', CloseText(k.stack));
      CloseAll(closed);
    }
  }

  /** From anywhere else it is not. */
  lemma EndingRejected(k: Config)
    requires Legit(k) && !k.mode.Error? && !KeepsAll(k) && !k.mode.InEscape? && k.stack.Push?
    ensures !Accepts(Run(k, Ending(k)))
  {
    var closers := CloseText(k.stack);
    assert closers == [Closer(k.stack.top)] + CloseText(k.stack.below);
    var next := if StringMode(k.mode) then Step(k, '"') else k;
    CloserRejected(k, next);
    hide Step, Legit;
    if StringMode(k.mode) {
      RunStep(k, '"', closers);
    } else {
      assert Ending(k) == closers;
    }
    RunStep(next, Closer(k.stack.top), CloseText(k.stack.below));
    RunError(CloseText(k.stack.below));
    assert !Accepts(REJECT) by {
      RejectStays();
    }
  }

  lemma RejectStays()
    ensures Step(REJECT, ' ') == REJECT
  {}

  lemma CloserRejected(k: Config, next: Config)
    requires Legit(k) && !k.mode.Error? && !KeepsAll(k) && !k.mode.InEscape? && k.stack.Push?
    requires next == if StringMode(k.mode) then Step(k, '"') else k
    ensures Step(next, Closer(k.stack.top)) == REJECT
  {}

  /** On a prefix of an array or object the closed text is JSON exactly where all of the prefix is kept,
      but for a backslash that escapes nothing yet. */
  lemma FullIsValid(s: string, t: string)
    requires s <= t && s != "" && IsJson(t) && IsOpen(t[0])
    ensures var k := Run(START, s);
      && (Valid(Full(s, ScanAll(s))) <==> KeepsAll(k) || EndsInEscape(k))
      && (KeepsAll(k) ==> Full(s, ScanAll(s)) == s + Ending(k))
      && (EndsInEscape(k) ==> Full(s, ScanAll(s)) == s[..|s| - 1] + Ending(k))
  {
    hide IsJson, Run, Step, ScanAll, Legit, Accepts, Full;
    var k := Run(START, s);
    PrefixMirrors(s, t);
    FullAsEnding(s, ScanAll(s), k);
    InsideOrDone(s);
    if k.mode.InEscape? {
      BeforeEscape(s);
      var inside, front := Config(InString, k.stack), s[..|s| - 1];
      LegitInside(k);
      RunAppend(START, front, Ending(k));
      EndingDecides(inside);
      assert Ending(inside) == Ending(k);
    } else {
      RunAppend(START, s, Ending(k));
      EndingDecides(k);
    }
  }

  lemma LegitInside(k: Config)
    requires Legit(k) && k.mode.InEscape? && (k.stack.Push? || k.mode.EndValue?)
    ensures Legit(Config(InString, k.stack)) && !Closable(k) && (KeepsAll(Config(InString, k.stack)) <==> EndsInEscape(k))
  {}

  lemma EndingDecides(k: Config)
    requires Legit(k) && !k.mode.Error? && !k.mode.InEscape? && (k.stack.Push? || k.mode.EndValue?)
    ensures Accepts(Run(k, Ending(k))) <==> KeepsAll(k)
  {
    if KeepsAll(k) {
      EndingAccepted(k);
    } else {
      EndingRejected(k);
    }
  }

  predicate IsCloserText(closers: string) {
    forall i | 0 <= i < |closers| :: IsClose(closers[i])
  }

  lemma {:induction false} ShapeCloses(st: Stack)
    ensures IsCloserText(Closers(Shape(st)))
  {
    CloseTextIsClosers(st);
    if st.Push? {
      ShapeCloses(st.below);
      CloseTextIsClosers(st.below);
    }
  }

  /** The last cut of the first `n` characters lies at a point where all is complete, has only closers
      to add, and the text goes on with something else. */
  predicate CutIsBehind(s: string, n: nat, x: Scan, k: Config) {
    x.safe != [] && var cut := x.safe[|x.safe| - 1];
      && cut.at <= n && n <= |s| && IsCloserText(cut.closers)
      && (cut.at == n ==> Closable(k))
      && (cut.at < n ==> !IsClose(s[cut.at]))
  }

  lemma StepBehind(s: string, n: nat, x: Scan, k: Config)
    requires n < |s| && Mirrors(x, k) && !Step(k, s[n]).mode.Error?
    requires if n == 0 then x == FRESH && k == START && IsOpen(s[n]) else CutIsBehind(s, n, x, k)
    ensures CutIsBehind(s, n + 1, ScanStep(x, n, s[n]), Step(k, s[n]))
  {
    hide Legit, Closable, IsCloserText, Step;
    var c := s[n];
    if StringMode(k.mode) {
      InsideIsOpen(k);
      assert ScanStep(x, n, c).safe == x.safe;
    } else if IsStructural(c) {
      StepStack(k, c);
      StepStructural(k, x, n, c);
      ShapeCloses(Step(k, c).stack);
    } else {
      assert ScanStep(x, n, c).safe == x.safe;
    }
  }

  lemma InsideIsOpen(k: Config)
    requires StringMode(k.mode)
    ensures !Closable(k)
  {}

  lemma {:induction false} LastCutIsBehind(s: string, t: string)
    requires s <= t && s != "" && IsJson(t) && IsOpen(t[0])
    ensures CutIsBehind(s, |s|, ScanAll(s), Run(START, s))
    decreases |s|
  {
    hide IsJson, Step, ScanStep, CutIsBehind, Run, ScanAll, Mirrors;
    var n := |s| - 1;
    var front := s[..n];
    PrefixMirrors(front, t);
    PrefixIsLegit(s, t);
    RunLast(START, s);
    ScanLast(s);
    if front == "" {
      ScanNothing();
    } else {
      LastCutIsBehind(front, t);
      BehindLonger(front, s, ScanAll(front), Run(START, front));
    }
    StepBehind(s, n, ScanAll(front), Run(START, front));
  }

  lemma ScanLast(s: string)
    requires s != ""
    ensures ScanAll(s) == ScanStep(ScanAll(s[..|s| - 1]), |s| - 1, s[|s| - 1])
  {}

  lemma ScanNothing()
    ensures ScanAll("") == FRESH && Run(START, "") == START
  {}

  lemma BehindLonger(front: string, s: string, x: Scan, k: Config)
    requires front <= s && CutIsBehind(front, |front|, x, k)
    ensures CutIsBehind(s, |front|, x, k)
  {}

  /** Behind the last cut comes a character that no completion of the cut has there. */
  lemma CutLosesText(s: string, t: string)
    requires s <= t && s != "" && IsJson(t) && IsOpen(t[0]) && !KeepsAll(Run(START, s))
    ensures ScanAll(s).safe != []
    ensures var cut := ScanAll(s).safe[|ScanAll(s).safe| - 1]; cut.at <= |s| && !(s <= Candidate(s, cut))
  {
    hide IsJson, Run, ScanAll, Closable;
    LastCutIsBehind(s, t);
    var cut := ScanAll(s).safe[|ScanAll(s).safe| - 1];
    assert cut.at < |s| && forall i | cut.at <= i < |Candidate(s, cut)| :: IsClose(Candidate(s, cut)[i]);
  }

  /** How much of a prefix of an array or object survives: all of it exactly where every open value is
      complete or a string value is open, all but an idle backslash inside such a string, and else what
      the last cut keeps. Nothing is added but the end of the string and the closers of the brackets. */
  ghost predicate KeepsWhatItCan(s: string, r: string) {
    forall t | s <= t && s != "" && IsJson(t) && IsOpen(t[0]) :: KeptExactly(s, r)
  }

  ghost predicate KeptExactly(s: string, r: string) {
    var k, safe := Run(START, s), ScanAll(s).safe;
    && (s <= r <==> KeepsAll(k))
    && (KeepsAll(k) ==> r == s + Ending(k))
    && (EndsInEscape(k) ==> s != "" && r == s[..|s| - 1] + Ending(k))
    && (!KeepsAll(k) && !EndsInEscape(k) ==> safe != [] && safe[|safe| - 1].at <= |s| && r == Candidate(s, safe[|safe| - 1]))
  }

  lemma FullKeeps(s: string)
    requires Valid(Full(s, ScanAll(s)))
    ensures KeepsWhatItCan(s, Full(s, ScanAll(s)))
  {
    hide IsJson, Valid, Run, ScanAll, Full, Closable;
    forall t | s <= t && s != "" && IsJson(t) && IsOpen(t[0])
      ensures KeptExactly(s, Full(s, ScanAll(s)))
    {
      FullIsValid(s, t);
      PrefixMirrors(s, t);
      var k := Run(START, s);
      if EndsInEscape(k) {
        InsideIsOpen(k);
        assert (s[..|s| - 1] + Ending(k))[|s| - 1] == '"';
      }
    }
  }

  lemma CutKeeps(s: string, cut: Cut, r: string)
    requires !Valid(Full(s, ScanAll(s))) && ScanAll(s).safe != [] && cut == ScanAll(s).safe[|ScanAll(s).safe| - 1]
    requires cut.at <= |s| && (Valid(Candidate(s, cut)) ==> r == Candidate(s, cut))
    ensures KeepsWhatItCan(s, r)
  {
    hide IsJson, Valid, Run, ScanAll, Full, Closable;
    forall t | s <= t && s != "" && IsJson(t) && IsOpen(t[0])
      ensures KeptExactly(s, r)
    {
      FullIsValid(s, t);
      LastCutWorks(s, t, cut);
      CutLosesText(s, t);
    }
  }

  lemma ScanSnoc(s: string, i: nat)
    requires i < |s|
    ensures ScanAll(s[..i + 1]) == ScanStep(ScanAll(s[..i]), i, s[i])
  {
    assert s[..i + 1][..i] == s[..i];
  }

  /** The scanning loop of `completeJSON`. */
  method ScanText(s: string) returns (stack: seq<char>, inString: bool, escaped: bool, safe: seq<Cut>)
    ensures Scan(stack, inString, escaped, safe) == ScanAll(s)
    ensures forall j | 0 <= j < |safe| :: safe[j].at <= |s|
  {
    stack, inString, escaped, safe := [], false, false, [];
    var i := 0;
    while i < |s|
      invariant i <= |s|
      invariant Scan(stack, inString, escaped, safe) == ScanAll(s[..i])
      invariant forall j | 0 <= j < |safe| :: safe[j].at <= i
    {
      var c := s[i];
      ScanSnoc(s, i);
      if escaped {
        escaped := false;
      } else if inString {
        if c == '\\' {
          escaped := true;
        } else if c == '"' {
          inString := false;
        }
      } else if c == '"' {
        inString := true;
      } else if c == '{' {
        stack := stack + ['}'];
        safe := safe + [Cut(i + 1, Closers(stack))];
      } else if c == '[' {
        stack := stack + [']'];
        safe := safe + [Cut(i + 1, Closers(stack))];
      } else if IsClose(c) {
        if |stack| > 0 {
          stack := stack[..|stack| - 1];
        }
        safe := safe + [Cut(i + 1, Closers(stack))];
      } else if c == ',' {
        safe := safe + [Cut(i, Closers(stack))];
      }
      i := i + 1;
    }
    assert s[..|s|] == s;
  }

  /** Closes a JSON prefix. Of the closed text and, from the last safe cut to the first, the cut
      texts, it returns the first that is JSON. On a prefix of a JSON array or object it always
      succeeds and keeps everything up to the last bracket or comma; on the whole text it
      changes nothing. */
  method CompleteJson(s: string) returns (r: string, ok: bool)
    ensures ok ==> IsJson(r)
    ensures !ok ==> r == "" && !Valid(Full(s, ScanAll(s))) && forall cut | cut in ScanAll(s).safe :: cut.at <= |s| && !Valid(Candidate(s, cut))
    ensures Valid(Full(s, ScanAll(s))) ==> r == Full(s, ScanAll(s))
    ensures ok && !Valid(Full(s, ScanAll(s))) ==> IsLastValidCut(s, ScanAll(s).safe, r)
    ensures CompletesPrefixes(s, r, ok) && KeepsWhatItCan(s, r)
  {
    hide Valid, IsJson;
    var stack, inString, escaped, safe := ScanText(s);
    var full := s;
    if inString {
      if escaped && |full| > 0 {
        full := full[..|full| - 1];
      }
      full := full + ['"'];
    }
    full := full + Closers(stack);
    if Valid(full) {
      FullCompletes(s);
      FullKeeps(s);
      ValidIsGrammar(full);
      return full, true;
    }
    var i := |safe|;
    while i > 0
      invariant 0 <= i <= |safe|
      invariant forall j | i <= j < |safe| :: !Valid(Candidate(s, safe[j]))
    {
      i := i - 1;
      var candidate := s[..safe[i].at] + safe[i].closers;
      if Valid(candidate) {
        LastCutCompletes(s, safe[|safe| - 1], candidate);
        CutKeeps(s, safe[|safe| - 1], candidate);
        ValidIsGrammar(candidate);
        return candidate, true;
      }
    }
    NoCutCompletes(s, safe);
    return "", false;
  }
}
