/**
 * What one call of `LineParser::onLine` does to the parser's fields
 * (LineParser.cpp:26-173), as a function from the old fields to the new ones,
 * together with the answers of the virtual hooks it calls.
 */
module Engine {
  import opened Wrappers
  import opened Decimal
  import opened Patterns
  import opened Grammar

  /** One element of `temps`, a `pair<int, float>`: a vertex number and its temperature as matched. */
  datatype Temp = Temp(vertex: nat, value: string)

  /**
   * The fields of a `LineParser` (LineParser.h:22-41) other than the compiled
   * patterns. Coordinates and temperatures are kept as the whole captured token,
   * of which `stof` reads the longest numeric prefix;
   * `error` is the text accumulated in the `stringstream`.
   */
  datatype Session = Session(
    state: LpState,
    vertices: seq<string>,
    faces: seq<nat>,
    name: string,
    lineNum: nat,
    error: string,
    timestamp: nat,
    temps: seq<Temp>)

  /**
   * The answers of the five virtual hooks (LineParser.h:53-57). A subclass
   * may override any of them; the parser only looks at the `int` each returns.
   */
  datatype Hooks = Hooks(
    onComment: string -> int,
    onModelStart: string -> int,
    onModelEnd: (string, seq<string>, seq<nat>) -> int,
    onFrameStart: nat -> int,
    onFrameEnd: (nat, seq<Temp>) -> int)

  /** The hooks of `LineParser` itself (LineParser.cpp:175-213): each returns 0. */
  const DefaultHooks: Hooks :=
    Hooks(_ => 0, _ => 0, (_, _, _) => 0, _ => 0, (_, _) => 0)

  /** A call of a hook, with the arguments it is given. */
  datatype HookCall =
    | CommentCall(text: string)
    | ModelStartCall(name: string)
    | ModelEndCall(name: string, vertices: seq<string>, faces: seq<nat>)
    | FrameStartCall(ms: nat)
    | FrameEndCall(ms: nat, temps: seq<Temp>)

  /** What hook `c` answers under `h`. */
  function Answer(h: Hooks, c: HookCall): int {
    match c
    case CommentCall(text) => h.onComment(text)
    case ModelStartCall(name) => h.onModelStart(name)
    case ModelEndCall(name, vs, fs) => h.onModelEnd(name, vs, fs)
    case FrameStartCall(ms) => h.onFrameStart(ms)
    case FrameEndCall(ms, ts) => h.onFrameEnd(ms, ts)
  }

  /** The new fields, the value `onLine` returns and the hooks it called, in order. */
  datatype Outcome = Outcome(next: Session, result: int, calls: seq<HookCall>)

  const AlreadyCompleted := "Parsing already completed"
  const AlreadyFailed := "Parsing failed"
  const ModelStartFailed := "Error in model start"
  const ModelEndFailed := "Error in model end"
  const FrameStartFailed := "Error in frame start"
  const FrameEndFailed := "Error in frame end"
  const UnrecognizedSequence := "Unrecognized sequence"

  /** The messages that come with a line number. */
  const LineMessages: set<string> :=
    {ModelStartFailed, ModelEndFailed, FrameStartFailed, FrameEndFailed, UnrecognizedSequence}

  /** `error << msg << " @ line #" << n`. */
  function Diag(msg: string, n: nat): string {
    msg + " @ line #" + NatToString(n)
  }

  /** The line number written at the end of a diagnostic reads back as that number. */
  lemma DiagCitesLine(msg: string, n: nat)
    ensures var d := Diag(msg, n);
      && |msg| + 9 < |d| && d[..|msg|] == msg && d[|msg|..|msg| + 9] == " @ line #"
      && AllDigits(d[|msg| + 9..]) && DigitsValue(d[|msg| + 9..]) == n
  {
    var d := Diag(msg, n);
    assert d[|msg| + 9..] == NatToString(n);
    NatToStringRoundTrip(n);
  }

  /** Entering `LP_ERROR` with a diagnostic that cites the current line. */
  function Fail(s: Session, msg: string): (f: Session)
    ensures f.state == Error && f.error == s.error + Diag(msg, s.lineNum)
    ensures f.(state := s.state, error := s.error) == s
  {
    s.(state := Error, error := s.error + Diag(msg, s.lineNum))
  }

  /**
   * A freshly constructed parser (LineParser.cpp:3-15). `timestamp` has no
   * initialiser in the source, so its value is a parameter.
   */
  function Fresh(ts: nat): (s: Session)
    requires ts <= ULongMax
    ensures s.state == Started && s.lineNum == 0 && s.error == [] && s.timestamp == ts
    ensures s.vertices == [] && s.faces == [] && s.temps == [] && s.name == []
  {
    Session(Started, [], [], [], 0, [], ts, [])
  }

  /**
   * `onLine(line)` applied to fields `p` with hooks `h`. The line must not make
   * `stof`, `stoi` or `stoul` throw, and `lineNum` must not overflow.
   */
  function Step(p: Session, line: string, h: Hooks): (o: Outcome)
    requires p.lineNum < IntMax && Convertible(Classify(p.state, line))
    ensures o.next.lineNum == p.lineNum + 1
    ensures p.error <= o.next.error
    ensures |o.calls| <= 1
  {
    Act(p, Classify(p.state, line), h)
  }

  /** What `onLine` does once it has found that the line is of kind `k`. */
  function Act(p: Session, k: LineKind, h: Hooks): (o: Outcome)
    requires p.lineNum < IntMax && Convertible(k)
    ensures o.next.lineNum == p.lineNum + 1
    ensures p.error <= o.next.error
    ensures |o.calls| <= 1
  {
    var q := p.(lineNum := p.lineNum + 1);
    match k
    case BlankLine => Outcome(q, 0, [])
    case CommentLine(text) => Outcome(q, h.onComment(text), [CommentCall(text)])
    case LateLine =>
      var msg := if p.state == Finished then AlreadyCompleted else AlreadyFailed;
      Outcome(q.(error := p.error + msg), 1, [])
    case EndLine => Outcome(q.(state := Finished), 1, [])
    case ModelLine(name) =>
      var r := q.(name := name);
      if h.onModelStart(name) == 0 then Outcome(r.(state := ModelStart), 0, [ModelStartCall(name)])
      else Outcome(Fail(r, ModelStartFailed), 1, [ModelStartCall(name)])
    case ModelEndLine =>
      var call := ModelEndCall(p.name, p.vertices, p.faces);
      var r := q.(vertices := [], faces := []);
      if Answer(h, call) == 0 then Outcome(r.(state := ModelEnd), 0, [call])
      else Outcome(Fail(r, ModelEndFailed), 1, [call])
    case VertexLine(x, y, z) => Outcome(q.(vertices := p.vertices + [x, y, z]), 0, [])
    case FaceLine(a, b, c) =>
      Outcome(q.(faces := p.faces + [DigitsValue(a), DigitsValue(b), DigitsValue(c)]), 0, [])
    case FrameLine(ms) =>
      var t := DigitsValue(ms);
      var r := q.(timestamp := t, temps := []);
      if h.onFrameStart(t) != 0 then Outcome(Fail(r, FrameStartFailed), 1, [FrameStartCall(t)])
      else Outcome(r.(state := FrameStart), 0, [FrameStartCall(t)])
    case FrameEndLine =>
      var call := FrameEndCall(p.timestamp, p.temps);
      var r := q.(temps := []);
      if Answer(h, call) == 0 then Outcome(r.(state := ModelEnd), 0, [call])
      else Outcome(Fail(r, FrameEndFailed), 1, [call])
    case TempLine(index, value) =>
      Outcome(q.(temps := p.temps + [Temp(DigitsValue(index), value)]), 0, [])
    case Unrecognized =>
      var r := if p.state == ModelStart then q.(vertices := [], faces := []) else q;
      Outcome(Fail(r, UnrecognizedSequence), 1, [])
  }

  /** The precondition of `Step`. */
  predicate CanStep(p: Session, line: string) {
    p.lineNum < IntMax && Convertible(Classify(p.state, line))
  }

  // ---------------------------------------------------------------------
  // The invariant of the fields.
  // ---------------------------------------------------------------------

  /**
   * What holds of the fields between calls: whole triangles and whole vertices
   * in the buffers, which are empty outside a model section (and after it has
   * finished); temperatures only in or after a frame; a diagnostic once failed;
   * and every stored number within the width of its C++ type.
   */
  predicate Inv(s: Session) {
    && |s.vertices| % 3 == 0 && |s.faces| % 3 == 0
    && (s.state != ModelStart && s.state != Finished ==> s.vertices == [] && s.faces == [])
    && (s.state == Started || s.state == ModelStart || s.state == ModelEnd ==> s.temps == [])
    && (s.state == Error ==> |s.error| > 0)
    && (forall i :: 0 <= i < |s.vertices| ==> StofAccepts(s.vertices[i]))
    && (forall i :: 0 <= i < |s.faces| ==> s.faces[i] <= IntMax)
    && (forall i :: 0 <= i < |s.temps| ==> s.temps[i].vertex <= IntMax && StofAccepts(s.temps[i].value))
    && s.lineNum <= IntMax && s.timestamp <= ULongMax
  }

  lemma FreshInv(ts: nat)
    requires ts <= ULongMax
    ensures Inv(Fresh(ts))
  {
  }

  /** Acting on a line of a kind the state accepts keeps the invariant, whatever the hooks answer. */
  lemma ActPreservesInv(p: Session, k: LineKind, h: Hooks)
    requires Inv(p) && p.lineNum < IntMax && LegalIn(p.state, k) && WellFormed(k) && Convertible(k)
    ensures Inv(Act(p, k, h).next)
  {
    if k.VertexLine? || k.FaceLine? || k.TempLine? {
      AppendPreservesInv(p, k, h);
    } else if k.ModelLine? || k.ModelEndLine? || k.FrameLine? || k.FrameEndLine? {
      HookedActPreservesInv(p, k, h);
    }
  }

  /** A line that appends to a buffer keeps the invariant: the new entries fit their C++ types. */
  lemma AppendPreservesInv(p: Session, k: LineKind, h: Hooks)
    requires Inv(p) && p.lineNum < IntMax && LegalIn(p.state, k) && WellFormed(k) && Convertible(k)
    requires k.VertexLine? || k.FaceLine? || k.TempLine?
    ensures Inv(Act(p, k, h).next)
  {
    match k
    case VertexLine(x, y, z) => VertexPreservesInv(p, x, y, z, h);
    case FaceLine(a, b, c) => FacePreservesInv(p, a, b, c, h);
    case TempLine(index, value) => TempPreservesInv(p, index, value, h);
  }

  lemma VertexPreservesInv(p: Session, x: string, y: string, z: string, h: Hooks)
    requires Inv(p) && p.lineNum < IntMax && p.state == ModelStart && Convertible(VertexLine(x, y, z))
    ensures Inv(Act(p, VertexLine(x, y, z), h).next)
  {
    assert Act(p, VertexLine(x, y, z), h).next.vertices == p.vertices + [x, y, z];
  }

  lemma FacePreservesInv(p: Session, a: string, b: string, c: string, h: Hooks)
    requires Inv(p) && p.lineNum < IntMax && p.state == ModelStart && Convertible(FaceLine(a, b, c))
    ensures Inv(Act(p, FaceLine(a, b, c), h).next)
  {
    assert Act(p, FaceLine(a, b, c), h).next.faces == p.faces + [DigitsValue(a), DigitsValue(b), DigitsValue(c)];
  }

  lemma TempPreservesInv(p: Session, index: string, value: string, h: Hooks)
    requires Inv(p) && p.lineNum < IntMax && p.state == FrameStart && Convertible(TempLine(index, value))
    ensures Inv(Act(p, TempLine(index, value), h).next)
  {
    assert Act(p, TempLine(index, value), h).next.temps == p.temps + [Temp(DigitsValue(index), value)];
  }

  /** A line that calls a section hook keeps the invariant, whatever the hook answers. */
  lemma HookedActPreservesInv(p: Session, k: LineKind, h: Hooks)
    requires Inv(p) && p.lineNum < IntMax && LegalIn(p.state, k) && WellFormed(k) && Convertible(k)
    requires k.ModelLine? || k.ModelEndLine? || k.FrameLine? || k.FrameEndLine?
    ensures Inv(Act(p, k, h).next)
  {
  }

  /** `onLine` keeps the invariant, whatever the hooks answer. */
  lemma StepPreservesInv(p: Session, line: string, h: Hooks)
    requires Inv(p) && CanStep(p, line)
    ensures Inv(Step(p, line, h).next)
  {
    ActPreservesInv(p, Classify(p.state, line), h);
  }

  // ---------------------------------------------------------------------
  // The properties of one call.
  // ---------------------------------------------------------------------

  /** A line of white space only changes nothing but the line counter and returns 0. */
  lemma BlankLineInert(p: Session, line: string, h: Hooks)
    requires p.lineNum < IntMax && AllIn(line, Space)
    ensures CanStep(p, line)
    ensures Step(p, line, h) == Outcome(p.(lineNum := p.lineNum + 1), 0, [])
  {
  }

  /**
   * A comment line, in any state, changes nothing but the line counter, hands
   * its text to `onComment` and returns whatever that hook returns.
   */
  lemma CommentLineInert(p: Session, line: string, text: string, h: Hooks)
    requires p.lineNum < IntMax && MatchComment(line) == Some(text)
    ensures CanStep(p, line)
    ensures Step(p, line, h) == Outcome(p.(lineNum := p.lineNum + 1), h.onComment(text), [CommentCall(text)])
  {
  }

  /**
   * Once finished or failed, every line that is neither blank nor a comment
   * appends one more message, returns 1 and leaves the state where it is.
   */
  lemma TerminalAbsorbing(p: Session, line: string, h: Hooks)
    requires p.lineNum < IntMax && IsTerminal(p.state)
    requires !AllIn(line, Space) && MatchComment(line).None?
    ensures CanStep(p, line)
    ensures var o := Step(p, line, h);
      && o.result == 1 && o.calls == [] && o.next.state == p.state
      && o.next.error == p.error + (if p.state == Finished then AlreadyCompleted else AlreadyFailed)
      && o.next == p.(lineNum := p.lineNum + 1, error := o.next.error)
  {
  }

  /**
   * For a line that is neither blank nor a comment, `onLine` returns 0 or 1,
   * and 1 exactly when the parser is then finished or failed.
   */
  lemma ResultSignalsTerminal(p: Session, line: string, h: Hooks)
    requires CanStep(p, line) && !AllIn(line, Space) && MatchComment(line).None?
    ensures var o := Step(p, line, h);
      && (o.result == 0 || o.result == 1)
      && (o.result == 1 <==> IsTerminal(o.next.state))
  {
  }

  /** `end` finishes the parse from every live state, keeping the buffers, and returns 1. */
  lemma EndFinishes(p: Session, line: string, h: Hooks)
    requires p.lineNum < IntMax && !IsTerminal(p.state)
    requires !AllIn(line, Space) && MatchComment(line).None? && IsEnd(line)
    ensures CanStep(p, line)
    ensures Step(p, line, h) == Outcome(p.(lineNum := p.lineNum + 1, state := Finished), 1, [])
  {
  }

  /** The state changes of the source: each live state may also finish or fail. */
  predicate Edge(a: LpState, b: LpState) {
    || (a == Started && b == ModelStart)
    || (a == ModelStart && b == ModelEnd)
    || (a == ModelEnd && b == FrameStart)
    || (a == FrameStart && b == ModelEnd)
    || (!IsTerminal(a) && IsTerminal(b))
  }

  /** `onLine` stays in its state or follows one edge of the state machine. */
  lemma StepFollowsEdges(p: Session, line: string, h: Hooks)
    requires CanStep(p, line)
    ensures var s := Step(p, line, h).next.state; s == p.state || Edge(p.state, s)
  {
  }

  /**
   * A model section is entered only from `LP_STARTED`, by a `model` line whose
   * `onModelStart` returned 0, and the name is recorded.
   */
  lemma ModelOnlyFromStarted(p: Session, line: string, h: Hooks)
    requires CanStep(p, line) && p.state != ModelStart
    ensures var o := Step(p, line, h);
      o.next.state == ModelStart <==>
        p.state == Started && Classify(p.state, line).ModelLine?
        && h.onModelStart(Classify(p.state, line).name) == 0
    ensures var o := Step(p, line, h);
      o.next.state == ModelStart ==> o.next.name == Classify(p.state, line).name
  {
  }

  /**
   * A line no pattern of the current state takes fails the parse, cites the
   * line, and inside a model drops the model's buffers.
   */
  lemma UnrecognizedFails(p: Session, line: string, h: Hooks)
    requires CanStep(p, line) && Classify(p.state, line) == Unrecognized
    ensures var o := Step(p, line, h);
      && o.result == 1 && o.calls == [] && o.next.state == Error
      && o.next.error == p.error + Diag(UnrecognizedSequence, p.lineNum + 1)
      && o.next.vertices == (if p.state == ModelStart then [] else p.vertices)
      && o.next.faces == (if p.state == ModelStart then [] else p.faces)
      && o.next.temps == p.temps && o.next.name == p.name && o.next.timestamp == p.timestamp
  {
  }

  /** A vertex line inside a model, however it is spelled, appends exactly its three coordinates. */
  lemma VertexAppends(p: Session, line: string, x: string, y: string, z: string, h: Hooks)
    requires p.lineNum < IntMax && p.state == ModelStart
    requires Classify(p.state, line) == VertexLine(x, y, z) && Convertible(VertexLine(x, y, z))
    ensures CanStep(p, line)
    ensures Step(p, line, h) == Outcome(p.(lineNum := p.lineNum + 1, vertices := p.vertices + [x, y, z]), 0, [])
  {
  }

  /** A face line inside a model, however it is spelled, appends exactly its three vertex numbers. */
  lemma FaceAppends(p: Session, line: string, a: string, b: string, c: string, h: Hooks)
    requires p.lineNum < IntMax && p.state == ModelStart
    requires Classify(p.state, line) == FaceLine(a, b, c) && Convertible(FaceLine(a, b, c))
    ensures CanStep(p, line)
    ensures var fs := [DigitsValue(a), DigitsValue(b), DigitsValue(c)];
      Step(p, line, h) == Outcome(p.(lineNum := p.lineNum + 1, faces := p.faces + fs), 0, [])
  {
  }

  /** A temperature line inside a frame, however it is spelled, appends exactly one temperature. */
  lemma TempAppends(p: Session, line: string, index: string, value: string, h: Hooks)
    requires p.lineNum < IntMax && p.state == FrameStart
    requires Classify(p.state, line) == TempLine(index, value) && Convertible(TempLine(index, value))
    ensures CanStep(p, line)
    ensures Step(p, line, h)
      == Outcome(p.(lineNum := p.lineNum + 1, temps := p.temps + [Temp(DigitsValue(index), value)]), 0, [])
  {
  }

  /**
   * `modelend` hands the name and both buffers to `onModelEnd` and empties the
   * buffers whatever it answers; a non-zero answer fails the parse.
   */
  lemma ModelEndClears(p: Session, line: string, h: Hooks)
    requires CanStep(p, line) && p.state == ModelStart && Classify(p.state, line) == ModelEndLine
    ensures var o := Step(p, line, h);
      && o.calls == [ModelEndCall(p.name, p.vertices, p.faces)]
      && o.next.vertices == [] && o.next.faces == []
      && (o.next.state == ModelEnd <==> h.onModelEnd(p.name, p.vertices, p.faces) == 0)
      && (o.next.state != ModelEnd ==> o.next.error == p.error + Diag(ModelEndFailed, p.lineNum + 1))
  {
  }

  /**
   * `frame <ms>` sets the timestamp and empties the temperatures before it
   * calls `onFrameStart`, whatever that answers; a non-zero answer fails the parse.
   */
  lemma FrameStartClears(p: Session, line: string, h: Hooks)
    requires CanStep(p, line) && p.state == ModelEnd && Classify(p.state, line).FrameLine?
    ensures var o := Step(p, line, h); var ms := DigitsValue(Classify(p.state, line).ms);
      && o.calls == [FrameStartCall(ms)]
      && o.next.timestamp == ms && o.next.temps == []
      && (o.next.state == FrameStart <==> h.onFrameStart(ms) == 0)
      && (o.next.state != FrameStart ==> o.next.error == p.error + Diag(FrameStartFailed, p.lineNum + 1))
  {
  }

  /**
   * `frameend` hands the timestamp and the temperatures to `onFrameEnd` and
   * empties them whatever it answers; a non-zero answer fails the parse.
   */
  lemma FrameEndClears(p: Session, line: string, h: Hooks)
    requires CanStep(p, line) && p.state == FrameStart && Classify(p.state, line) == FrameEndLine
    ensures var o := Step(p, line, h);
      && o.calls == [FrameEndCall(p.timestamp, p.temps)]
      && o.next.temps == []
      && (o.next.state == ModelEnd <==> h.onFrameEnd(p.timestamp, p.temps) == 0)
      && (o.next.state != ModelEnd ==> o.next.error == p.error + Diag(FrameEndFailed, p.lineNum + 1))
  {
  }

  /**
   * Every failure that happens on a live state cites the line that caused it
   * with one of the messages of the source.
   */
  lemma FailureCitesLine(p: Session, line: string, h: Hooks)
    requires CanStep(p, line) && !IsTerminal(p.state)
    ensures var o := Step(p, line, h);
      o.next.state == Error ==>
        exists msg :: msg in LineMessages && o.next.error == p.error + Diag(msg, o.next.lineNum)
  {
    var o := Step(p, line, h);
    if o.next.state == Error {
      match Classify(p.state, line)
      case ModelLine(_) => assert ModelStartFailed in LineMessages;
      case ModelEndLine => assert ModelEndFailed in LineMessages;
      case FrameLine(_) => assert FrameStartFailed in LineMessages;
      case FrameEndLine => assert FrameEndFailed in LineMessages;
      case Unrecognized => assert UnrecognizedSequence in LineMessages;
    }
  }

  /**
   * The hooks matter only through what they answer: the calls made do not
   * depend on the hooks, and hooks that answer those calls alike give the same outcome.
   */
  lemma HooksOnlyThroughAnswers(p: Session, line: string, h1: Hooks, h2: Hooks)
    requires CanStep(p, line)
    ensures Step(p, line, h1).calls == Step(p, line, h2).calls
    ensures (forall c :: c in Step(p, line, h1).calls ==> Answer(h1, c) == Answer(h2, c))
      ==> Step(p, line, h1) == Step(p, line, h2)
  {
    var c1 := Step(p, line, h1).calls;
    if forall c :: c in c1 ==> Answer(h1, c) == Answer(h2, c) {
      match Classify(p.state, line)
      case CommentLine(text) => assert CommentCall(text) in c1;
      case ModelLine(name) => assert ModelStartCall(name) in c1;
      case FrameLine(ms) => assert FrameStartCall(DigitsValue(ms)) in c1;
      case _ =>
    }
  }

  /** Every hook of `LineParser` itself accepts whatever it is given. */
  lemma DefaultHooksAnswerZero(c: HookCall)
    ensures Answer(DefaultHooks, c) == 0
  {
  }

  /** With the source's own hooks, only an unrecognized line or a late line after a failure fails. */
  lemma DefaultHooksFailOnlyOnSyntax(p: Session, line: string)
    requires CanStep(p, line)
    ensures var o := Step(p, line, DefaultHooks);
      o.next.state == Error ==>
        p.state == Error || Classify(p.state, line) == Unrecognized
    ensures Step(p, line, DefaultHooks).result != 0 ==> IsTerminal(Step(p, line, DefaultHooks).next.state)
  {
  }

  // ---------------------------------------------------------------------
  // Feeding a sequence of lines, as a caller's read loop does.
  // ---------------------------------------------------------------------

  /** The fields after a sequence of calls, what each call returned, and every hook call in order. */
  datatype Trace = Trace(last: Session, results: seq<int>, calls: seq<HookCall>)

  /** No line of `lines`, fed in order from `p`, makes a conversion throw or `lineNum` overflow. */
  predicate Feasible(p: Session, lines: seq<string>, h: Hooks)
    decreases |lines|
  {
    lines == [] || (CanStep(p, lines[0]) && Feasible(Step(p, lines[0], h).next, lines[1..], h))
  }

  /** `onLine` called on each of `lines` in turn, starting from the fields `p`. */
  function Run(p: Session, lines: seq<string>, h: Hooks): (t: Trace)
    requires Feasible(p, lines, h)
    ensures |t.results| == |lines|
    ensures t.last.lineNum == p.lineNum + |lines|
    ensures p.error <= t.last.error
    decreases |lines|
  {
    if lines == [] then Trace(p, [], [])
    else
      var o := Step(p, lines[0], h);
      var rest := Run(o.next, lines[1..], h);
      Trace(rest.last, [o.result] + rest.results, o.calls + rest.calls)
  }

  /** The invariant holds after any feasible sequence of lines. */
  lemma {:induction false} RunPreservesInv(p: Session, lines: seq<string>, h: Hooks)
    requires Inv(p) && Feasible(p, lines, h)
    ensures Inv(Run(p, lines, h).last)
    decreases |lines|
  {
    if lines != [] {
      StepPreservesInv(p, lines[0], h);
      RunPreservesInv(Step(p, lines[0], h).next, lines[1..], h);
    }
  }

  /** `onModelEnd` and `onFrameEnd` see whole vertices and faces, and stored numbers. */
  predicate WholeCall(c: HookCall) {
    && (c.ModelEndCall? ==> |c.vertices| % 3 == 0 && |c.faces| % 3 == 0)
    && (c.FrameEndCall? ==> forall i :: 0 <= i < |c.temps| ==> c.temps[i].vertex <= IntMax)
  }

  /** Every buffer handed to a hook is whole (a multiple of three) when the fields satisfy the invariant. */
  lemma StepCallsWhole(p: Session, line: string, h: Hooks)
    requires Inv(p) && CanStep(p, line)
    ensures forall c :: c in Step(p, line, h).calls ==> WholeCall(c)
  {
  }

  /** Over any feasible run from fields satisfying the invariant, every hook sees whole buffers. */
  lemma {:induction false} RunCallsWhole(p: Session, lines: seq<string>, h: Hooks)
    requires Inv(p) && Feasible(p, lines, h)
    ensures forall c :: c in Run(p, lines, h).calls ==> WholeCall(c)
    decreases |lines|
  {
    if lines != [] {
      var o := Step(p, lines[0], h);
      StepCallsWhole(p, lines[0], h);
      StepPreservesInv(p, lines[0], h);
      RunCallsWhole(o.next, lines[1..], h);
      assert Run(p, lines, h).calls == o.calls + Run(o.next, lines[1..], h).calls;
    }
  }

  /** Once finished or failed, the parser stays so, however many lines follow. */
  lemma {:induction false} RunStaysTerminal(p: Session, lines: seq<string>, h: Hooks)
    requires IsTerminal(p.state) && Feasible(p, lines, h)
    ensures var t := Run(p, lines, h);
      && t.last.state == p.state
      && t.last.vertices == p.vertices && t.last.faces == p.faces && t.last.temps == p.temps
    ensures forall i | 0 <= i < |lines| && !AllIn(lines[i], Space) && MatchComment(lines[i]).None? ::
      Run(p, lines, h).results[i] == 1
    decreases |lines|
  {
    if lines != [] {
      var q := Step(p, lines[0], h).next;
      RunStaysTerminal(q, lines[1..], h);
      var t, rest := Run(p, lines, h), Run(q, lines[1..], h);
      assert t.results == [Step(p, lines[0], h).result] + rest.results;
      forall i | 0 < i < |lines| && !AllIn(lines[i], Space) && MatchComment(lines[i]).None?
        ensures t.results[i] == 1
      {
        assert lines[i] == lines[1..][i - 1];
      }
    }
  }

  // ---------------------------------------------------------------------
  // `reset` (LineParser.cpp:197-204).
  // ---------------------------------------------------------------------

  /**
   * `reset()`: the line counter, the buffers and the state go back to their
   * initial values. `error.clear()` only clears the stream's state flags, so the
   * accumulated text stays; `name` and `timestamp` are not touched.
   */
  function ResetOf(p: Session): (r: Session)
    ensures r.state == Started && r.lineNum == 0
    ensures r.vertices == [] && r.faces == [] && r.temps == []
    ensures r.error == p.error && r.name == p.name && r.timestamp == p.timestamp
  {
    p.(lineNum := 0, vertices := [], faces := [], state := Started, temps := [])
  }

  /**
   * Two sets of fields that behave alike: they differ at most in a prefix `pre`
   * of the error text, in `name` outside a model and in `timestamp` outside a
   * frame, where neither is read before it is set again.
   */
  predicate Agree(a: Session, b: Session, pre: string) {
    && a.state == b.state && a.vertices == b.vertices && a.faces == b.faces
    && a.lineNum == b.lineNum && a.temps == b.temps && a.error == pre + b.error
    && (a.state == ModelStart ==> a.name == b.name)
    && (a.state == FrameStart ==> a.timestamp == b.timestamp)
  }

  /** Fields that agree act alike on a line of any kind the state accepts. */
  lemma ActAgree(a: Session, b: Session, pre: string, k: LineKind, h: Hooks)
    requires Agree(a, b, pre) && b.lineNum < IntMax && Convertible(k) && LegalIn(a.state, k)
    ensures var oa, ob := Act(a, k, h), Act(b, k, h);
      Agree(oa.next, ob.next, pre) && oa.result == ob.result && oa.calls == ob.calls
  {
    if k.ModelLine? || k.ModelEndLine? {
      ModelHookAgree(a, b, pre, k, h);
    } else if k.FrameLine? || k.FrameEndLine? {
      FrameHookAgree(a, b, pre, k, h);
    } else if k.VertexLine? || k.FaceLine? || k.TempLine? {
      BufferActAgree(a, b, pre, k, h);
    } else {
      QuietActAgree(a, b, pre, k, h);
    }
  }

  /** The kinds that open or close a model, whose hook may fail the parse. */
  lemma ModelHookAgree(a: Session, b: Session, pre: string, k: LineKind, h: Hooks)
    requires Agree(a, b, pre) && b.lineNum < IntMax && Convertible(k) && LegalIn(a.state, k)
    requires k.ModelLine? || k.ModelEndLine?
    ensures var oa, ob := Act(a, k, h), Act(b, k, h);
      Agree(oa.next, ob.next, pre) && oa.result == ob.result && oa.calls == ob.calls
  {
  }

  /** The kinds that open or close a frame, whose hook may fail the parse. */
  lemma FrameHookAgree(a: Session, b: Session, pre: string, k: LineKind, h: Hooks)
    requires Agree(a, b, pre) && b.lineNum < IntMax && Convertible(k) && LegalIn(a.state, k)
    requires k.FrameLine? || k.FrameEndLine?
    ensures var oa, ob := Act(a, k, h), Act(b, k, h);
      Agree(oa.next, ob.next, pre) && oa.result == ob.result && oa.calls == ob.calls
  {
  }

  /** The kinds that append to a buffer. */
  lemma BufferActAgree(a: Session, b: Session, pre: string, k: LineKind, h: Hooks)
    requires Agree(a, b, pre) && b.lineNum < IntMax && Convertible(k) && LegalIn(a.state, k)
    requires k.VertexLine? || k.FaceLine? || k.TempLine?
    ensures var oa, ob := Act(a, k, h), Act(b, k, h);
      Agree(oa.next, ob.next, pre) && oa.result == ob.result && oa.calls == ob.calls
  {
  }

  /** The kinds that call no hook other than `onComment` and append to no buffer. */
  lemma QuietActAgree(a: Session, b: Session, pre: string, k: LineKind, h: Hooks)
    requires Agree(a, b, pre) && b.lineNum < IntMax && Convertible(k) && LegalIn(a.state, k)
    requires !(k.ModelLine? || k.ModelEndLine? || k.FrameLine? || k.FrameEndLine?)
    requires !(k.VertexLine? || k.FaceLine? || k.TempLine?)
    ensures var oa, ob := Act(a, k, h), Act(b, k, h);
      Agree(oa.next, ob.next, pre) && oa.result == ob.result && oa.calls == ob.calls
  {
    if k.LateLine? {
      LateActAgree(a, b, pre, h);
    } else if k.Unrecognized? {
      UnrecognizedActAgree(a, b, pre, h);
    }
  }

  /** A line after the parse has stopped appends the same message to both diagnostics. */
  lemma LateActAgree(a: Session, b: Session, pre: string, h: Hooks)
    requires Agree(a, b, pre) && b.lineNum < IntMax
    ensures var oa, ob := Act(a, LateLine, h), Act(b, LateLine, h);
      Agree(oa.next, ob.next, pre) && oa.result == ob.result && oa.calls == ob.calls
  {
    var oa, ob := Act(a, LateLine, h), Act(b, LateLine, h);
    assert oa.next.error == pre + ob.next.error;
  }

  /** An unrecognized line fails both parses alike. */
  lemma UnrecognizedActAgree(a: Session, b: Session, pre: string, h: Hooks)
    requires Agree(a, b, pre) && b.lineNum < IntMax
    ensures var oa, ob := Act(a, Unrecognized, h), Act(b, Unrecognized, h);
      Agree(oa.next, ob.next, pre) && oa.result == ob.result && oa.calls == ob.calls
  {
    var qa, qb := a.(lineNum := a.lineNum + 1), b.(lineNum := b.lineNum + 1);
    if a.state == ModelStart {
      FailAgree(qa.(vertices := [], faces := []), qb.(vertices := [], faces := []), pre, UnrecognizedSequence);
    } else {
      FailAgree(qa, qb, pre, UnrecognizedSequence);
    }
  }

  /** Failing with the same message keeps two agreeing sets of fields in agreement. */
  lemma FailAgree(a: Session, b: Session, pre: string, msg: string)
    requires a.state == b.state && a.vertices == b.vertices && a.faces == b.faces
    requires a.lineNum == b.lineNum && a.temps == b.temps && a.error == pre + b.error
    ensures Agree(Fail(a, msg), Fail(b, msg), pre)
  {
    assert Fail(a, msg).error == pre + Fail(b, msg).error;
  }

  /** Fields that agree take the same line to fields that agree, with the same result and hook calls. */
  lemma StepAgree(a: Session, b: Session, pre: string, line: string, h: Hooks)
    requires Agree(a, b, pre) && CanStep(b, line)
    ensures CanStep(a, line)
    ensures var oa, ob := Step(a, line, h), Step(b, line, h);
      Agree(oa.next, ob.next, pre) && oa.result == ob.result && oa.calls == ob.calls
  {
    ActAgree(a, b, pre, Classify(a.state, line), h);
  }

  /** Fields that agree give the same results and hook calls over any run. */
  lemma {:induction false} RunAgree(a: Session, b: Session, pre: string, lines: seq<string>, h: Hooks)
    requires Agree(a, b, pre) && Feasible(b, lines, h)
    ensures Feasible(a, lines, h)
    ensures var ta, tb := Run(a, lines, h), Run(b, lines, h);
      Agree(ta.last, tb.last, pre) && ta.results == tb.results && ta.calls == tb.calls
    decreases |lines|
  {
    if lines != [] {
      StepAgree(a, b, pre, lines[0], h);
      RunAgree(Step(a, lines[0], h).next, Step(b, lines[0], h).next, pre, lines[1..], h);
    }
  }

  /**
   * After `reset`, the parser behaves as a freshly constructed one: the same
   * results and hook calls for every sequence of lines, except that the old
   * error text stays in front of the new.
   */
  lemma ResetLikeFresh(p: Session, ts: nat, lines: seq<string>, h: Hooks)
    requires ts <= ULongMax && Feasible(Fresh(ts), lines, h)
    ensures Feasible(ResetOf(p), lines, h)
    ensures var tr, tf := Run(ResetOf(p), lines, h), Run(Fresh(ts), lines, h);
      && tr.results == tf.results && tr.calls == tf.calls
      && tr.last.state == tf.last.state && tr.last.error == p.error + tf.last.error
  {
    RunAgree(ResetOf(p), Fresh(ts), p.error, lines, h);
  }

  /**
   * `reset` with the diagnostic emptied as well, which is what the
   * `error.clear()` call evidently means to do.
   */
  function ResetCleared(p: Session): (r: Session)
    ensures r == ResetOf(p).(error := [])
  {
    p.(lineNum := 0, vertices := [], faces := [], state := Started, temps := [], error := [])
  }

  /** With the diagnostic emptied, a reset parser is indistinguishable from a fresh one, error text included. */
  lemma ResetClearedLikeFresh(p: Session, ts: nat, lines: seq<string>, h: Hooks)
    requires ts <= ULongMax && Feasible(Fresh(ts), lines, h)
    ensures Feasible(ResetCleared(p), lines, h)
    ensures var tr, tf := Run(ResetCleared(p), lines, h), Run(Fresh(ts), lines, h);
      && tr.results == tf.results && tr.calls == tf.calls
      && tr.last.state == tf.last.state && tr.last.error == tf.last.error
  {
    assert Agree(ResetCleared(p), Fresh(ts), []);
    RunAgree(ResetCleared(p), Fresh(ts), [], lines, h);
  }
}
