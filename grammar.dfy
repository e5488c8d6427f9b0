/**
 * The parser's six states (LineParser.h:13-20) and the classification of one
 * line in a given state, in the order in which `onLine` tries the patterns
 * (LineParser.cpp:30-168).
 */
module Grammar {
  import opened Wrappers
  import opened Decimal
  import opened Patterns

  /**
   * `lpState`. As in the source, `ModelStart` is the state inside a model
   * section, `ModelEnd` the state between frames, and `FrameStart` the state
   * inside a frame section.
   */
  datatype LpState = Started | ModelStart | ModelEnd | FrameStart | Finished | Error

  /** The two states `onLine` never leaves. */
  predicate IsTerminal(s: LpState) {
    s == Finished || s == Error
  }

  /** What a line is, in the state it arrives in; the captured groups are kept as text. */
  datatype LineKind =
    | BlankLine
    | CommentLine(text: string)
    | LateLine                  // any other line once parsing has finished or failed
    | EndLine
    | ModelLine(name: string)
    | ModelEndLine
    | VertexLine(x: string, y: string, z: string)
    | FaceLine(a: string, b: string, c: string)
    | FrameLine(ms: string)
    | FrameEndLine
    | TempLine(index: string, value: string)
    | Unrecognized

  /** The states in which `onLine` acts on a line of kind `k`. */
  predicate LegalIn(st: LpState, k: LineKind) {
    match k
    case BlankLine => true
    case CommentLine(_) => true
    case LateLine => IsTerminal(st)
    case EndLine => !IsTerminal(st)
    case Unrecognized => !IsTerminal(st)
    case ModelLine(_) => st == Started
    case ModelEndLine => st == ModelStart
    case VertexLine(_, _, _) => st == ModelStart
    case FaceLine(_, _, _) => st == ModelStart
    case FrameLine(_) => st == ModelEnd
    case FrameEndLine => st == FrameStart
    case TempLine(_, _) => st == FrameStart
  }

  /** The captured groups lie in the character classes of their patterns. */
  predicate WellFormed(k: LineKind) {
    match k
    case CommentLine(text) => AllIn(text, NotNewline)
    case ModelLine(name) => IsToken(name, Alnum)
    case VertexLine(x, y, z) => IsToken(x, NumberChar) && IsToken(y, NumberChar) && IsToken(z, NumberChar)
    case FaceLine(a, b, c) => IsToken(a, Digit) && IsToken(b, Digit) && IsToken(c, Digit)
    case FrameLine(ms) => IsToken(ms, Digit)
    case TempLine(index, value) => IsToken(index, Digit) && IsToken(value, NumberChar)
    case _ => true
  }

  /**
   * The kind of `line` in state `st`: blank, then comment, then the terminal
   * states, then `end`, then the productions of the current state; a line that
   * none of them takes is unrecognized.
   */
  function Classify(st: LpState, line: string): (k: LineKind)
    ensures LegalIn(st, k) && WellFormed(k)
  {
    if IsBlank(line) then BlankLine
    else if MatchComment(line).Some? then CommentLine(MatchComment(line).value)
    else if IsTerminal(st) then LateLine
    else if IsEnd(line) then EndLine
    else if st == Started then StartedKind(line)
    else if st == ModelStart then ModelKind(line)
    else if st == ModelEnd then BetweenFramesKind(line)
    else FrameKind(line)
  }

  /** Before any model: only `model <name>` is a production. */
  function StartedKind(line: string): (k: LineKind)
    ensures LegalIn(Started, k) && WellFormed(k) && !k.EndLine?
  {
    if MatchModel(line).Some? then ModelLine(MatchModel(line).value) else Unrecognized
  }

  /** Inside a model: `modelend`, then `v`, then `f` with three fields. */
  function ModelKind(line: string): (k: LineKind)
    ensures LegalIn(ModelStart, k) && WellFormed(k) && !k.EndLine?
  {
    if IsModelEnd(line) then ModelEndLine
    else if MatchVertex(line).Some? then
      var v := MatchVertex(line).value;
      VertexLine(v[0], v[1], v[2])
    else if MatchFace(line).Some? then
      var f := MatchFace(line).value;
      FaceLine(f[0], f[1], f[2])
    else Unrecognized
  }

  /** Between frames: only `frame <ms>` is a production. */
  function BetweenFramesKind(line: string): (k: LineKind)
    ensures LegalIn(ModelEnd, k) && WellFormed(k) && !k.EndLine?
  {
    if MatchFrame(line).Some? then FrameLine(MatchFrame(line).value) else Unrecognized
  }

  /** Inside a frame: `frameend`, then `f` with two fields. */
  function FrameKind(line: string): (k: LineKind)
    ensures LegalIn(FrameStart, k) && WellFormed(k) && !k.EndLine?
  {
    if IsFrameEnd(line) then FrameEndLine
    else if MatchTemp(line).Some? then
      var p := MatchTemp(line).value;
      TempLine(p[0], p[1])
    else Unrecognized
  }

  /** Leading white space never changes the kind of a line. */
  lemma ClassifyIgnoresLeadingSpace(st: LpState, w: string, line: string)
    requires AllIn(w, Space)
    ensures Classify(st, w + line) == Classify(st, line)
  {
    TrimmedIgnoresSpaces(w, line);
    ClassifyByTrimmed(st, w + line, line);
  }

  /** Two lines that trim alike are of the same kind in every state. */
  lemma ClassifyByTrimmed(st: LpState, l1: string, l2: string)
    requires Trimmed(l1) == Trimmed(l2)
    ensures Classify(st, l1) == Classify(st, l2)
  {
    KindsByTrimmed(l1, l2);
    if !IsBlank(l1) && MatchComment(l1).None? && !IsTerminal(st) && !IsEnd(l1) {
      ClassifyInState(st, l1);
      ClassifyInState(st, l2);
    }
  }

  /** Every pattern looks only at the trimmed line, so two lines that trim alike are read alike. */
  lemma KindsByTrimmed(l1: string, l2: string)
    requires Trimmed(l1) == Trimmed(l2)
    ensures IsBlank(l1) == IsBlank(l2) && MatchComment(l1) == MatchComment(l2) && IsEnd(l1) == IsEnd(l2)
    ensures StartedKind(l1) == StartedKind(l2) && ModelKind(l1) == ModelKind(l2)
    ensures BetweenFramesKind(l1) == BetweenFramesKind(l2) && FrameKind(l1) == FrameKind(l2)
  {
    assert MatchModel(l1) == MatchModel(l2);
    assert IsModelEnd(l1) == IsModelEnd(l2) && MatchVertex(l1) == MatchVertex(l2) && MatchFace(l1) == MatchFace(l2);
    assert MatchFrame(l1) == MatchFrame(l2);
    assert IsFrameEnd(l1) == IsFrameEnd(l2) && MatchTemp(l1) == MatchTemp(l2);
  }

  // ---------------------------------------------------------------------
  // Numeric conversion (`stof`, `stoi`, `stoul`), which throws on some text
  // the patterns let through.
  // ---------------------------------------------------------------------

  /**
   * `stof` finds a number at the start of `s`: an optional minus sign and then
   * a digit, or a point followed by a digit.
   */
  predicate StofAccepts(s: string)
    ensures |s| > 0 && IsDigit(s[0]) ==> StofAccepts(s)
    ensures (forall i :: 0 <= i < |s| ==> !IsDigit(s[i])) ==> !StofAccepts(s)
  {
    var i := if |s| > 0 && s[0] == '-' then 1 else 0;
    (i < |s| && IsDigit(s[i])) || (i + 1 < |s| && s[i] == '.' && IsDigit(s[i + 1]))
  }

  /** `stoi` reads the digit run `s` without leaving the range of `int`. */
  predicate StoiAccepts(s: string)
    ensures AllDigits(s) && |s| <= 9 ==> StoiAccepts(s)
    ensures StoiAccepts(s) ==> StoulAccepts(s)
  {
    if AllDigits(s) && |s| <= 9 then DigitsBelow(s, 9); WidthsInDigits(); DigitsValue(s) <= IntMax
    else AllDigits(s) && DigitsValue(s) <= IntMax
  }

  /** `stoul` reads the digit run `s` without leaving the range of `unsigned long`. */
  predicate StoulAccepts(s: string)
    ensures AllDigits(s) && |s| <= 19 ==> StoulAccepts(s)
  {
    if AllDigits(s) && |s| <= 19 then DigitsBelow(s, 19); WidthsInDigits(); DigitsValue(s) <= ULongMax
    else AllDigits(s) && DigitsValue(s) <= ULongMax
  }

  /** Every conversion `onLine` performs on a line of kind `k` returns instead of throwing. */
  predicate Convertible(k: LineKind)
    ensures !(k.VertexLine? || k.FaceLine? || k.FrameLine? || k.TempLine?) ==> Convertible(k)
  {
    match k
    case VertexLine(x, y, z) => StofAccepts(x) && StofAccepts(y) && StofAccepts(z)
    case FaceLine(a, b, c) => StoiAccepts(a) && StoiAccepts(b) && StoiAccepts(c)
    case FrameLine(ms) => StoulAccepts(ms)
    case TempLine(index, value) => StoiAccepts(index) && StofAccepts(value)
    case _ => true
  }

  // ---------------------------------------------------------------------
  // The text of each production, in every spelling the patterns accept, and
  // reading it back.
  // ---------------------------------------------------------------------

  /** The kinds that name a production of the grammar. */
  predicate IsProduction(k: LineKind) {
    !k.LateLine? && !k.Unrecognized?
  }

  /** The shortest line of kind `k`: lower-case keyword, one space before each field. */
  function Render(k: LineKind): string
    requires IsProduction(k)
  {
    if k.BlankLine? then ""
    else if k.CommentLine? then "#" + k.text
    else Keyword(k) + Spaced(Captures(k))
  }

  /** The productions that open with a keyword: all but blank lines and comments. */
  predicate Keyworded(k: LineKind) {
    IsProduction(k) && !k.BlankLine? && !k.CommentLine?
  }

  /** The keyword of a production as its pattern writes it; only `end` starts with `e`. */
  function Keyword(k: LineKind): (kw: string)
    requires Keyworded(k)
    ensures |kw| > 0 && (kw[0] == 'e' <==> k.EndLine?)
    ensures forall m :: 0 <= m < |kw| ==> 'a' <= kw[m] <= 'z'
  {
    match k
    case EndLine => "end"
    case ModelLine(_) => "model"
    case ModelEndLine => "modelend"
    case VertexLine(_, _, _) => "v"
    case FaceLine(_, _, _) => "f"
    case FrameLine(_) => "frame"
    case FrameEndLine => "frameend"
    case TempLine(_, _) => "f"
  }

  /** The groups a production's pattern captures, in order. */
  function Captures(k: LineKind): seq<string>
    requires Keyworded(k)
  {
    match k
    case ModelLine(name) => [name]
    case VertexLine(x, y, z) => [x, y, z]
    case FaceLine(a, b, c) => [a, b, c]
    case FrameLine(ms) => [ms]
    case TempLine(index, value) => [index, value]
    case _ => []
  }

  /** The character class of each captured group. */
  function Classes(k: LineKind): (ks: seq<CharClass>)
    requires Keyworded(k)
    ensures |ks| == |Captures(k)|
  {
    match k
    case ModelLine(_) => [Alnum]
    case VertexLine(_, _, _) => [NumberChar, NumberChar, NumberChar]
    case FaceLine(_, _, _) => [Digit, Digit, Digit]
    case FrameLine(_) => [Digit]
    case TempLine(_, _) => [Digit, NumberChar]
    case _ => []
  }

  /**
   * What may follow the last field: anything but a line terminator after `end`
   * and `frameend` (`.*$`); anything after `modelend`, `v` and `f` with three
   * fields, which are searched for, as long as it does not lengthen the last
   * field; nothing after the patterns that end in `$`.
   */
  predicate TailFits(k: LineKind, tail: string)
    requires Keyworded(k)
  {
    match k
    case EndLine => AllIn(tail, NotNewline)
    case FrameEndLine => AllIn(tail, NotNewline)
    case ModelEndLine => true
    case VertexLine(_, _, _) => tail == [] || !InClass(tail[0], NumberChar)
    case FaceLine(_, _, _) => tail == [] || !InClass(tail[0], Digit)
    case _ => tail == []
  }

  /**
   * One way of writing a production: white space before the keyword, the
   * keyword in any mix of cases (`icase`), a run of white space before each
   * field, and the text after the last field.
   */
  datatype Spelling = Spelling(lead: string, kw: string, seps: seq<string>, tail: string)

  /** `s` is a spelling the pattern of production `k` accepts. */
  predicate Spells(k: LineKind, s: Spelling) {
    && Keyworded(k) && AllIn(s.lead, Space)
    && |s.kw| == |Keyword(k)| && KeywordAt(s.kw, 0, Keyword(k))
    && |s.seps| == |Captures(k)| && Separators(s.seps) && TailFits(k, s.tail)
  }

  /** The line that writes production `k` as `s` says. */
  function Spell(k: LineKind, s: Spelling): string
    requires Keyworded(k) && |s.seps| == |Captures(k)|
  {
    s.lead + s.kw + Joined(s.seps, Captures(k)) + s.tail
  }

  /** The spelling of `Render`: no leading space, lower case, one space per field, nothing after. */
  function Plain(k: LineKind): Spelling
    requires Keyworded(k)
  {
    Spelling([], Keyword(k), seq(|Captures(k)|, _ => " "), [])
  }

  /** `Render` is one of the accepted spellings. */
  lemma RenderIsPlain(k: LineKind)
    requires Keyworded(k)
    ensures Spells(k, Plain(k)) && Spell(k, Plain(k)) == Render(k)
  {
    var kw, caps := Keyword(k), Captures(k);
    SpacedIsJoined(caps);
    KeywordAtStart(kw, []);
    assert kw + [] == kw;
    assert [] + kw + Spaced(caps) + [] == kw + Spaced(caps);
  }

  /** Past the blank, comment, terminal and `end` checks, the current state's productions decide. */
  lemma ClassifyInState(st: LpState, line: string)
    requires !IsTerminal(st) && !IsBlank(line) && MatchComment(line).None? && !IsEnd(line)
    ensures st == Started ==> Classify(st, line) == StartedKind(line)
    ensures st == ModelStart ==> Classify(st, line) == ModelKind(line)
    ensures st == ModelEnd ==> Classify(st, line) == BetweenFramesKind(line)
    ensures st == FrameStart ==> Classify(st, line) == FrameKind(line)
  {
  }

  /** A line that begins with a keyword other than `end` or `#` passes the common checks. */
  lemma KeywordLineCommon(line: string, c: char)
    requires |line| > 0 && line[0] == c && c != '#' && ToLower(c) != 'e' && !InClass(c, Space)
    ensures !IsBlank(line) && MatchComment(line).None? && !IsEnd(line)
  {
    TrimmedNoLead(line);
    NotKeywordAt(line, 0, "end", 0);
  }

  /**
   * What every pattern sees of a line spelled with lower-case keyword `lkw`:
   * without its leading white space it starts with the keyword and then the
   * separated fields; it is neither blank nor a comment, and it is an `end`
   * line only if the keyword starts with `e`.
   */
  lemma SpelledCommon(line: string, s: Spelling, lkw: string, caps: seq<string>, t: string)
    requires |s.seps| == |caps| && line == s.lead + s.kw + Joined(s.seps, caps) + s.tail
    requires AllIn(s.lead, Space) && Separators(s.seps)
    requires |s.kw| == |lkw| > 0 && KeywordAt(s.kw, 0, lkw) && 'a' <= lkw[0] <= 'z'
    requires t == s.kw + (Joined(s.seps, caps) + s.tail)
    ensures Trimmed(line) == t && KeywordAt(t, 0, lkw)
    ensures |s.kw| <= |t| && t[|s.kw|..] == Joined(s.seps, caps) + s.tail
    ensures |caps| > 0 ==> |s.kw| < |t| && InClass(t[|s.kw|], Space)
    ensures !IsBlank(line) && MatchComment(line).None?
    ensures lkw[0] != 'e' ==> !IsEnd(line)
  {
    SpelledTrim(line, s, lkw, caps, t);
    LetterNotSpace(t[0]);
    if lkw[0] != 'e' {
      NotKeywordAt(t, 0, "end", 0);
    }
  }

  lemma SpelledTrim(line: string, s: Spelling, lkw: string, caps: seq<string>, t: string)
    requires |s.seps| == |caps| && line == s.lead + s.kw + Joined(s.seps, caps) + s.tail
    requires AllIn(s.lead, Space) && Separators(s.seps)
    requires |s.kw| == |lkw| > 0 && KeywordAt(s.kw, 0, lkw) && 'a' <= lkw[0] <= 'z'
    requires t == s.kw + (Joined(s.seps, caps) + s.tail)
    ensures Trimmed(line) == t && KeywordAt(t, 0, lkw)
    ensures |s.kw| <= |t| && t[|s.kw|..] == Joined(s.seps, caps) + s.tail
    ensures |caps| > 0 ==> |s.kw| < |t| && InClass(t[|s.kw|], Space)
  {
    assert line == s.lead + t;
    assert t[0] == s.kw[0];
    LetterNotSpace(t[0]);
    TrimmedIgnoresSpaces(s.lead, t);
    TrimmedNoLead(t);
    forall m | 0 <= m < |lkw|
      ensures ToLower(t[m]) == lkw[m]
    {
      assert t[m] == s.kw[m];
    }
    assert t[|s.kw|..] == Joined(s.seps, caps) + s.tail;
    if |caps| > 0 {
      assert t[|s.kw|] == s.seps[0][0];
    }
  }

  /** Every spelling of `end` ends the parse in a live state. */
  lemma EndSpelled(st: LpState, s: Spelling)
    requires !IsTerminal(st) && Spells(EndLine, s)
    ensures Classify(st, Spell(EndLine, s)) == EndLine
  {
    var t := s.kw + (Joined(s.seps, []) + s.tail);
    SpelledCommon(Spell(EndLine, s), s, "end", [], t);
    assert t[3..] == s.tail;
  }

  /** Every spelling of `model <name>` is read back before any model. */
  lemma ModelSpelled(s: Spelling, name: string)
    requires Spells(ModelLine(name), s) && IsToken(name, Alnum)
    ensures Classify(Started, Spell(ModelLine(name), s)) == ModelLine(name)
  {
    var line := Spell(ModelLine(name), s);
    var t := s.kw + (Joined(s.seps, [name]) + s.tail);
    SpelledCommon(line, s, "model", [name], t);
    ModelSpelledMatches(line, t, s, name);
    ClassifyInState(Started, line);
  }

  lemma ModelSpelledMatches(line: string, t: string, s: Spelling, name: string)
    requires Spells(ModelLine(name), s) && IsToken(name, Alnum)
    requires Trimmed(line) == t && KeywordAt(t, 0, "model")
    requires |s.kw| <= |t| && t[|s.kw|..] == Joined(s.seps, [name]) + s.tail
    ensures MatchModel(line) == Some(name)
  {
    assert FieldsFit([name], [Alnum]);
    FieldsOfJoined(t, |s.kw|, s.seps, [name], [Alnum], s.tail);
  }

  /** Every spelling of `modelend`, whatever follows it, is read back inside a model. */
  lemma ModelEndSpelled(s: Spelling)
    requires Spells(ModelEndLine, s)
    ensures Classify(ModelStart, Spell(ModelEndLine, s)) == ModelEndLine
  {
    var line := Spell(ModelEndLine, s);
    SpelledCommon(line, s, "modelend", [], s.kw + (Joined(s.seps, []) + s.tail));
    ClassifyInState(ModelStart, line);
  }

  /** Every spelling of `v <x> <y> <z>` is read back inside a model. */
  lemma VertexSpelled(s: Spelling, x: string, y: string, z: string)
    requires Spells(VertexLine(x, y, z), s) && WellFormed(VertexLine(x, y, z))
    ensures Classify(ModelStart, Spell(VertexLine(x, y, z), s)) == VertexLine(x, y, z)
  {
    var line := Spell(VertexLine(x, y, z), s);
    var t := s.kw + (Joined(s.seps, [x, y, z]) + s.tail);
    SpelledCommon(line, s, "v", [x, y, z], t);
    VertexSpelledMatches(line, t, s, x, y, z);
    ClassifyInState(ModelStart, line);
  }

  lemma VertexSpelledMatches(line: string, t: string, s: Spelling, x: string, y: string, z: string)
    requires Spells(VertexLine(x, y, z), s) && WellFormed(VertexLine(x, y, z))
    requires Trimmed(line) == t && KeywordAt(t, 0, "v")
    requires |s.kw| <= |t| && t[|s.kw|..] == Joined(s.seps, [x, y, z]) + s.tail
    ensures !IsModelEnd(line) && MatchVertex(line) == Some([x, y, z])
  {
    assert FieldsFit([x, y, z], [NumberChar, NumberChar, NumberChar]);
    FieldsOfJoined(t, |s.kw|, s.seps, [x, y, z], [NumberChar, NumberChar, NumberChar], s.tail);
    NotKeywordAt(t, 0, "modelend", 0);
  }

  /** Every spelling of `f <a> <b> <c>` is read back inside a model, after `modelend` and `v` fail. */
  lemma FaceSpelled(s: Spelling, a: string, b: string, c: string)
    requires Spells(FaceLine(a, b, c), s) && WellFormed(FaceLine(a, b, c))
    ensures Classify(ModelStart, Spell(FaceLine(a, b, c), s)) == FaceLine(a, b, c)
  {
    var line := Spell(FaceLine(a, b, c), s);
    var t := s.kw + (Joined(s.seps, [a, b, c]) + s.tail);
    SpelledCommon(line, s, "f", [a, b, c], t);
    FaceSpelledMatches(line, t, s, a, b, c);
    ClassifyInState(ModelStart, line);
  }

  lemma FaceSpelledMatches(line: string, t: string, s: Spelling, a: string, b: string, c: string)
    requires Spells(FaceLine(a, b, c), s) && WellFormed(FaceLine(a, b, c))
    requires Trimmed(line) == t && KeywordAt(t, 0, "f")
    requires |s.kw| <= |t| && t[|s.kw|..] == Joined(s.seps, [a, b, c]) + s.tail
    ensures !IsModelEnd(line) && MatchVertex(line).None? && MatchFace(line) == Some([a, b, c])
  {
    assert FieldsFit([a, b, c], [Digit, Digit, Digit]);
    FieldsOfJoined(t, |s.kw|, s.seps, [a, b, c], [Digit, Digit, Digit], s.tail);
    NotKeywordAt(t, 0, "modelend", 0);
    NotKeywordAt(t, 0, "v", 0);
  }

  /** Every spelling of `frame <ms>` is read back between frames. */
  lemma FrameSpelled(s: Spelling, ms: string)
    requires Spells(FrameLine(ms), s) && IsToken(ms, Digit)
    ensures Classify(ModelEnd, Spell(FrameLine(ms), s)) == FrameLine(ms)
  {
    var line := Spell(FrameLine(ms), s);
    var t := s.kw + (Joined(s.seps, [ms]) + s.tail);
    SpelledCommon(line, s, "frame", [ms], t);
    FrameSpelledMatches(line, t, s, ms);
    ClassifyInState(ModelEnd, line);
  }

  lemma FrameSpelledMatches(line: string, t: string, s: Spelling, ms: string)
    requires Spells(FrameLine(ms), s) && IsToken(ms, Digit)
    requires Trimmed(line) == t && KeywordAt(t, 0, "frame")
    requires |s.kw| <= |t| && t[|s.kw|..] == Joined(s.seps, [ms]) + s.tail
    ensures MatchFrame(line) == Some(ms)
  {
    assert FieldsFit([ms], [Digit]);
    FieldsOfJoined(t, |s.kw|, s.seps, [ms], [Digit], s.tail);
  }

  /** Every spelling of `frameend` is read back inside a frame. */
  lemma FrameEndSpelled(s: Spelling)
    requires Spells(FrameEndLine, s)
    ensures Classify(FrameStart, Spell(FrameEndLine, s)) == FrameEndLine
  {
    var line := Spell(FrameEndLine, s);
    var t := s.kw + (Joined(s.seps, []) + s.tail);
    SpelledCommon(line, s, "frameend", [], t);
    assert t[8..] == s.tail;
    ClassifyInState(FrameStart, line);
  }

  /** Every spelling of `f <index> <value>` is read back inside a frame, and is not taken for `frameend`. */
  lemma TempSpelled(s: Spelling, index: string, value: string)
    requires Spells(TempLine(index, value), s) && WellFormed(TempLine(index, value))
    ensures Classify(FrameStart, Spell(TempLine(index, value), s)) == TempLine(index, value)
  {
    var line := Spell(TempLine(index, value), s);
    var t := s.kw + (Joined(s.seps, [index, value]) + s.tail);
    SpelledCommon(line, s, "f", [index, value], t);
    TempSpelledMatches(line, t, s, index, value);
    ClassifyInState(FrameStart, line);
  }

  lemma TempSpelledMatches(line: string, t: string, s: Spelling, index: string, value: string)
    requires Spells(TempLine(index, value), s) && WellFormed(TempLine(index, value))
    requires Trimmed(line) == t && KeywordAt(t, 0, "f")
    requires |s.kw| < |t| && InClass(t[|s.kw|], Space)
    requires t[|s.kw|..] == Joined(s.seps, [index, value]) + s.tail
    ensures !IsFrameEnd(line) && MatchTemp(line) == Some([index, value])
  {
    assert FieldsFit([index, value], [Digit, NumberChar]);
    FieldsOfJoined(t, |s.kw|, s.seps, [index, value], [Digit, NumberChar], s.tail);
    assert |s.kw| == 1;
    SpaceAfterF(line, t);
  }

  /** White space right after the `f` of a line rules out `frameend`. */
  lemma SpaceAfterF(line: string, t: string)
    requires Trimmed(line) == t && 1 < |t| && InClass(t[1], Space)
    ensures !IsFrameEnd(line)
  {
    assert ToLower(t[1]) == t[1] != 'r';
    NotKeywordAt(t, 0, "frameend", 1);
  }

  /** Every accepted spelling of a keyword production is read back as it, in a state that accepts it. */
  lemma ClassifySpelling(st: LpState, k: LineKind, s: Spelling)
    requires Spells(k, s) && WellFormed(k) && LegalIn(st, k)
    ensures Classify(st, Spell(k, s)) == k
  {
    match k
    case EndLine => EndSpelled(st, s);
    case ModelLine(name) => ModelSpelled(s, name);
    case ModelEndLine => ModelEndSpelled(s);
    case VertexLine(x, y, z) => VertexSpelled(s, x, y, z);
    case FaceLine(a, b, c) => FaceSpelled(s, a, b, c);
    case FrameLine(ms) => FrameSpelled(s, ms);
    case FrameEndLine => FrameEndSpelled(s);
    case TempLine(index, value) => TempSpelled(s, index, value);
  }

  /**
   * A `#` after white space is a comment in every state, and its text runs up
   * to the first line terminator.
   */
  lemma CommentSpelled(st: LpState, line: string, w: string, text: string, rest: string)
    requires line == w + ("#" + text + rest) && AllIn(w, Space) && AllIn(text, NotNewline)
    requires rest == [] || !InClass(rest[0], NotNewline)
    ensures Classify(st, line) == CommentLine(text)
  {
    var t := "#" + text + rest;
    TrimmedIgnoresSpaces(w, t);
    TrimmedNoLead(t);
    CommentTextRead(t, text, rest);
  }

  lemma CommentTextRead(t: string, text: string, rest: string)
    requires t == "#" + text + rest && AllIn(text, NotNewline)
    requires rest == [] || !InClass(rest[0], NotNewline)
    ensures t[1..RunEnd(t, 1, NotNewline)] == text
  {
    forall m | 1 <= m < 1 + |text|
      ensures InClass(t[m], NotNewline)
    {
      assert t[m] == text[m - 1];
    }
    if 1 + |text| < |t| {
      assert t[1 + |text|] == rest[0];
    }
    RunEndUnique(t, 1, 1 + |text|, NotNewline);
    assert t[1..1 + |text|] == text;
  }

  /** Every production, written canonically, is read back as itself in a state that accepts it. */
  lemma ClassifyRender(st: LpState, k: LineKind)
    requires IsProduction(k) && WellFormed(k) && LegalIn(st, k)
    ensures Classify(st, Render(k)) == k
  {
    if k.CommentLine? {
      CommentSpelled(st, Render(k), [], k.text, []);
    } else if !k.BlankLine? {
      RenderIsPlain(k);
      ClassifySpelling(st, k, Plain(k));
    }
  }

  // ---------------------------------------------------------------------
  // Conversely, every line a pattern accepts is one of its spellings.
  // ---------------------------------------------------------------------

  /**
   * A line whose trimmed text opens with keyword `kw` followed by fields that
   * `Fields` reads is white space, the keyword, the separated fields and the
   * rest of the line, and the rest cannot lengthen the last field.
   */
  lemma SpellingOfFields(line: string, t: string, kw: string, ks: seq<CharClass>, toks: seq<string>, e: nat)
      returns (s: Spelling)
    requires Trimmed(line) == t && KeywordAt(t, 0, kw) && Fields(t, |kw|, ks) == Some((toks, e))
    ensures AllIn(s.lead, Space) && |s.kw| == |kw| && KeywordAt(s.kw, 0, kw)
    ensures |s.seps| == |ks| == |toks| && Separators(s.seps)
    ensures e <= |t| && s.tail == t[e..]
    ensures |ks| > 0 ==> s.tail == [] || !InClass(s.tail[0], ks[|ks| - 1])
    ensures line == s.lead + s.kw + Joined(s.seps, toks) + s.tail
  {
    var seps := JoinedOfFields(t, |kw|, ks, toks, e);
    s := Spelling(line[..|line| - |t|], t[..|kw|], seps, t[e..]);
    KeywordPrefix(t, kw);
    TrimmedInThree(line, t, |kw|, e);
  }

  /** The keyword at the start of a text, cut out of it, is still that keyword. */
  lemma KeywordPrefix(t: string, kw: string)
    requires KeywordAt(t, 0, kw)
    ensures KeywordAt(t[..|kw|], 0, kw)
  {
    forall m | 0 <= m < |kw|
      ensures ToLower(t[..|kw|][m]) == kw[m]
    {
      assert t[..|kw|][m] == t[m];
    }
  }

  /** A line is its leading white space and then its trimmed text, cut in three. */
  lemma TrimmedInThree(line: string, t: string, a: nat, e: nat)
    requires Trimmed(line) == t && a <= e <= |t|
    ensures line == line[..|line| - |t|] + t[..a] + t[a..e] + t[e..]
  {
    assert t == t[..a] + t[a..e] + t[e..];
    assert line == line[..|line| - |t|] + t;
  }

  /**
   * Trimmed text `t` opens with the keyword of production `k`, the groups
   * after it read the captures of `k` and end at `e`, and what follows them
   * fits the pattern; for `v` and `f` with three fields that is whatever
   * cannot lengthen the last field, which the groups already ensure.
   */
  predicate ReadsAs(t: string, k: LineKind, e: nat) {
    && Keyworded(k) && KeywordAt(t, 0, Keyword(k))
    && Fields(t, |Keyword(k)|, Classes(k)) == Some((Captures(k), e))
    && (k.VertexLine? || k.FaceLine? || (e <= |t| && TailFits(k, t[e..])))
  }

  /** A line whose trimmed text reads as a keyword production spells it. */
  lemma MatchedSpelled(line: string, t: string, k: LineKind, e: nat)
    requires Trimmed(line) == t && ReadsAs(t, k, e)
    ensures exists s :: Spells(k, s) && Spell(k, s) == line
  {
    var s := SpellingOfFields(line, t, Keyword(k), Classes(k), Captures(k), e);
    if k.VertexLine? {
      assert Classes(k)[2] == NumberChar;
    } else if k.FaceLine? {
      assert Classes(k)[2] == Digit;
    }
    assert Spells(k, s) && Spell(k, s) == line;
  }

  /** Every line `end_re` matches spells `end`. */
  lemma EndMatchSpelled(line: string)
    requires IsEnd(line)
    ensures exists s :: Spells(EndLine, s) && Spell(EndLine, s) == line
  {
    var t := Trimmed(line);
    assert Fields(t, 3, []) == Some(([], 3));
    assert ReadsAs(t, EndLine, 3);
    MatchedSpelled(line, t, EndLine, 3);
  }

  /** Every line `model_re` matches spells `model` with the captured name. */
  lemma ModelMatchSpelled(line: string, name: string)
    requires MatchModel(line) == Some(name)
    ensures exists s :: Spells(ModelLine(name), s) && Spell(ModelLine(name), s) == line
  {
    var t := Trimmed(line);
    ModelFields(line, t, name);
    MatchedSpelled(line, t, ModelLine(name), |t|);
  }

  lemma ModelFields(line: string, t: string, name: string)
    requires Trimmed(line) == t && MatchModel(line) == Some(name)
    ensures ReadsAs(t, ModelLine(name), |t|)
  {
    var r := Fields(t, 5, [Alnum]);
    assert KeywordAt(t, 0, "model") && r.Some? && r.value.1 == |t| && r.value.0[0] == name;
    assert r.value.0 == [name];
  }

  /** Every line `end_model_re` matches spells `modelend`. */
  lemma ModelEndMatchSpelled(line: string)
    requires IsModelEnd(line)
    ensures exists s :: Spells(ModelEndLine, s) && Spell(ModelEndLine, s) == line
  {
    var t := Trimmed(line);
    assert Fields(t, 8, []) == Some(([], 8));
    assert ReadsAs(t, ModelEndLine, 8);
    MatchedSpelled(line, t, ModelEndLine, 8);
  }

  /** Every line `vertex_re` matches spells `v` with the three captured coordinates. */
  lemma VertexMatchSpelled(line: string, x: string, y: string, z: string)
    requires MatchVertex(line) == Some([x, y, z])
    ensures exists s :: Spells(VertexLine(x, y, z), s) && Spell(VertexLine(x, y, z), s) == line
  {
    var t := Trimmed(line);
    var e := VertexFields(line, t, x, y, z);
    MatchedSpelled(line, t, VertexLine(x, y, z), e);
  }

  lemma VertexFields(line: string, t: string, x: string, y: string, z: string) returns (e: nat)
    requires Trimmed(line) == t && MatchVertex(line) == Some([x, y, z])
    ensures ReadsAs(t, VertexLine(x, y, z), e)
  {
    var r := Fields(t, 1, [NumberChar, NumberChar, NumberChar]);
    assert KeywordAt(t, 0, "v") && r.Some? && r.value.0 == [x, y, z];
    e := r.value.1;
  }

  /** Every line `face_re` matches spells `f` with the three captured indices. */
  lemma FaceMatchSpelled(line: string, a: string, b: string, c: string)
    requires MatchFace(line) == Some([a, b, c])
    ensures exists s :: Spells(FaceLine(a, b, c), s) && Spell(FaceLine(a, b, c), s) == line
  {
    var t := Trimmed(line);
    var e := FaceFields(line, t, a, b, c);
    MatchedSpelled(line, t, FaceLine(a, b, c), e);
  }

  lemma FaceFields(line: string, t: string, a: string, b: string, c: string) returns (e: nat)
    requires Trimmed(line) == t && MatchFace(line) == Some([a, b, c])
    ensures ReadsAs(t, FaceLine(a, b, c), e)
  {
    var r := Fields(t, 1, [Digit, Digit, Digit]);
    assert KeywordAt(t, 0, "f") && r.Some? && r.value.0 == [a, b, c];
    e := r.value.1;
  }

  /** Every line `frame_re` matches spells `frame` with the captured timestamp. */
  lemma FrameMatchSpelled(line: string, ms: string)
    requires MatchFrame(line) == Some(ms)
    ensures exists s :: Spells(FrameLine(ms), s) && Spell(FrameLine(ms), s) == line
  {
    var t := Trimmed(line);
    FrameFields(line, t, ms);
    MatchedSpelled(line, t, FrameLine(ms), |t|);
  }

  lemma FrameFields(line: string, t: string, ms: string)
    requires Trimmed(line) == t && MatchFrame(line) == Some(ms)
    ensures ReadsAs(t, FrameLine(ms), |t|)
  {
    var r := Fields(t, 5, [Digit]);
    assert KeywordAt(t, 0, "frame") && r.Some? && r.value.1 == |t| && r.value.0[0] == ms;
    assert r.value.0 == [ms];
  }

  /** Every line `end_frame_re` matches spells `frameend`. */
  lemma FrameEndMatchSpelled(line: string)
    requires IsFrameEnd(line)
    ensures exists s :: Spells(FrameEndLine, s) && Spell(FrameEndLine, s) == line
  {
    var t := Trimmed(line);
    assert Fields(t, 8, []) == Some(([], 8));
    assert ReadsAs(t, FrameEndLine, 8);
    MatchedSpelled(line, t, FrameEndLine, 8);
  }

  /** Every line `face_temp_re` matches spells `f` with the captured index and value. */
  lemma TempMatchSpelled(line: string, index: string, value: string)
    requires MatchTemp(line) == Some([index, value])
    ensures exists s :: Spells(TempLine(index, value), s) && Spell(TempLine(index, value), s) == line
  {
    var t := Trimmed(line);
    TempFields(line, t, index, value);
    MatchedSpelled(line, t, TempLine(index, value), |t|);
  }

  lemma TempFields(line: string, t: string, index: string, value: string)
    requires Trimmed(line) == t && MatchTemp(line) == Some([index, value])
    ensures ReadsAs(t, TempLine(index, value), |t|)
  {
    var r := Fields(t, 1, [Digit, NumberChar]);
    assert KeywordAt(t, 0, "f") && r.Some? && r.value.0 == [index, value] && r.value.1 == |t|;
  }

  /** Every line classified as a keyword production is one of that production's spellings. */
  lemma ClassifiedIsSpelled(st: LpState, line: string)
    requires Keyworded(Classify(st, line))
    ensures exists s :: Spells(Classify(st, line), s) && Spell(Classify(st, line), s) == line
  {
    if IsEnd(line) {
      EndMatchSpelled(line);
    } else {
      ClassifyInState(st, line);
      match st
      case Started =>
        ModelMatchSpelled(line, MatchModel(line).value);
      case ModelStart =>
        ModelLineSpelled(line);
      case ModelEnd =>
        FrameMatchSpelled(line, MatchFrame(line).value);
      case FrameStart =>
        FrameLineSpelled(line);
    }
  }

  lemma ModelLineSpelled(line: string)
    requires Keyworded(ModelKind(line))
    ensures exists s :: Spells(ModelKind(line), s) && Spell(ModelKind(line), s) == line
  {
    if IsModelEnd(line) {
      ModelEndMatchSpelled(line);
    } else if MatchVertex(line).Some? {
      var v := MatchVertex(line).value;
      assert v == [v[0], v[1], v[2]];
      VertexMatchSpelled(line, v[0], v[1], v[2]);
    } else {
      var f := MatchFace(line).value;
      assert f == [f[0], f[1], f[2]];
      FaceMatchSpelled(line, f[0], f[1], f[2]);
    }
  }

  lemma FrameLineSpelled(line: string)
    requires Keyworded(FrameKind(line))
    ensures exists s :: Spells(FrameKind(line), s) && Spell(FrameKind(line), s) == line
  {
    if IsFrameEnd(line) {
      FrameEndMatchSpelled(line);
    } else {
      var p := MatchTemp(line).value;
      assert p == [p[0], p[1]];
      TempMatchSpelled(line, p[0], p[1]);
    }
  }

  /**
   * A line is read as keyword production `k`, in a state that accepts `k`,
   * exactly when it is one of the spellings of `k`.
   */
  lemma ClassifyIffSpelled(st: LpState, k: LineKind, line: string)
    requires Keyworded(k) && WellFormed(k) && LegalIn(st, k)
    ensures Classify(st, line) == k <==> exists s :: Spells(k, s) && Spell(k, s) == line
  {
    if Classify(st, line) == k {
      ClassifiedIsSpelled(st, line);
    }
    if s :| Spells(k, s) && Spell(k, s) == line {
      ClassifySpelling(st, k, s);
    }
  }

  /** `line` is white space `w`, `#`, terminator-free `text` and then `rest`, empty or at a line terminator. */
  predicate CommentSpells(line: string, w: string, text: string, rest: string) {
    && line == w + ("#" + text + rest) && AllIn(w, Space) && AllIn(text, NotNewline)
    && (rest == [] || !InClass(rest[0], NotNewline))
  }

  /** Every line `comment_re` finds is white space, `#`, the captured text and then a line terminator or nothing. */
  lemma CommentMatchSpelled(line: string, text: string)
    requires MatchComment(line) == Some(text)
    ensures exists w, rest :: CommentSpells(line, w, text, rest)
  {
    var t := Trimmed(line);
    var j := RunEnd(t, 1, NotNewline);
    assert t[0] == '#' && text == t[1..j];
    var w, rest := line[..|line| - |t|], t[j..];
    CommentParts(t, j, text);
    TrimmedSplit(line, t);
    if j < |t| {
      assert rest[0] == t[j];
    }
    assert CommentSpells(line, w, text, rest);
  }

  lemma CommentParts(t: string, j: nat, text: string)
    requires 0 < |t| && t[0] == '#' && 1 <= j <= |t| && text == t[1..j]
    ensures t == "#" + text + t[j..]
  {
    assert t[..1] == "#";
    assert t == t[..1] + t[1..j] + t[j..];
  }

  /** A line is its leading white space and then its trimmed text. */
  lemma TrimmedSplit(line: string, t: string)
    requires Trimmed(line) == t
    ensures line == line[..|line| - |t|] + t
  {
  }

  /** A line is a comment with text `text`, in every state, exactly when it is spelled as one. */
  lemma ClassifyIffComment(st: LpState, line: string, text: string)
    ensures Classify(st, line) == CommentLine(text) <==> exists w, rest :: CommentSpells(line, w, text, rest)
  {
    if Classify(st, line) == CommentLine(text) {
      CommentMatchSpelled(line, text);
    }
    if w, rest :| CommentSpells(line, w, text, rest) {
      CommentSpelled(st, line, w, text, rest);
    }
  }
}
