/**
 * Families of lines and what the model makes of them, each showing a
 * behaviour of `onLine` and `reset` that follows from the code as written.
 */
module Scenarios {
  import opened Wrappers
  import opened Decimal
  import opened Patterns
  import opened Grammar
  import opened Engine

  /**
   * A word before any model section whose first letter, in either case, is
   * neither `e` nor `m` cannot start `model` or `end`, so it is not part of the grammar.
   */
  lemma StrayWord(line: string)
    requires |line| > 0 && 'a' <= ToLower(line[0]) <= 'z' && ToLower(line[0]) != 'e' && ToLower(line[0]) != 'm'
    ensures Classify(Started, line) == Unrecognized
  {
    LetterNotSpace(line[0]);
    KeywordLineCommon(line, line[0]);
    NotKeywordAt(line, 0, "model", 0);
    ClassifyInState(Started, line);
  }

  /**
   * `reset()` after a failure: the parser starts over, yet `getErrorStr()`
   * still holds the diagnostic of the failed run, and it is longer than before.
   */
  lemma ResetKeepsStaleError(p: Session, line: string, h: Hooks)
    requires p.state == Started && p.lineNum < IntMax
    requires |line| > 0 && 'a' <= ToLower(line[0]) <= 'z' && ToLower(line[0]) != 'e' && ToLower(line[0]) != 'm'
    ensures CanStep(p, line)
    ensures var e := Step(p, line, h).next;
      && e.state == Error && ResetOf(e).state == Started
      && ResetOf(e).error == p.error + Diag(UnrecognizedSequence, p.lineNum + 1)
      && |ResetOf(e).error| > |p.error|
  {
    StrayWord(line);
    UnrecognizedFails(p, line, h);
  }

  /**
   * `end` is matched as a prefix: `end` followed by terminator-free text,
   * `endless` or `endgame` among them, ends the parse from every live state.
   */
  lemma EndPrefixFinishes(p: Session, rest: string, h: Hooks)
    requires p.lineNum < IntMax && !IsTerminal(p.state) && AllIn(rest, NotNewline)
    ensures CanStep(p, "end" + rest)
    ensures Step(p, "end" + rest, h).next.state == Finished
  {
    var s := Spelling([], "end", [], rest);
    KeywordAtStart("end", []);
    assert "end" + [] == "end";
    assert Spell(EndLine, s) == "end" + rest;
    EndSpelled(p.state, s);
  }

  /**
   * `end` followed by a line terminator, as `end\r` arrives from a file with
   * CRLF line ends, is not an `end` line, because `.*$` cannot pass the
   * terminator; no production starts with `e` either, so in every live state
   * the line is unrecognized and the parse fails.
   */
  lemma EndBeforeTerminatorFails(p: Session, rest: string, h: Hooks)
    requires p.lineNum < IntMax && !IsTerminal(p.state) && !AllIn(rest, NotNewline)
    ensures !IsEnd("end" + rest) && Classify(p.state, "end" + rest) == Unrecognized
    ensures CanStep(p, "end" + rest) && Step(p, "end" + rest, h).next.state == Error
  {
    var line := "end" + rest;
    assert line[0] == 'e' && ToLower(line[0]) == 'e';
    LetterNotSpace(line[0]);
    TrimmedNoLead(line);
    assert line[3..] == rest;
    KeywordLineNotBlank(line, "end");
    NotKeywordAt(line, 0, "model", 0);
    NotKeywordAt(line, 0, "modelend", 0);
    NotKeywordAt(line, 0, "v", 0);
    NotKeywordAt(line, 0, "f", 0);
    NotKeywordAt(line, 0, "frame", 0);
    NotKeywordAt(line, 0, "frameend", 0);
    ClassifyInState(p.state, line);
    UnrecognizedFails(p, line, h);
  }

  /** A `frame` line needs its timestamp digits: `frame abc` is not a frame. */
  lemma FrameWithoutDigits(line: string)
    requires |line| > 6 && KeywordAt(line, 0, "frame") && line[5] == ' '
    requires !IsDigit(line[6]) && !InClass(line[6], Space)
    ensures Classify(ModelEnd, line) == Unrecognized
  {
    assert ToLower(line[0]) == "frame"[0] == 'f';
    LetterNotSpace(line[0]);
    KeywordLineCommon(line, line[0]);
    TrimmedNoLead(line);
    RunEndUnique(line, 5, 6, Space);
    RunEndUnique(line, 6, 6, Digit);
    assert SpacedToken(line, 5, Digit).None?;
    ClassifyInState(ModelEnd, line);
  }
}
