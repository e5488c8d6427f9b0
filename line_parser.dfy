/**
 * The class `LineParser` (LineParser.h:11-58, LineParser.cpp): its fields are
 * updated in place by `onLine` and `reset`. Each method is proved to do what
 * `Engine.Step` and `Engine.ResetOf` say of the fields.
 */
module LineParser {
  import opened Wrappers
  import opened Decimal
  import opened Patterns
  import opened Grammar
  import opened Engine

  class LineParser {
    var state: LpState
    var vertices: seq<string>
    var faces: seq<nat>
    var name: string
    var lineNum: nat
    var error: string
    var timestamp: nat
    var temps: seq<Temp>

    /** The fields as a value. */
    function Snapshot(): Session
      reads this
    {
      Session(state, vertices, faces, name, lineNum, error, timestamp, temps)
    }

    ghost predicate Valid()
      reads this
    {
      Inv(Snapshot())
    }

    /**
     * `LineParser()`: started, with no lines read, empty buffers and no
     * diagnostic. `timestamp` has no initialiser, so it is any `unsigned long`.
     */
    constructor ()
      ensures Valid() && Snapshot() == Fresh(timestamp)
    {
      state := Started;
      vertices := [];
      faces := [];
      name := [];
      lineNum := 0;
      error := [];
      temps := [];
      var ts: nat :| ts <= ULongMax;
      timestamp := ts;
    }

    /**
     * `onLine(line)`, calling the hooks `h`: the patterns are tried in the
     * order of the source and each branch updates the fields in place.
     */
    method OnLine(line: string, h: Hooks) returns (r: int)
      requires Valid() && CanStep(Snapshot(), line)
      modifies this
      ensures Valid()
      ensures Snapshot() == Step(old(Snapshot()), line, h).next
      ensures r == Step(old(Snapshot()), line, h).result
    {
      ghost var p := Snapshot();
      ghost var k := Classify(p.state, line);
      StepPreservesInv(p, line, h);
      assert Step(p, line, h) == Act(p, k, h);
      lineNum := lineNum + 1;

      if IsBlank(line) {
        assert k == BlankLine;
        return 0;
      }

      var comment := MatchComment(line);
      if comment.Some? {
        assert k == CommentLine(comment.value);
        r := h.onComment(comment.value);
        return;
      }

      if state == Finished {
        assert k == LateLine;
        error := error + AlreadyCompleted;
        return 1;
      }

      if state == Error {
        assert k == LateLine;
        error := error + AlreadyFailed;
        return 1;
      }

      if IsEnd(line) {
        assert k == EndLine;
        state := Finished;
        return 1;
      }

      r := InLiveState(line, h, p);
    }

    /**
     * The rest of `onLine` for a live state: the block of the current state,
     * which ends in the shared failure for a line that no block takes.
     */
    method InLiveState(line: string, h: Hooks, ghost p: Session) returns (r: int)
      requires !IsTerminal(p.state) && CanStep(p, line) && Snapshot() == p.(lineNum := p.lineNum + 1)
      requires !IsBlank(line) && MatchComment(line).None? && !IsEnd(line)
      modifies this
      ensures Snapshot() == Step(p, line, h).next && r == Step(p, line, h).result
    {
      ClassifyInState(p.state, line);
      if state == Started {
        r := InStarted(line, h, p);
      } else if state == ModelStart {
        r := InModel(line, h, p);
      } else if state == ModelEnd {
        r := BetweenFrames(line, h, p);
      } else {
        r := InFrame(line, h, p);
      }
    }

    /** The end of `onLine`, reached by a line that no block of the state takes. */
    method FailUnrecognized()
      modifies this
      ensures Snapshot() == Fail(old(Snapshot()), UnrecognizedSequence)
    {
      error := error + Diag(UnrecognizedSequence, lineNum);
      state := Error;
    }

    /** The `LP_STARTED` block of `onLine` (a `model` line); `p` is the fields before the call. */
    method InStarted(line: string, h: Hooks, ghost p: Session) returns (r: int)
      requires p.state == Started && p.lineNum < IntMax && Snapshot() == p.(lineNum := p.lineNum + 1)
      modifies this
      ensures Snapshot() == Act(p, StartedKind(line), h).next && r == Act(p, StartedKind(line), h).result
    {
      var model := MatchModel(line);
      if model.Some? {
        name := model.value;
        if h.onModelStart(name) == 0 {
          state := ModelStart;
          return 0;
        } else {
          error := error + Diag(ModelStartFailed, lineNum);
          state := Error;
          return 1;
        }
      }
      FailUnrecognized();
      return 1;
    }

    /**
     * The `LP_MODEL_START` block of `onLine` (`modelend`, a vertex, a face); a
     * line it does not take empties both buffers before it falls through.
     */
    method InModel(line: string, h: Hooks, ghost p: Session) returns (r: int)
      requires p.state == ModelStart && p.lineNum < IntMax && Snapshot() == p.(lineNum := p.lineNum + 1)
      requires Convertible(ModelKind(line))
      modifies this
      ensures Snapshot() == Act(p, ModelKind(line), h).next && r == Act(p, ModelKind(line), h).result
    {
      ghost var k := ModelKind(line);
      if IsModelEnd(line) {
        r := CloseModel(h, p);
        return;
      }

      var vertex := MatchVertex(line);
      if vertex.Some? {
        assert k == VertexLine(vertex.value[0], vertex.value[1], vertex.value[2]);
        r := AppendVertex(vertex.value, h, p);
        return;
      }

      var face := MatchFace(line);
      if face.Some? {
        assert k == FaceLine(face.value[0], face.value[1], face.value[2]);
        r := AppendFace(face.value, h, p);
        return;
      }

      assert k == Unrecognized;
      faces := [];
      vertices := [];
      FailUnrecognized();
      return 1;
    }

    /** The vertex branch of the `LP_MODEL_START` block: the three coordinates are pushed in order. */
    method AppendVertex(v: seq<string>, h: Hooks, ghost p: Session) returns (r: int)
      requires |v| == 3 && Convertible(VertexLine(v[0], v[1], v[2]))
      requires p.state == ModelStart && p.lineNum < IntMax && Snapshot() == p.(lineNum := p.lineNum + 1)
      modifies this
      ensures Snapshot() == Act(p, VertexLine(v[0], v[1], v[2]), h).next && r == Act(p, VertexLine(v[0], v[1], v[2]), h).result
    {
      vertices := vertices + v;
      assert v == [v[0], v[1], v[2]];
      return 0;
    }

    /** The face branch of the `LP_MODEL_START` block: the three vertex numbers are pushed in order. */
    method AppendFace(f: seq<string>, h: Hooks, ghost p: Session) returns (r: int)
      requires |f| == 3 && Convertible(FaceLine(f[0], f[1], f[2]))
      requires p.state == ModelStart && p.lineNum < IntMax && Snapshot() == p.(lineNum := p.lineNum + 1)
      modifies this
      ensures Snapshot() == Act(p, FaceLine(f[0], f[1], f[2]), h).next && r == Act(p, FaceLine(f[0], f[1], f[2]), h).result
    {
      faces := faces + [DigitsValue(f[0]), DigitsValue(f[1]), DigitsValue(f[2])];
      return 0;
    }

    /** The `modelend` branch of the `LP_MODEL_START` block: both buffers are emptied whatever the hook answers. */
    method CloseModel(h: Hooks, ghost p: Session) returns (r: int)
      requires p.state == ModelStart && p.lineNum < IntMax && Snapshot() == p.(lineNum := p.lineNum + 1)
      modifies this
      ensures Snapshot() == Act(p, ModelEndLine, h).next && r == Act(p, ModelEndLine, h).result
    {
      if h.onModelEnd(name, vertices, faces) == 0 {
        vertices := [];
        faces := [];
        state := ModelEnd;
        return 0;
      } else {
        vertices := [];
        faces := [];
        error := error + Diag(ModelEndFailed, lineNum);
        state := Error;
        return 1;
      }
    }

    /** The `LP_MODEL_END` block of `onLine` (a `frame` line). */
    method BetweenFrames(line: string, h: Hooks, ghost p: Session) returns (r: int)
      requires p.state == ModelEnd && p.lineNum < IntMax && Snapshot() == p.(lineNum := p.lineNum + 1)
      requires Convertible(BetweenFramesKind(line))
      modifies this
      ensures Snapshot() == Act(p, BetweenFramesKind(line), h).next
      ensures r == Act(p, BetweenFramesKind(line), h).result
    {
      var frame := MatchFrame(line);
      if frame.Some? {
        assert BetweenFramesKind(line) == FrameLine(frame.value);
        timestamp := DigitsValue(frame.value);
        temps := [];
        if h.onFrameStart(timestamp) != 0 {
          error := error + Diag(FrameStartFailed, lineNum);
          state := Error;
          return 1;
        } else {
          state := FrameStart;
          return 0;
        }
      }
      assert BetweenFramesKind(line) == Unrecognized;
      FailUnrecognized();
      return 1;
    }

    /** The `LP_FRAME_START` block of `onLine` (`frameend`, a temperature). */
    method InFrame(line: string, h: Hooks, ghost p: Session) returns (r: int)
      requires p.state == FrameStart && p.lineNum < IntMax && Snapshot() == p.(lineNum := p.lineNum + 1)
      requires Convertible(FrameKind(line))
      modifies this
      ensures Snapshot() == Act(p, FrameKind(line), h).next && r == Act(p, FrameKind(line), h).result
    {
      if IsFrameEnd(line) {
        if h.onFrameEnd(timestamp, temps) == 0 {
          temps := [];
          state := ModelEnd;
          return 0;
        } else {
          temps := [];
          error := error + Diag(FrameEndFailed, lineNum);
          state := Error;
          return 1;
        }
      }
      var temp := MatchTemp(line);
      if temp.Some? {
        var vn := DigitsValue(temp.value[0]);
        temps := temps + [Temp(vn, temp.value[1])];
        return 0;
      }
      FailUnrecognized();
      return 1;
    }

    /** `isError()`: whether the parse has failed. */
    method IsError() returns (b: bool)
      ensures b <==> state == Error
    {
      return state == Error;
    }

    /** `getErrorStr()`: every message written since construction. */
    method GetErrorStr() returns (s: string)
      ensures s == error
    {
      return error;
    }

    /**
     * `reset()`: the line counter, the buffers and the state start over;
     * the diagnostic text, the name and the timestamp stay.
     */
    method Reset()
      requires Valid()
      modifies this
      ensures Valid()
      ensures Snapshot() == ResetOf(old(Snapshot()))
    {
      lineNum := 0;
      vertices := [];
      faces := [];
      state := Started;
      temps := [];
    }
  }
}
