# LineParser in Dafny

A model of `LineParser`, the C++ class that reads a line-oriented text
format describing 3-D models and temperature frames. The format looks like this:

```
# comment
model cube
v 0 0 0
v 1 0 0
f 1 2 3
modelend
frame 1000
f 1 36.6
frameend
end
```

The class is fed one line at a time through `onLine`. It keeps the six-state
machine `lpState` (`LP_STARTED`, `LP_MODEL_START`, `LP_MODEL_END`,
`LP_FRAME_START`, `LP_FINISHED`, `LP_ERROR`). It buffers the vertices and faces
of the current model and the temperatures of the current frame, and it hands
them to virtual hooks that a subclass may override. It accumulates a
diagnostic text in a `stringstream`. It returns 1 once the parse is finished
or has failed and 0 to go on, except on a comment line, where it returns
whatever `onComment` answers.

The project has six modules:

- `Decimal`: how `stoi` and `stoul` read digit runs, the widths of `int` and
  `unsigned long`, and how `operator<<` prints a line number.
- `Patterns`: the ten regular expressions of the constructor, each as a
  recogniser over a line. `\s` is the C-locale white space and `.` is any
  character but a line terminator. A search anchored by `^` is the same as a
  match of the prefix. Every pattern compiled with `icase` compares its
  keyword case-insensitively.
- `Grammar`: the states, the kind of a line in a state (tried in the order of
  `onLine`), what the conversions accept, every spelling of each production
  that its pattern accepts, the proofs that each spelling is read back as
  the production, and the converse: every line read as a production is one of
  its spellings.
- `Engine`: `onLine` as a function `Step` from the old fields, the line and
  the hooks' answers to the new fields, the return value and the hook calls.
  It also holds the invariant of the fields, the properties of one call and
  of a sequence of calls, and `reset`.
- `LineParser`: the class itself. Its fields are updated in place, and each
  method is proved to do what `Engine` says.
- `Scenarios`: families of lines that show particular behaviours of the code
  as written.

The hooks are a value `Hooks` of five functions. `DefaultHooks` is the base
class, where every hook returns 0.

Where the code departs from what the format intends, the model follows
the code:

- `reset()` keeps the diagnostic text. `error.clear()` clears only the
  stream's state flags. See Findings.
- After a failure, every further line that is not blank or a comment appends
  `Parsing failed` to the text. Likewise, every line after `end` appends
  `Parsing already completed`.
- `end` and `frameend` are matched as prefixes, so `endless` ends the parse.
  `modelend` is searched without an end anchor, so `modelend junk` ends the
  model.
- `face_re` and `vertex_re` have no end anchor, so text after the third field
  is ignored. `model_re`, `frame_re` and `face_temp_re` require the line to
  end after their last field.
- An exception thrown by `stof`, `stoi` or `stoul` leaves `onLine` in the
  code. It is not turned into a diagnostic.

## Model

| member | source | states |
|---|---|---|
| Decimal.DigitsValue | LineParser.cpp:114-116 | a run of `n` digits read by `stoi` or `stoul` is worth less than ten to the `n`, leading zeros included |
| Decimal.DigitsBelow | LineParser.cpp:114-116 | a run of at most `n` digits stays below ten to the `n`, so a short enough run can never overflow |
| Decimal.NatToString | LineParser.cpp:64 | `operator<<` prints a line number as a non-empty digit run with no leading zero |
| Decimal.NatToStringRoundTrip | LineParser.cpp:64 | the decimal numeral printed for a line number reads back as that number |
| Decimal.NatToStringInjective | LineParser.cpp:64 | two different line numbers never print alike |
| Patterns.TrimmedIgnoresSpaces | LineParser.cpp:5-14 | every pattern starts with `^\s{0,}`, so leading white space is skipped alike however much there is |
| Patterns.SpacedIsJoined | LineParser.cpp:10-12 | a line written with one space before each field is one of the spellings with white-space separators |
| Patterns.FieldsOfJoined | LineParser.cpp:10-12 | the groups `\s+(k+)` read back exactly the fields of a line written with any non-empty white-space run before each field, whatever follows outside the last field's class |
| Patterns.JoinedOfFields | LineParser.cpp:10-12 | conversely, whatever the groups `\s+(k+)` read is the captured fields, each after a non-empty white-space run, and what follows cannot lengthen the last field |
| Patterns.MatchComment | LineParser.cpp:5 | the captured comment text holds no line terminator |
| Patterns.MatchModel | LineParser.cpp:6 | the captured name is a non-empty alphanumeric run that ends the line |
| Patterns.IsModelEnd | LineParser.cpp:7 | a `modelend` line is never blank, a comment or an `end` line, so the checks before the model block never take it |
| Patterns.MatchFrame | LineParser.cpp:8 | the captured timestamp is a non-empty digit run |
| Patterns.IsFrameEnd | LineParser.cpp:9 | a `frameend` line is never blank, a comment or an `end` line, so the checks before the frame block never take it |
| Patterns.MatchFace | LineParser.cpp:10 | a match captures exactly three non-empty digit runs |
| Patterns.MatchVertex | LineParser.cpp:11 | a match captures exactly three non-empty runs of `[0-9\-\.]` |
| Patterns.MatchTemp | LineParser.cpp:12 | the two captures are a digit run and a run of `[0-9\-\.]` |
| Patterns.IsBlank | LineParser.cpp:13 | `empty_re` matches exactly the lines made only of white space |
| Patterns.IsEnd | LineParser.cpp:14 | an `end` line is never blank or a comment, so the checks before the `end` check never take it |
| Grammar.Classify | LineParser.cpp:26-173 | the kind `onLine` gives a line is one the current state accepts, and its captures lie in their patterns' classes |
| Grammar.StartedKind | LineParser.cpp:57-69 | in `LP_STARTED` a line is a model line with an alphanumeric name or is unrecognized |
| Grammar.ModelKind | LineParser.cpp:72-122 | in `LP_MODEL_START` a line is `modelend`, a vertex with three number runs, a face with three digit runs, or unrecognized |
| Grammar.BetweenFramesKind | LineParser.cpp:124-142 | in `LP_MODEL_END` a line is a frame line with a digit-run timestamp or is unrecognized |
| Grammar.FrameKind | LineParser.cpp:144-168 | in `LP_FRAME_START` a line is `frameend`, a temperature with a digit run and a number run, or unrecognized |
| Grammar.KindsByTrimmed | LineParser.cpp:5-14 | each pattern looks only at the line with its leading white space removed, so two lines that agree there are read alike by every pattern |
| Grammar.ClassifyByTrimmed | LineParser.cpp:26-173 | two lines that agree once their leading white space is removed get the same kind in every state |
| Grammar.ClassifyIgnoresLeadingSpace | LineParser.cpp:5-14 | indenting a line never changes how it is treated |
| Grammar.StofAccepts | LineParser.cpp:99-101 | `stof` reads a field that starts with a digit, out-of-range values aside, and throws on a field without any digit |
| Grammar.StoiAccepts | LineParser.cpp:114-116 | `stoi` reads every digit run of at most nine digits, and whatever it reads `stoul` reads too |
| Grammar.StoulAccepts | LineParser.cpp:131 | `stoul` reads every digit run of at most nineteen digits |
| Grammar.Convertible | LineParser.cpp:57-168 | only vertex, face, frame and temperature lines call a conversion; every other line converts nothing and cannot throw |
| Grammar.ClassifyInState | LineParser.cpp:57-168 | past the blank, comment, terminal and `end` checks, only the current state's block decides |
| Grammar.RenderIsPlain | LineParser.cpp:5-14 | the canonical text of a production is one of its accepted spellings |
| Grammar.ClassifySpelling | LineParser.cpp:26-173 | every production, in any spelling its pattern accepts (leading white space, keyword in any case, any white-space separators, any trailing text the pattern allows), is read back as itself in a state that accepts it |
| Grammar.ClassifyRender | LineParser.cpp:5-14 | every production, written canonically, is read back as itself in a state that accepts it |
| Grammar.EndSpelled | LineParser.cpp:52 | `end` in any case, indented, followed by any text without a line terminator, is an `end` line in every live state |
| Grammar.ModelSpelled | LineParser.cpp:57-58 | `model <name>` in any case and spacing is read back with its name before any model |
| Grammar.ModelEndSpelled | LineParser.cpp:75 | `modelend` in any case, followed by any text, is read back inside a model and is not taken for `end` |
| Grammar.VertexSpelled | LineParser.cpp:91 | `v <x> <y> <z>` in any case and spacing, with any trailing text that does not extend the last field, is read back with its three coordinates inside a model |
| Grammar.FaceSpelled | LineParser.cpp:106 | `f <a> <b> <c>` in any case and spacing, with any trailing text that does not extend the last field, is read back inside a model, after the `modelend` and `v` patterns fail |
| Grammar.FrameSpelled | LineParser.cpp:125 | `frame <ms>` in any case and spacing is read back with its timestamp between frames |
| Grammar.FrameEndSpelled | LineParser.cpp:145 | `frameend` in any case, followed by any text without a line terminator, is read back inside a frame and is not taken for `end` |
| Grammar.TempSpelled | LineParser.cpp:157 | `f <index> <value>` in any case and spacing is read back inside a frame and is not taken for `frameend` |
| Grammar.CommentSpelled | LineParser.cpp:36-37 | `#<text>`, however indented, and whether or not a line terminator and more text follow it, is read back as a comment carrying exactly `text`, in every state |
| Grammar.SpellingOfFields | LineParser.cpp:5-14 | a line whose trimmed text opens with a keyword followed by fields the groups read is leading white space, the keyword in some case, a white-space run and a field per group, and a rest that cannot lengthen the last field |
| Grammar.MatchedSpelled | LineParser.cpp:5-14 | a keyword production whose keyword and fields are read from a line, with a rest its pattern allows, is spelled by that line |
| Grammar.EndMatchSpelled | LineParser.cpp:14 | every line `end_re` matches is a spelling of `end` |
| Grammar.ModelMatchSpelled | LineParser.cpp:6 | every line `model_re` matches is a spelling of `model` with the captured name |
| Grammar.ModelEndMatchSpelled | LineParser.cpp:7 | every line `end_model_re` finds is a spelling of `modelend` |
| Grammar.FrameMatchSpelled | LineParser.cpp:8 | every line `frame_re` matches is a spelling of `frame` with the captured timestamp |
| Grammar.FrameEndMatchSpelled | LineParser.cpp:9 | every line `end_frame_re` matches is a spelling of `frameend` |
| Grammar.FaceMatchSpelled | LineParser.cpp:10 | every line `face_re` finds is a spelling of `f` with the three captured indices, its rest unable to lengthen the last one |
| Grammar.VertexMatchSpelled | LineParser.cpp:11 | every line `vertex_re` finds is a spelling of `v` with the three captured coordinates, its rest unable to lengthen the last one |
| Grammar.TempMatchSpelled | LineParser.cpp:12 | every line `face_temp_re` matches is a spelling of `f` with the captured index and value |
| Grammar.ClassifiedIsSpelled | LineParser.cpp:26-173 | every line that `onLine` reads as a keyword production, in any state, is one of that production's spellings |
| Grammar.ModelLineSpelled | LineParser.cpp:72-122 | every line read as `modelend`, a vertex or a face inside a model is one of that production's spellings |
| Grammar.FrameLineSpelled | LineParser.cpp:144-168 | every line read as `frameend` or a temperature inside a frame is one of that production's spellings |
| Grammar.ClassifyIffSpelled | LineParser.cpp:26-173 | in a state that accepts keyword production `k`, a line is read as `k` if and only if it is one of the spellings of `k` |
| Grammar.CommentMatchSpelled | LineParser.cpp:5 | every line `comment_re` finds is white space, `#`, the captured text and then nothing or a line terminator |
| Grammar.ClassifyIffComment | LineParser.cpp:36-37 | in every state a line is a comment with text `text` if and only if it is white space, `#`, `text` without a line terminator, and then nothing or a line terminator |
| Engine.DiagCitesLine | LineParser.cpp:170 | a diagnostic is the message, ` @ line #` and a numeral that reads back as the line number |
| Engine.Fail | LineParser.cpp:170-172 | failing sets `LP_ERROR`, appends the message with the current line number and changes nothing else |
| Engine.Fresh | LineParser.cpp:3-15 | a new parser is started, on line 0, with empty buffers, an empty name and an empty diagnostic |
| Engine.Step | LineParser.cpp:26-173 | each call counts one line, only appends to the diagnostic, and calls at most one hook |
| Engine.Act | LineParser.cpp:27-172 | the same, once the kind of the line is known |
| Engine.FreshInv | LineParser.cpp:3-15 | a new parser satisfies the invariant of the fields |
| Engine.ActPreservesInv | LineParser.cpp:27-172 | every kind of line a state accepts keeps the invariant: whole vertices and faces, buffers empty outside their sections, a diagnostic once failed, numbers within their C++ types |
| Engine.AppendPreservesInv | LineParser.cpp:99-116 | the appending branches keep the invariant |
| Engine.HookedActPreservesInv | LineParser.cpp:57-156 | the branches that call a section hook keep the invariant, whatever the hook answers |
| Engine.StepPreservesInv | LineParser.cpp:26-173 | `onLine` keeps the invariant whatever the hooks answer |
| Engine.BlankLineInert | LineParser.cpp:31-33 | a white-space line changes only the line counter and returns 0, in every state |
| Engine.CommentLineInert | LineParser.cpp:36-39 | every line `comment_re` matches, in every state, changes only the line counter, calls `onComment` with the captured text and returns the hook's answer |
| Engine.TerminalAbsorbing | LineParser.cpp:42-50 | once finished or failed, every other line keeps the state, appends the matching message, touches nothing else and returns 1 |
| Engine.ResultSignalsTerminal | LineParser.cpp:26-173 | for a line that is neither blank nor a comment, the result is 0 or 1, and 1 exactly when the new state is finished or failed |
| Engine.EndFinishes | LineParser.cpp:52-55 | `end` in a live state finishes the parse, keeps everything else and returns 1 |
| Engine.StepFollowsEdges | LineParser.cpp:26-173 | each call stays in its state or follows one transition of the state machine |
| Engine.ModelOnlyFromStarted | LineParser.cpp:57-69 | a model is entered exactly when the parser is started, the line is `model <name>` and `onModelStart` answers 0; the name is then recorded |
| Engine.UnrecognizedFails | LineParser.cpp:120-172 | a line no block takes fails the parse with `Unrecognized sequence` and the line number, returns 1, and inside a model empties both buffers |
| Engine.VertexAppends | LineParser.cpp:91-103 | every line read as a vertex inside a model appends exactly its three coordinates, returns 0 and changes nothing else |
| Engine.FaceAppends | LineParser.cpp:106-118 | every line read as a face inside a model appends exactly its three vertex numbers, returns 0 and changes nothing else |
| Engine.TempAppends | LineParser.cpp:157-167 | every line read as a temperature inside a frame appends exactly one pair, returns 0 and changes nothing else |
| Engine.ModelEndClears | LineParser.cpp:75-88 | `modelend` hands the name and both buffers to `onModelEnd` and empties the buffers whatever it answers; only a zero answer ends the model, any other fails with the line number |
| Engine.FrameStartClears | LineParser.cpp:125-141 | `frame <ms>` sets the timestamp and empties the temperatures before it calls `onFrameStart`; only a zero answer enters the frame |
| Engine.FrameEndClears | LineParser.cpp:145-156 | `frameend` hands the timestamp and temperatures to `onFrameEnd` and empties them whatever it answers; only a zero answer closes the frame |
| Engine.FailureCitesLine | LineParser.cpp:26-173 | every failure from a live state appends one of the five line-numbered messages with the number of the failing line |
| Engine.HooksOnlyThroughAnswers | LineParser.h:53-57 | which hooks are called does not depend on the hooks, and hooks that answer those calls alike give the same outcome |
| Engine.DefaultHooksAnswerZero | LineParser.cpp:175-213 | every hook of the base class returns 0 to every call |
| Engine.DefaultHooksFailOnlyOnSyntax | LineParser.cpp:175-213 | with the base-class hooks, only an unrecognized line, or a line after a failure, leaves the parser failed |
| Engine.Run | LineParser.h:47 | feeding lines one by one gives one result per line, counts every line and only appends to the diagnostic |
| Engine.RunPreservesInv | LineParser.cpp:26-173 | the invariant holds after any sequence of lines |
| Engine.StepCallsWhole | LineParser.cpp:184-185 | `onModelEnd` receives whole vertices and faces (multiples of three), and `onFrameEnd` in-range vertex numbers |
| Engine.RunCallsWhole | LineParser.cpp:184-185 | the same for every hook call over any sequence of lines |
| Engine.RunStaysTerminal | LineParser.cpp:42-50 | once finished or failed, the parser stays so, with vertices, faces and temperatures untouched, and every line that is neither blank nor a comment returns 1, however many lines follow |
| Engine.ResetOf | LineParser.cpp:197-204 | `reset` restarts the state, the line counter and the three buffers, and keeps the diagnostic, the name and the timestamp |
| Engine.StepAgree | LineParser.cpp:26-173 | fields that differ only in an error-text prefix, or in fields not read before they are set again, behave alike on a line |
| Engine.RunAgree | LineParser.cpp:26-173 | the same over any sequence of lines |
| Engine.ResetLikeFresh | LineParser.cpp:197-204 | after `reset`, every sequence of lines gives the results, hook calls and final state of a new parser, with the old diagnostic in front of the new |
| Engine.ResetCleared | LineParser.cpp:202 | `reset` with the diagnostic emptied as well |
| Engine.ResetClearedLikeFresh | LineParser.cpp:202 | with the diagnostic emptied, a reset parser is indistinguishable from a new one, error text included |
| LineParser.LineParser.constructor | LineParser.cpp:3-15 | the new object's fields are a fresh parser's, with any `unsigned long` timestamp, and satisfy the invariant |
| LineParser.LineParser.OnLine | LineParser.cpp:26-173 | the fields become exactly `Step`'s new fields, the result is `Step`'s result, and the invariant is kept |
| LineParser.LineParser.InLiveState | LineParser.cpp:57-172 | in a live state, the state's block and the final failure do what `Step` says |
| LineParser.LineParser.InStarted | LineParser.cpp:57-69 | the `LP_STARTED` block, followed by the final failure, does what `Act` says |
| LineParser.LineParser.InModel | LineParser.cpp:72-122 | the `LP_MODEL_START` block, followed by the final failure, does what `Act` says |
| LineParser.LineParser.AppendVertex | LineParser.cpp:99-102 | the vertex branch pushes the three coordinates in order, returns 0 and does what `Act` says |
| LineParser.LineParser.AppendFace | LineParser.cpp:114-117 | the face branch pushes the three vertex numbers in order, returns 0 and does what `Act` says |
| LineParser.LineParser.CloseModel | LineParser.cpp:76-87 | the `modelend` branch does what `Act` says |
| LineParser.LineParser.BetweenFrames | LineParser.cpp:124-142 | the `LP_MODEL_END` block, followed by the final failure, does what `Act` says |
| LineParser.LineParser.InFrame | LineParser.cpp:144-168 | the `LP_FRAME_START` block, followed by the final failure, does what `Act` says |
| LineParser.LineParser.FailUnrecognized | LineParser.cpp:170-171 | the final failure enters `LP_ERROR` with `Unrecognized sequence` and the line number |
| LineParser.LineParser.IsError | LineParser.cpp:189-191 | true exactly when the state is `LP_ERROR` |
| LineParser.LineParser.GetErrorStr | LineParser.cpp:193-195 | the whole accumulated diagnostic text |
| LineParser.LineParser.Reset | LineParser.cpp:197-204 | the fields become `ResetOf` of the old ones, and the invariant is kept |
| Scenarios.StrayWord | LineParser.cpp:57-69 | before any model, a line whose first character is a letter other than `e` or `m` (in either case) is unrecognized |
| Scenarios.ResetKeepsStaleError | LineParser.cpp:197-204 | after such a failure and `reset`, the parser is started again, yet its diagnostic is longer than before the failure |
| Scenarios.EndPrefixFinishes | LineParser.cpp:14 | `end` followed by any text without a line terminator, such as `endless`, finishes the parse from every live state |
| Scenarios.EndBeforeTerminatorFails | LineParser.cpp:14 | `end` followed by text holding a line terminator, such as `end\r` from a CRLF file, is not an `end` line; in every live state it is unrecognized and the parse fails |
| Scenarios.FrameWithoutDigits | LineParser.cpp:8 | `frame` followed by a space and then a character that is neither a digit nor white space, such as `frame abc`, is not a frame line |

## Left out

- `main.cpp` is not part of this model. It reads a file and prints.
- Console output of the default hooks (`cout` in `onModelStart`, `onModelEnd`
  and `onFrameEnd`) is left out. Only their return value 0 is modelled.
- Coordinates and temperatures are kept as the whole token the pattern
  captured, not as `float`, because floating point is out of scope. `stof`
  reads only the longest prefix that is a number, so `1-2` is read as 1; the
  model keeps `1-2`.
- Grammar.StofAccepts: does not exclude fields whose value is out of the range of `float`, such as a run of 40 digits, for which `stof` throws `out_of_range`; the predicate treats every field that starts with a digit as read.
- Engine.Step: requires that no `stof`, `stoi` or `stoul` call on the line
  throws (`Convertible`). A `stof` out-of-range error is not modelled at all.
  The code lets such exceptions leave `onLine`. It also requires `lineNum`
  to stay below 2^31 - 1, because the increment at LineParser.cpp:27 would
  overflow a signed `int`, which is undefined in C++.
- LineParser.LineParser.OnLine: has exactly the precondition of
  `Engine.Step`, conversions and `lineNum < 2^31 - 1` included.
- The hooks are total functions of their arguments. A subclass hook that
  mutates the vectors it gets by reference, or that changes the `name` that
  `onModelStart` and `onModelEnd` receive by non-const reference
  (LineParser.h:54-55), or that calls back into the parser, is not modelled.
- The three `push_back` calls for a vertex or a face are one append in the
  model. Their combined effect on the buffer is the same.
- The branches on `match.size()` (LineParser.cpp:92-98, 107-113, 126-130,
  158-162) are left out. A successful match always has one group per
  parenthesis, so they cannot be taken.
- The destructor (LineParser.cpp:17-24) is left out. It only clears the
  vectors.
- The class's `Reset` keeps the stale diagnostic, as the code does. The
  corrected reset is the separate function `Engine.ResetCleared`.

## Findings

| source | as written | input that shows it | evidently intended | confidence | as-written member | corrected member |
|---|---|---|---|---|---|---|
| LineParser.cpp:202 | `error.clear()` resets only the `stringstream`'s state flags, so `reset()` keeps the accumulated diagnostic text | a started parser fed the line `x` (unrecognized), then `reset()`: `getErrorStr()` still returns `Unrecognized sequence @ line #1`, and `isError()` is false | `reset()` empties the diagnostic, like every other part of the parse state, so that a reset parser is a new one | not executed | Scenarios.ResetKeepsStaleError | Engine.ResetClearedLikeFresh |
