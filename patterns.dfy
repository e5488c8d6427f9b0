/**
 * The ten line patterns of the parser (LineParser.cpp:5-14), each written out as
 * a recogniser over characters instead of an ECMAScript regular expression.
 *
 * Every pattern begins with `^\s{0,}`. Because no pattern continues with a
 * white-space character, that prefix always takes the longest run of leading
 * white space, so each recogniser first strips it (`Trimmed`) and then reads
 * the rest from its first character. Likewise every `\s+(class+)` step takes
 * the longest run of white space followed by the longest run of the class,
 * because the classes used after `\s+` share no character with `\s`.
 */
module Patterns {
  import opened Wrappers
  import opened Decimal

  /** The character classes the patterns use. */
  datatype CharClass =
    | Space       // \s, the C locale's white space
    | Digit       // \d
    | NumberChar  // [0-9\-\.]
    | Alnum       // [a-zA-Z0-9]
    | NotNewline  // ., anything but a line terminator

  predicate InClass(c: char, k: CharClass) {
    match k
    case Space => c == ' ' || c == '\t' || c == '\n' || c == '\U{B}' || c == '\U{C}' || c == '\r'
    case Digit => IsDigit(c)
    case NumberChar => IsDigit(c) || c == '-' || c == '.'
    case Alnum => IsDigit(c) || 'a' <= c <= 'z' || 'A' <= c <= 'Z'
    case NotNewline => c != '\n' && c != '\r'
  }

  /** The classes captured after `\s+`: none of them holds a white-space character. */
  predicate IsTokenClass(k: CharClass) {
    k == Digit || k == NumberChar || k == Alnum
  }

  predicate AllIn(s: string, k: CharClass) {
    forall i :: 0 <= i < |s| ==> InClass(s[i], k)
  }

  /** A non-empty run of class `k`, what `(k+)` captures. */
  predicate IsToken(s: string, k: CharClass) {
    |s| > 0 && AllIn(s, k)
  }

  lemma TokenCharNotSpace(c: char, k: CharClass)
    requires IsTokenClass(k) && InClass(c, k)
    ensures !InClass(c, Space)
  {
  }

  /** The end of the longest run of class `k` that starts at `i`. */
  function RunEnd(s: string, i: nat, k: CharClass): (j: nat)
    requires i <= |s|
    ensures i <= j <= |s|
    ensures forall m :: i <= m < j ==> InClass(s[m], k)
    ensures j == |s| || !InClass(s[j], k)
    decreases |s| - i
  {
    if i < |s| && InClass(s[i], k) then RunEnd(s, i + 1, k) else i
  }

  /** The longest run is the only run that is followed by a character outside the class. */
  lemma RunEndUnique(s: string, i: nat, j: nat, k: CharClass)
    requires i <= j <= |s|
    requires forall m :: i <= m < j ==> InClass(s[m], k)
    requires j == |s| || !InClass(s[j], k)
    ensures RunEnd(s, i, k) == j
  {
  }

  /** The line without its leading white space: what follows `^\s{0,}`. */
  function Trimmed(line: string): (t: string)
    ensures |t| <= |line| && t == line[|line| - |t|..]
    ensures AllIn(line[..|line| - |t|], Space)
    ensures t == [] || !InClass(t[0], Space)
  {
    line[RunEnd(line, 0, Space)..]
  }

  /** Leading white space never changes what any pattern sees. */
  lemma {:induction false} TrimmedIgnoresSpaces(w: string, line: string)
    requires AllIn(w, Space)
    ensures Trimmed(w + line) == Trimmed(line)
  {
    var s := w + line;
    var j := RunEnd(line, 0, Space);
    forall m | 0 <= m < |w| + j
      ensures InClass(s[m], Space)
    {
      if m >= |w| {
        assert s[m] == line[m - |w|];
      }
    }
    if |w| + j < |s| {
      assert s[|w| + j] == line[j];
    }
    RunEndUnique(s, 0, |w| + j, Space);
    assert s[|w| + j..] == line[j..];
  }

  /** A line that starts with a non-space character is its own trimmed form. */
  lemma TrimmedNoLead(line: string)
    requires line != [] && !InClass(line[0], Space)
    ensures Trimmed(line) == line
  {
    RunEndUnique(line, 0, 0, Space);
  }

  /** The ASCII lower case of `c`, the folding `icase` applies in the C locale. */
  function ToLower(c: char): char {
    if 'A' <= c <= 'Z' then (c as int + 32) as char else c
  }

  /** A letter, in either case, is neither white space nor `#`. */
  lemma LetterNotSpace(c: char)
    requires 'a' <= ToLower(c) <= 'z'
    ensures !InClass(c, Space) && c != '#'
  {
    if 'A' <= c <= 'Z' {
      assert ToLower(c) as int == c as int + 32;
    }
  }

  /** The lower-case keyword `kw` stands at position `i` of `t`, in either case. */
  predicate KeywordAt(t: string, i: nat, kw: string) {
    i + |kw| <= |t| && forall m :: 0 <= m < |kw| ==> ToLower(t[i + m]) == kw[m]
  }

  /** A line that begins with a lower-case keyword has that keyword at its start. */
  lemma KeywordAtStart(kw: string, rest: string)
    requires forall m :: 0 <= m < |kw| ==> !('A' <= kw[m] <= 'Z')
    ensures KeywordAt(kw + rest, 0, kw)
  {
    var t := kw + rest;
    forall m | 0 <= m < |kw|
      ensures ToLower(t[m]) == kw[m]
    {
      assert t[m] == kw[m];
    }
  }

  /** A line whose trimmed text opens with a keyword is neither blank nor a comment. */
  lemma KeywordLineNotBlank(line: string, kw: string)
    requires |kw| > 0 && 'a' <= kw[0] <= 'z'
    ensures KeywordAt(Trimmed(line), 0, kw) ==> !IsBlank(line) && MatchComment(line).None?
    ensures KeywordAt(Trimmed(line), 0, kw) && kw[0] != 'e' ==> !KeywordAt(Trimmed(line), 0, "end")
  {
    var t := Trimmed(line);
    if KeywordAt(t, 0, kw) {
      assert ToLower(t[0]) == kw[0];
      LetterNotSpace(t[0]);
      if kw[0] != 'e' {
        NotKeywordAt(t, 0, "end", 0);
      }
    }
  }

  /** A keyword cannot stand where one of its letters does not. */
  lemma NotKeywordAt(t: string, i: nat, kw: string, j: nat)
    requires j < |kw| && i + j < |t| && ToLower(t[i + j]) != kw[j]
    ensures !KeywordAt(t, i, kw)
  {
  }

  /** `\s+(k+)` at position `i`: the captured run and the position after it. */
  function SpacedToken(t: string, i: nat, k: CharClass): (r: Option<(string, nat)>)
    requires i <= |t|
    ensures r.Some? ==> i < r.value.1 <= |t| && IsToken(r.value.0, k)
  {
    var j := RunEnd(t, i, Space);
    var e := RunEnd(t, j, k);
    if i < j && j < e then Some((t[j..e], e)) else None
  }

  /** The fields `\s+(k1+)\s+(k2+)...` at position `i`, one class per field. */
  function Fields(t: string, i: nat, ks: seq<CharClass>): (r: Option<(seq<string>, nat)>)
    requires i <= |t|
    ensures r.Some? ==> |r.value.0| == |ks| && i <= r.value.1 <= |t|
    ensures r.Some? ==> forall m :: 0 <= m < |ks| ==> IsToken(r.value.0[m], ks[m])
    decreases |ks|
  {
    if ks == [] then Some(([], i))
    else
      match SpacedToken(t, i, ks[0])
      case None => None
      case Some((tok, e)) =>
        match Fields(t, e, ks[1..])
        case None => None
        case Some((rest, e')) => Some(([tok] + rest, e'))
  }

  /** Fields written with one space before each of them, the shortest spelling. */
  function Spaced(toks: seq<string>): string {
    if toks == [] then [] else " " + toks[0] + Spaced(toks[1..])
  }

  /** Fields written each after its own run of white space `seps[m]`. */
  function Joined(seps: seq<string>, toks: seq<string>): string
    requires |seps| == |toks|
  {
    if toks == [] then [] else seps[0] + toks[0] + Joined(seps[1..], toks[1..])
  }

  /** Every separator is something `\s+` matches: a non-empty run of white space. */
  predicate Separators(seps: seq<string>) {
    forall m :: 0 <= m < |seps| ==> IsToken(seps[m], Space)
  }

  /** One space before each field is one choice of separators. */
  lemma {:induction false} SpacedIsJoined(toks: seq<string>)
    ensures var ones := seq(|toks|, _ => " ");
      Separators(ones) && Joined(ones, toks) == Spaced(toks)
    decreases |toks|
  {
    if toks != [] {
      var ones := seq(|toks|, _ => " ");
      assert ones[1..] == seq(|toks| - 1, _ => " ");
      SpacedIsJoined(toks[1..]);
    }
  }

  /** A run of white space and then a whole token of class `k` are read back as that token. */
  lemma SeparatedTokenOf(t: string, i: nat, sep: string, tok: string, rest: string, k: CharClass)
    requires IsTokenClass(k) && IsToken(tok, k) && IsToken(sep, Space)
    requires i <= |t| && t[i..] == sep + tok + rest
    requires rest == [] || !InClass(rest[0], k)
    ensures SpacedToken(t, i, k) == Some((tok, i + |sep| + |tok|))
  {
    var j := i + |sep|;
    Regroup(sep, tok, rest);
    TokenCharNotSpace(tok[0], k);
    RunOf(t, i, sep, tok + rest, Space);
    RunOf(t, j, tok, rest, k);
    SpacedTokenOfRuns(t, i, j, j + |tok|, k);
  }

  lemma Regroup(sep: string, tok: string, rest: string)
    requires |tok| > 0
    ensures sep + tok + rest == sep + (tok + rest) && (tok + rest)[0] == tok[0]
  {
  }

  /** `\s+(k+)` reads the longest run of white space and then the longest run of `k`. */
  lemma SpacedTokenOfRuns(t: string, i: nat, j: nat, e: nat, k: CharClass)
    requires i < j < e <= |t| && RunEnd(t, i, Space) == j && RunEnd(t, j, k) == e
    ensures SpacedToken(t, i, k) == Some((t[j..e], e))
  {
  }

  /** A run of class `k` followed by a character outside `k` is the longest run there. */
  lemma RunOf(t: string, i: nat, run: string, rest: string, k: CharClass)
    requires i <= |t| && t[i..] == run + rest && AllIn(run, k)
    requires rest == [] || !InClass(rest[0], k)
    ensures RunEnd(t, i, k) == i + |run| <= |t|
    ensures t[i..i + |run|] == run && t[i + |run|..] == rest
  {
    var j := i + |run|;
    forall m | i <= m < j
      ensures InClass(t[m], k)
    {
      assert t[m] == t[i..][m - i] == run[m - i];
    }
    if j < |t| {
      assert t[j] == t[i..][|run|] == rest[0];
    }
    RunEndUnique(t, i, j, k);
    assert t[i..j] == t[i..][..|run|];
    assert t[j..] == t[i..][|run|..];
  }

  /** Each field is a whole token of its class, and no class holds white space. */
  predicate FieldsFit(toks: seq<string>, ks: seq<CharClass>) {
    |toks| == |ks| && forall m :: 0 <= m < |ks| ==> IsTokenClass(ks[m]) && IsToken(toks[m], ks[m])
  }

  /**
   * Reading the fields back from any separated spelling gives the fields, and
   * stops where they end, when the text after them cannot lengthen the last one.
   */
  lemma {:induction false} FieldsOfJoined(t: string, i: nat, seps: seq<string>, toks: seq<string>,
                                          ks: seq<CharClass>, tail: string)
    requires |ks| > 0 && FieldsFit(toks, ks) && |seps| == |toks| && Separators(seps)
    requires i <= |t| && t[i..] == Joined(seps, toks) + tail
    requires tail == [] || !InClass(tail[0], ks[|ks| - 1])
    ensures Fields(t, i, ks) == Some((toks, |t| - |tail|))
    decreases |ks|
  {
    var e := JoinedFirst(t, i, seps, toks, ks, tail);
    if |toks| > 1 {
      FieldsOfJoined(t, e, seps[1..], toks[1..], ks[1..], tail);
      assert [toks[0]] + toks[1..] == toks;
    } else {
      FieldsOne(t, i, ks, toks, e);
    }
  }

  /** The first field of a separated spelling is read back, and the rest of the spelling follows it. */
  lemma JoinedFirst(t: string, i: nat, seps: seq<string>, toks: seq<string>, ks: seq<CharClass>, tail: string)
      returns (e: nat)
    requires |ks| > 0 && FieldsFit(toks, ks) && |seps| == |toks| && Separators(seps)
    requires i <= |t| && t[i..] == Joined(seps, toks) + tail
    requires tail == [] || !InClass(tail[0], ks[|ks| - 1])
    ensures e <= |t| - |tail| && SpacedToken(t, i, ks[0]) == Some((toks[0], e))
    ensures |toks| == 1 ==> e == |t| - |tail|
    ensures |toks| > 1 ==>
      && FieldsFit(toks[1..], ks[1..]) && Separators(seps[1..])
      && t[e..] == Joined(seps[1..], toks[1..]) + tail
      && (tail == [] || !InClass(tail[0], ks[1..][|ks[1..]| - 1]))
  {
    var rest := Joined(seps[1..], toks[1..]) + tail;
    e := JoinedSplit(t, i, seps, toks, tail);
    if |toks| > 1 {
      assert rest[0] == seps[1][0];
    }
    SeparatedTokenOf(t, i, seps[0], toks[0], rest, ks[0]);
  }

  /** A separated spelling is its first separator and field, and then the rest of it. */
  lemma JoinedSplit(t: string, i: nat, seps: seq<string>, toks: seq<string>, tail: string) returns (e: nat)
    requires |seps| == |toks| > 0
    requires i <= |t| && t[i..] == Joined(seps, toks) + tail
    ensures e == i + |seps[0]| + |toks[0]| <= |t|
    ensures t[i..] == seps[0] + toks[0] + (Joined(seps[1..], toks[1..]) + tail)
    ensures t[e..] == Joined(seps[1..], toks[1..]) + tail
  {
    var rest := Joined(seps[1..], toks[1..]) + tail;
    e := i + |seps[0]| + |toks[0]|;
    assert t[i..] == seps[0] + toks[0] + rest;
    assert t[e..] == t[i..][e - i..] == rest;
  }

  /**
   * Whatever `Fields` reads was written with a run of white space before each
   * field, and its last field is as long as that field's class lets it be.
   */
  lemma {:induction false} JoinedOfFields(t: string, i: nat, ks: seq<CharClass>, toks: seq<string>, e: nat)
      returns (seps: seq<string>)
    requires i <= |t| && Fields(t, i, ks) == Some((toks, e))
    ensures |seps| == |ks| && Separators(seps) && i <= e <= |t| && t[i..e] == Joined(seps, toks)
    ensures |ks| > 0 ==> e == |t| || !InClass(t[e], ks[|ks| - 1])
    decreases |ks|
  {
    if ks == [] {
      seps := [];
    } else {
      var tok, e1, toks' := FieldsStep(t, i, ks, toks, e);
      var sep := SpacedTokenParts(t, i, ks[0], tok, e1);
      var rest := JoinedOfFields(t, e1, ks[1..], toks', e);
      seps := JoinedStep(t, i, e1, e, ks, sep, tok, rest, toks');
    }
  }

  /** The separators of the first field and of the others make the separators of all of them. */
  lemma JoinedStep(t: string, i: nat, e1: nat, e: nat, ks: seq<CharClass>, sep: string, tok: string,
                   rest: seq<string>, toks: seq<string>) returns (seps: seq<string>)
    requires |ks| > 0 && i <= e1 <= e <= |t|
    requires IsToken(sep, Space) && t[i..e1] == sep + tok && (e1 == |t| || !InClass(t[e1], ks[0]))
    requires |rest| == |toks| == |ks| - 1 && Separators(rest) && t[e1..e] == Joined(rest, toks)
    requires |ks| == 1 ==> e == e1
    requires |ks| > 1 ==> e == |t| || !InClass(t[e], ks[1..][|ks[1..]| - 1])
    ensures |seps| == |ks| && Separators(seps) && t[i..e] == Joined(seps, [tok] + toks)
    ensures e == |t| || !InClass(t[e], ks[|ks| - 1])
  {
    seps := [sep] + rest;
    JoinedPrepend(t, i, e1, e, sep, tok, rest, toks);
    if |ks| > 1 {
      assert ks[1..][|ks[1..]| - 1] == ks[|ks| - 1];
    }
  }

  /** `Fields` reads its first field and then the others after it. */
  lemma FieldsStep(t: string, i: nat, ks: seq<CharClass>, toks: seq<string>, e: nat)
      returns (tok: string, e1: nat, toks': seq<string>)
    requires i <= |t| && |ks| > 0 && Fields(t, i, ks) == Some((toks, e))
    ensures i <= e1 <= |t| && SpacedToken(t, i, ks[0]) == Some((tok, e1))
    ensures Fields(t, e1, ks[1..]) == Some((toks', e)) && toks == [tok] + toks'
    ensures |ks| == 1 ==> e == e1
  {
    tok, e1 := SpacedToken(t, i, ks[0]).value.0, SpacedToken(t, i, ks[0]).value.1;
    toks' := Fields(t, e1, ks[1..]).value.0;
  }

  /** `\s+(k+)` reads a run of white space and then the longest run of `k` after it. */
  lemma SpacedTokenParts(t: string, i: nat, k: CharClass, tok: string, e: nat) returns (sep: string)
    requires i <= |t| && SpacedToken(t, i, k) == Some((tok, e))
    ensures IsToken(sep, Space) && t[i..e] == sep + tok && (e == |t| || !InClass(t[e], k))
  {
    var j := RunEnd(t, i, Space);
    assert e == RunEnd(t, j, k);
    sep := t[i..j];
    assert t[i..e] == t[i..j] + t[j..e];
  }

  /** A separator and a field before a separated spelling make a longer separated spelling. */
  lemma JoinedPrepend(t: string, i: nat, e1: nat, e: nat, sep: string, tok: string,
                      seps: seq<string>, toks: seq<string>)
    requires i <= e1 <= e <= |t| && IsToken(sep, Space) && t[i..e1] == sep + tok
    requires |seps| == |toks| && Separators(seps) && t[e1..e] == Joined(seps, toks)
    ensures Separators([sep] + seps) && t[i..e] == Joined([sep] + seps, [tok] + toks)
  {
    SeparatorsCons(sep, seps);
    SliceJoin(t, i, e1, e, sep + tok, Joined(seps, toks));
    JoinedCons(sep, tok, seps, toks);
  }

  lemma SliceJoin(t: string, i: nat, e1: nat, e: nat, a: string, b: string)
    requires i <= e1 <= e <= |t| && t[i..e1] == a && t[e1..e] == b
    ensures t[i..e] == a + b
  {
    assert t[i..e] == t[i..e1] + t[e1..e];
  }

  lemma SeparatorsCons(sep: string, seps: seq<string>)
    requires IsToken(sep, Space) && Separators(seps)
    ensures Separators([sep] + seps)
  {
    forall m | 0 < m <= |seps|
      ensures IsToken(([sep] + seps)[m], Space)
    {
      assert ([sep] + seps)[m] == seps[m - 1];
    }
  }

  lemma JoinedCons(sep: string, tok: string, seps: seq<string>, toks: seq<string>)
    requires |seps| == |toks|
    ensures Joined([sep] + seps, [tok] + toks) == sep + tok + Joined(seps, toks)
  {
    assert ([sep] + seps)[1..] == seps && ([tok] + toks)[1..] == toks;
  }

  lemma FieldsOne(t: string, i: nat, ks: seq<CharClass>, toks: seq<string>, e: nat)
    requires i <= |t| && |ks| == 1 && |toks| == 1
    requires SpacedToken(t, i, ks[0]) == Some((toks[0], e))
    ensures Fields(t, i, ks) == Some((toks, e))
  {
    assert ks[1..] == [];
    assert Fields(t, e, ks[1..]) == Some(([], e));
    assert [toks[0]] + [] == toks;
  }

  // ---------------------------------------------------------------------
  // The ten patterns, in the order of LineParser.cpp:5-14.
  // ---------------------------------------------------------------------

  /** `comment_re`, `^\s{0,}\#(.*)`, searched: group 1 is the text after `#` up to a line terminator. */
  function MatchComment(line: string): (r: Option<string>)
    ensures r.Some? ==> AllIn(r.value, NotNewline)
  {
    var t := Trimmed(line);
    if |t| > 0 && t[0] == '#' then
      Some(t[1..RunEnd(t, 1, NotNewline)])
    else None
  }

  /** `model_re`, `^\s{0,}model\s+([a-zA-Z0-9]+)$`, searched: group 1 is the model name. */
  function MatchModel(line: string): (r: Option<string>)
    ensures r.Some? ==> IsToken(r.value, Alnum) && |r.value| <= |line| && r.value == line[|line| - |r.value|..]
  {
    var t := Trimmed(line);
    if KeywordAt(t, 0, "model") then
      match Fields(t, 5, [Alnum])
      case Some((toks, e)) =>
        if e == |t| then
          assert toks[0] == t[|t| - |toks[0]|..] by {
            assert SpacedToken(t, 5, Alnum) == Some((toks[0], e));
          }
          Some(toks[0])
        else None
      case None => None
    else None
  }

  /** `end_model_re`, `^\s{0,}modelend`, searched: any text may follow the keyword. */
  predicate IsModelEnd(line: string)
    ensures IsModelEnd(line) ==> !IsBlank(line) && MatchComment(line).None? && !IsEnd(line)
  {
    KeywordLineNotBlank(line, "modelend");
    KeywordAt(Trimmed(line), 0, "modelend")
  }

  /** `frame_re`, `^\s{0,}frame\s+(\d+)$`, searched: group 1 is the timestamp. */
  function MatchFrame(line: string): (r: Option<string>)
    ensures r.Some? ==> IsToken(r.value, Digit)
  {
    var t := Trimmed(line);
    if KeywordAt(t, 0, "frame") then
      match Fields(t, 5, [Digit])
      case Some((toks, e)) => if e == |t| then Some(toks[0]) else None
      case None => None
    else None
  }

  /** `end_frame_re`, `^\s{0,}frameend.*$`, matched: the rest of the line holds no line terminator. */
  predicate IsFrameEnd(line: string)
    ensures IsFrameEnd(line) ==> !IsBlank(line) && MatchComment(line).None? && !IsEnd(line)
  {
    var t := Trimmed(line);
    KeywordLineNotBlank(line, "frameend");
    KeywordAt(t, 0, "frameend") && AllIn(t[8..], NotNewline)
  }

  /** `face_re`, `^\s{0,}f\s+(\d+)\s+(\d+)\s+(\d+)`, searched: the three vertex indices of a face. */
  function MatchFace(line: string): (r: Option<seq<string>>)
    ensures r.Some? ==> |r.value| == 3 && forall m :: 0 <= m < 3 ==> IsToken(r.value[m], Digit)
  {
    var t := Trimmed(line);
    if KeywordAt(t, 0, "f") then
      match Fields(t, 1, [Digit, Digit, Digit])
      case Some((toks, _)) => Some(toks)
      case None => None
    else None
  }

  /** `vertex_re`, `^\s{0,}v\s+([0-9\-\.]+)` three times, searched: the three coordinates. */
  function MatchVertex(line: string): (r: Option<seq<string>>)
    ensures r.Some? ==> |r.value| == 3 && forall m :: 0 <= m < 3 ==> IsToken(r.value[m], NumberChar)
  {
    var t := Trimmed(line);
    if KeywordAt(t, 0, "v") then
      match Fields(t, 1, [NumberChar, NumberChar, NumberChar])
      case Some((toks, _)) => Some(toks)
      case None => None
    else None
  }

  /** `face_temp_re`, `^\s{0,}f\s+(\d+)\s+([0-9\-\.]+)$`, searched: a vertex index and its value. */
  function MatchTemp(line: string): (r: Option<seq<string>>)
    ensures r.Some? ==> |r.value| == 2 && IsToken(r.value[0], Digit) && IsToken(r.value[1], NumberChar)
  {
    var t := Trimmed(line);
    if KeywordAt(t, 0, "f") then
      match Fields(t, 1, [Digit, NumberChar])
      case Some((toks, e)) => if e == |t| then Some(toks) else None
      case None => None
    else None
  }

  /** `empty_re`, `^\s{0,}$`, matched: the line is white space only. */
  predicate IsBlank(line: string)
    ensures IsBlank(line) <==> AllIn(line, Space)
  {
    var t := Trimmed(line);
    assert t == [] ==> line[..|line| - |t|] == line;
    t == []
  }

  /** `end_re`, `^\s{0,}end.*$`, matched: the rest of the line holds no line terminator. */
  predicate IsEnd(line: string)
    ensures IsEnd(line) ==> !IsBlank(line) && MatchComment(line).None?
  {
    var t := Trimmed(line);
    KeywordLineNotBlank(line, "end");
    KeywordAt(t, 0, "end") && AllIn(t[3..], NotNewline)
  }
}
