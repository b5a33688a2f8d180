/**
 * What `parse_part` promises, stated over lines and over whole outputs:
 * which answer line wins, when a time is taken and when it is kept, how the
 * number text of a time is cut out, and that the output printed by the
 * generated day template is read back as printed.
 */
module ParserProperties {
  import opened Prelude
  import opened Strings
  import opened Results

  /** The outcome of `parse_part` on output whose lines are `ls`. */
  function ScanLines(ls: seq<string>, partName: string, parseFloat: string -> Option<real>): (Option<string>, Option<real>) {
    Scan(ClassifyAll(ls, partName, parseFloat))
  }

  lemma {:induction false} ClassifyAllConcat(ls: seq<string>, more: seq<string>, partName: string, parseFloat: string -> Option<real>)
    ensures ClassifyAll(ls + more, partName, parseFloat)
            == ClassifyAll(ls, partName, parseFloat) + ClassifyAll(more, partName, parseFloat)
  {
    if more == [] {
      assert ls + more == ls;
    } else {
      var init, last := more[..|more| - 1], more[|more| - 1];
      assert (ls + more)[..|ls + more| - 1] == ls + init;
      ClassifyAllConcat(ls, init, partName, parseFloat);
    }
  }

  // ---------------------------------------------------------------------
  // Line by line

  /** One more line: the scan of the lines so far, followed by that line as classified. */
  lemma ScanLinesSnoc(ls: seq<string>, line: string, partName: string, parseFloat: string -> Option<real>)
    ensures ScanLines(ls + [line], partName, parseFloat)
            == Step(ScanLines(ls, partName, parseFloat), Classify(line, partName, parseFloat))
  {
    assert (ls + [line])[..|ls|] == ls;
    ScanAppend(ClassifyAll(ls, partName, parseFloat), Classify(line, partName, parseFloat));
  }

  /** Without a line that starts with the part name and has a colon, nothing is found: not even a time. */
  lemma NoAnswerLineNothingFound(output: string, partName: string, parseFloat: string -> Option<real>)
    requires forall line :: line in Lines(output) && StartsWith(line, partName) ==> ':' !in line
    ensures ParsePartSpec(output, partName, parseFloat) == (None, None)
  {
    var ls := Lines(output);
    var ss := ClassifyAll(ls, partName, parseFloat);
    forall j | 0 <= j < |ss|
      ensures !ss[j].Answer?
    {
      assert ls[j] in ls;
    }
  }

  /** Every later answer line replaces the answer: the last one wins, and the time is left as it was. */
  lemma LaterAnswerLineWins(ls: seq<string>, line: string, partName: string, parseFloat: string -> Option<real>)
    requires StartsWith(line, partName) && ':' in line
    ensures ScanLines(ls + [line], partName, parseFloat).0 == Some(Trim(SecondField(line, ':').value))
    ensures ScanLines(ls + [line], partName, parseFloat).1 == ScanLines(ls, partName, parseFloat).1
  {
    ScanLinesSnoc(ls, line, partName, parseFloat);
  }

  /** A line that starts with the part name is never read as a time, even when it also starts with `"Time:"`. */
  lemma PartLineNeverATime(ls: seq<string>, line: string, partName: string, parseFloat: string -> Option<real>)
    requires StartsWith(line, partName)
    ensures ScanLines(ls + [line], partName, parseFloat).1 == ScanLines(ls, partName, parseFloat).1
  {
    ScanLinesSnoc(ls, line, partName, parseFloat);
  }

  /** A time line whose number text does not parse is skipped, and the scan goes on unchanged. */
  lemma UnparsableTimeSkipped(ls: seq<string>, line: string, partName: string, parseFloat: string -> Option<real>)
    requires !StartsWith(line, partName) && StartsWith(line, "Time:") && ':' in line
    requires parseFloat(TimeText(SecondField(line, ':').value)).None?
    ensures ScanLines(ls + [line], partName, parseFloat) == ScanLines(ls, partName, parseFloat)
  {
    ClassifyUnparsableTime(line, partName, parseFloat);
    ScanLinesSnoc(ls, line, partName, parseFloat);
  }

  lemma ClassifyUnparsableTime(line: string, partName: string, parseFloat: string -> Option<real>)
    requires !StartsWith(line, partName) && StartsWith(line, "Time:") && ':' in line
    requires parseFloat(TimeText(SecondField(line, ':').value)).None?
    ensures Classify(line, partName, parseFloat) == Ignored
  {
  }

  /** A line other than an answer line, a time line included, that comes before any answer is not remembered. */
  lemma TimeBeforeAnswerIgnored(ls: seq<string>, line: string, partName: string, parseFloat: string -> Option<real>)
    requires ScanLines(ls, partName, parseFloat).0.None?
    requires !(StartsWith(line, partName) && ':' in line)
    ensures ScanLines(ls + [line], partName, parseFloat) == (None, None)
  {
    ScanLinesSnoc(ls, line, partName, parseFloat);
  }

  /** Once a time is taken no later line changes it. */
  lemma {:induction false} ScanTimeKept(ss: seq<Seen>, more: seq<Seen>)
    requires Scan(ss).1.Some?
    ensures Scan(ss + more).1 == Scan(ss).1
  {
    if more != [] {
      var init := more[..|more| - 1];
      assert ss + more == (ss + init) + [more[|more| - 1]];
      ScanTimeKept(ss, init);
      ScanAppend(ss + init, more[|more| - 1]);
    } else {
      assert ss + more == ss;
    }
  }

  /** The first time read after an answer is never replaced, whatever lines follow. */
  lemma TimeNeverReplaced(ls: seq<string>, more: seq<string>, partName: string, parseFloat: string -> Option<real>)
    requires ScanLines(ls, partName, parseFloat).1.Some?
    ensures ScanLines(ls + more, partName, parseFloat).1 == ScanLines(ls, partName, parseFloat).1
  {
    ClassifyAllConcat(ls, more, partName, parseFloat);
    ScanTimeKept(ClassifyAll(ls, partName, parseFloat), ClassifyAll(more, partName, parseFloat));
  }

  // ---------------------------------------------------------------------
  // The text of a field

  lemma {:induction false} RepeatHead(pat: string, k: nat)
    requires pat != [] && k >= 1
    ensures Repeat(pat, k)[0] == pat[0]
  {
    if k > 1 {
      RepeatHead(pat, k - 1);
    }
  }

  lemma RepeatEnds(pat: string, k: nat)
    requires pat != [] && k >= 1
    ensures EndsWith(Repeat(pat, k), pat)
  {
    var r := Repeat(pat, k - 1);
    assert Repeat(pat, k) == r + pat;
    assert (r + pat)[|r|..] == pat;
  }

  /** A trimmed text followed by a text that starts and ends with non-whitespace is trimmed. */
  lemma TrimmedJoin(a: string, b: string)
    requires Trimmed(a) && b != [] && !IsWhitespace(b[0]) && !IsWhitespace(b[|b| - 1])
    ensures Trimmed(a + b)
  {
    if a == [] {
      assert a + b == b;
    } else {
      assert (a + b)[0] == a[0];
    }
  }

  lemma TrimmedBeforeMs(t: string, k: nat)
    requires Trimmed(t) && k >= 1
    ensures Trimmed(t + Repeat("ms", k))
  {
    var m := Repeat("ms", k);
    RepeatEnds("ms", k);
    RepeatHead("ms", k);
    assert m[|m| - 1] == m[|m| - 2..][1] == 's';
    assert m[0] == 'm';
    assert !IsWhitespace('m') && !IsWhitespace('s');
    TrimmedJoin(t, m);
  }

  /** After a field's leading space, only trailing `"ms"` is removed from an already trimmed text. */
  lemma TimeTextOfTrimmed(u: string)
    requires Trimmed(u)
    ensures TimeText(" " + u) == TrimEndMatches(u, "ms")
  {
    assert " " + u == " " + u + [];
    TrimAround(" ", u, []);
  }

  /** A time written `" <t>ms"`, or with `"ms"` repeated, reads as `t`: every trailing `"ms"` goes. */
  lemma TimeTextStripsEveryMs(t: string, k: nat)
    requires Trimmed(t) && !EndsWith(t, "ms") && k >= 1
    ensures TimeText(" " + t + Repeat("ms", k)) == t
  {
    var u := t + Repeat("ms", k);
    assert " " + t + Repeat("ms", k) == " " + u;
    TrimmedBeforeMs(t, k);
    TimeTextOfTrimmed(u);
    TrimEndMatchesRepeat(t, "ms", k);
  }

  /** The text is not trimmed again after `"ms"` is removed: `" 1.5 ms"` reads as `"1.5 "`. */
  lemma TimeTextKeepsSpaceBeforeMs(t: string)
    requires Trimmed(t) && t != []
    ensures TimeText(" " + t + " ms") == t + " "
  {
    var v := t + " ";
    var u := v + "ms";
    calc {
      TimeText(" " + t + " ms");
      { assert " " + t + " ms" == " " + u; }
      TrimEndMatches(Trim(" " + u), "ms");
      { assert u[0] == t[0] && u[|u| - 1] == 's'; TimeTextOfTrimmed(u); }
      TrimEndMatches(u, "ms");
      { TrimEndMatchesStep(v, "ms"); }
      TrimEndMatches(v, "ms");
      { assert v[|v| - 1] == ' '; assert !EndsWith(v, "ms"); }
      v;
    }
  }

  /** A printable answer: no colon, no line break, nothing `trim` would remove. */
  predicate PlainAnswer(a: string) {
    Trimmed(a) && ':' !in a && '\n' !in a
  }

  /** A printable time: as an answer, and not itself ending in `"ms"`. */
  predicate PlainTime(t: string) {
    PlainAnswer(t) && !EndsWith(t, "ms")
  }

  /** A line `"<partName>: <answer>"` as the template's `println!` writes it. */
  function AnswerLine(partName: string, answer: string): string {
    partName + ": " + answer
  }

  /** A line `"Time: <t>ms"` as the template's `println!` writes it. */
  function TimeLine(t: string): string {
    "Time: " + t + "ms"
  }

  lemma ClassifyAnswerLine(partName: string, a: string, parseFloat: string -> Option<real>)
    requires ':' !in partName && PlainAnswer(a)
    ensures Classify(AnswerLine(partName, a), partName, parseFloat) == Answer(a)
  {
    var line := AnswerLine(partName, a);
    assert line[..|partName|] == partName;
    assert line == partName + [':'] + (" " + a);
    SecondFieldBetween(partName, " " + a, "", ':');
    assert " " + a == " " + a + [];
    TrimAround(" ", a, []);
  }

  /** The answer is the field between the first and the second colon, not everything after the first. */
  lemma AnswerStopsAtSecondColon(partName: string, a: string, rest: string, parseFloat: string -> Option<real>)
    requires ':' !in partName && PlainAnswer(a)
    ensures Classify(AnswerLine(partName, a) + ":" + rest, partName, parseFloat) == Answer(a)
  {
    var line := AnswerLine(partName, a) + ":" + rest;
    assert line[..|partName|] == partName;
    assert line == partName + [':'] + (" " + a) + [':'] + rest;
    SecondFieldBetween(partName, " " + a, rest, ':');
    assert " " + a == " " + a + [];
    TrimAround(" ", a, []);
  }

  lemma TimeLineField(t: string)
    requires PlainTime(t)
    ensures SecondField(TimeLine(t), ':') == Some(" " + (t + "ms"))
  {
    var field := " " + (t + "ms");
    assert TimeLine(t) == "Time" + [':'] + field;
    SecondFieldBetween("Time", field, "", ':');
  }

  lemma TimeLineText(t: string)
    requires PlainTime(t)
    ensures TimeText(" " + (t + "ms")) == t
  {
    assert "ms"[0] == 'm' && "ms"[1] == 's';
    assert !IsWhitespace('m') && !IsWhitespace('s');
    TrimmedJoin(t, "ms");
    TimeTextOfTrimmed(t + "ms");
    TrimEndMatchesStep(t, "ms");
  }

  /** How a parsed time shows up among the classified lines. */
  function TimeSeen(t: Option<real>): Seen {
    match t
    case Some(x) => TimeCandidate(x)
    case None => Ignored
  }

  /** A time line, for a part whose name does not start with `'T'`, yields its parsed time. */
  lemma ClassifyTimeLine(t: string, partName: string, parseFloat: string -> Option<real>)
    requires PlainTime(t) && partName != [] && partName[0] != 'T'
    ensures Classify(TimeLine(t), partName, parseFloat) == TimeSeen(parseFloat(t))
  {
    calc {
      Classify(TimeLine(t), partName, parseFloat);
      { TimeLineNotPart(t, partName); assert TimeLine(t)[..5] == "Time:"; TimeLineField(t); }
      TimeSeen(parseFloat(TimeText(" " + (t + "ms"))));
      { TimeLineText(t); }
      TimeSeen(parseFloat(t));
    }
  }

  /** An answer line of one part does not start with another part's name, nor with `"Time:"`. */
  lemma OtherPartLine(p: string, q: string, i: nat, a: string)
    requires i < |q| <= |p| && p[i] != q[i] && p[0] != 'T'
    ensures !StartsWith(AnswerLine(p, a), q)
    ensures !StartsWith(AnswerLine(p, a), "Time:")
  {
    var line := AnswerLine(p, a);
    assert line[..|q|][i] == p[i];
    if 5 <= |line| {
      assert line[..5][0] == p[0];
    }
  }

  /** Another part's answer line means nothing to this part. */
  lemma ClassifyOtherPartLine(p: string, q: string, i: nat, a: string, parseFloat: string -> Option<real>)
    requires i < |q| <= |p| && p[i] != q[i] && p[0] != 'T'
    ensures Classify(AnswerLine(p, a), q, parseFloat) == Ignored
  {
    OtherPartLine(p, q, i, a);
  }

  /** A time line does not start with a part name. */
  lemma TimeLineNotPart(t: string, q: string)
    requires q != [] && q[0] != 'T'
    ensures !StartsWith(TimeLine(t), q)
  {
    if |q| <= |TimeLine(t)| {
      assert TimeLine(t)[..|q|][0] == 'T';
    }
  }

  // ---------------------------------------------------------------------
  // Whole outputs of the day template

  /** The four lines the day template prints. */
  function Printed(a1: string, t1: string, a2: string, t2: string): seq<string> {
    [AnswerLine("Part 1", a1), TimeLine(t1), AnswerLine("Part 2", a2), TimeLine(t2)]
  }

  /** An answer line has no line break and does not end in `'\r'`. */
  lemma AnswerLineClean(partName: string, a: string)
    requires '\n' !in partName && PlainAnswer(a)
    ensures '\n' !in AnswerLine(partName, a) && !EndsWith(AnswerLine(partName, a), "\r")
  {
    var line := AnswerLine(partName, a);
    assert line == (partName + ": ") + a;
    if a != [] {
      assert line[|line| - 1..] == [a[|a| - 1]];
      assert IsWhitespace('\r');
    } else {
      assert line[|line| - 1..] == " ";
    }
  }

  /** A time line has no line break and ends in `'s'`. */
  lemma TimeLineClean(t: string)
    requires PlainTime(t)
    ensures '\n' !in TimeLine(t) && !EndsWith(TimeLine(t), "\r")
  {
    var line := TimeLine(t);
    assert '\n' !in "Time: " && '\n' !in "ms";
    assert line[|line| - 1..] == "s";
  }

  lemma PrintedLines(a1: string, t1: string, a2: string, t2: string)
    requires PlainAnswer(a1) && PlainAnswer(a2) && PlainTime(t1) && PlainTime(t2)
    ensures Lines(Unlines(Printed(a1, t1, a2, t2))) == Printed(a1, t1, a2, t2)
  {
    AnswerLineClean("Part 1", a1);
    AnswerLineClean("Part 2", a2);
    TimeLineClean(t1);
    TimeLineClean(t2);
    LinesUnlines(Printed(a1, t1, a2, t2));
  }

  lemma ClassifyAllFour(l0: string, l1: string, l2: string, l3: string, partName: string, parseFloat: string -> Option<real>)
    ensures ClassifyAll([l0, l1, l2, l3], partName, parseFloat)
            == [Classify(l0, partName, parseFloat), Classify(l1, partName, parseFloat),
                Classify(l2, partName, parseFloat), Classify(l3, partName, parseFloat)]
  {
  }

  lemma ClassifyPrintedPart1(a1: string, t1: string, a2: string, t2: string, parseFloat: string -> Option<real>)
    requires PlainAnswer(a1) && PlainTime(t1) && PlainTime(t2)
    ensures ClassifyAll(Printed(a1, t1, a2, t2), "Part 1", parseFloat)
            == [Answer(a1), TimeSeen(parseFloat(t1)), Ignored, TimeSeen(parseFloat(t2))]
  {
    ClassifyAllFour(AnswerLine("Part 1", a1), TimeLine(t1), AnswerLine("Part 2", a2), TimeLine(t2), "Part 1", parseFloat);
    ClassifyAnswerLine("Part 1", a1, parseFloat);
    ClassifyTimeLine(t1, "Part 1", parseFloat);
    ClassifyOtherPartLine("Part 2", "Part 1", 5, a2, parseFloat);
    ClassifyTimeLine(t2, "Part 1", parseFloat);
  }

  lemma ClassifyPrintedPart2(a1: string, t1: string, a2: string, t2: string, parseFloat: string -> Option<real>)
    requires PlainAnswer(a2) && PlainTime(t1) && PlainTime(t2)
    ensures ClassifyAll(Printed(a1, t1, a2, t2), "Part 2", parseFloat)
            == [Ignored, TimeSeen(parseFloat(t1)), Answer(a2), TimeSeen(parseFloat(t2))]
  {
    ClassifyAllFour(AnswerLine("Part 1", a1), TimeLine(t1), AnswerLine("Part 2", a2), TimeLine(t2), "Part 2", parseFloat);
    ClassifyOtherPartLine("Part 1", "Part 2", 5, a1, parseFloat);
    ClassifyTimeLine(t1, "Part 2", parseFloat);
    ClassifyAnswerLine("Part 2", a2, parseFloat);
    ClassifyTimeLine(t2, "Part 2", parseFloat);
  }

  /** Part 1's lines as classified: its answer, then the two time lines around part 2's answer. */
  lemma ScanPart1Shape(a: string, t1: Option<real>, t2: Option<real>)
    ensures Scan([Answer(a), TimeSeen(t1), Ignored, TimeSeen(t2)]) == (Some(a), if t1.Some? then t1 else t2)
  {
    var ss := [Answer(a), TimeSeen(t1), Ignored, TimeSeen(t2)];
    assert ss[..3][..2][..1][..0] == [] && ss[..3][..2][..1] == [ss[0]];
    assert ss[..3][..2] == [ss[0], ss[1]] && ss[..3] == [ss[0], ss[1], ss[2]];
    FoldIsScan(ss);
  }

  /** Part 2's lines as classified: part 1's time line comes before its answer and does not count. */
  lemma ScanPart2Shape(a: string, t1: Option<real>, t2: Option<real>)
    ensures Scan([Ignored, TimeSeen(t1), Answer(a), TimeSeen(t2)]) == (Some(a), t2)
  {
    var ss := [Ignored, TimeSeen(t1), Answer(a), TimeSeen(t2)];
    assert ss[..3][..2][..1][..0] == [] && ss[..3][..2][..1] == [ss[0]];
    assert ss[..3][..2] == [ss[0], ss[1]] && ss[..3] == [ss[0], ss[1], ss[2]];
    FoldIsScan(ss);
  }

  /**
   * The day template prints `"Part 1: <a1>"`, `"Time: <t1>ms"`, `"Part 2: <a2>"`,
   * `"Time: <t2>ms"`. Reading that output back gives each part its own answer;
   * part 2 its own time; part 1 its own time, or, when that one does not parse,
   * part 2's (the first time line after the answer that parses).
   */
  lemma PrintedPartsReadBack(a1: string, t1: string, a2: string, t2: string, parseFloat: string -> Option<real>)
    requires PlainAnswer(a1) && PlainAnswer(a2) && PlainTime(t1) && PlainTime(t2)
    ensures var out := Unlines(Printed(a1, t1, a2, t2));
            && ParsePartSpec(out, "Part 1", parseFloat)
               == (Some(a1), if parseFloat(t1).Some? then parseFloat(t1) else parseFloat(t2))
            && ParsePartSpec(out, "Part 2", parseFloat) == (Some(a2), parseFloat(t2))
  {
    PrintedLines(a1, t1, a2, t2);
    ClassifyPrintedPart1(a1, t1, a2, t2, parseFloat);
    ScanPart1Shape(a1, parseFloat(t1), parseFloat(t2));
    ClassifyPrintedPart2(a1, t1, a2, t2, parseFloat);
    ScanPart2Shape(a2, parseFloat(t1), parseFloat(t2));
  }

  /** A part none of whose lines the template printed reads as nothing at all. */
  lemma UnprintedPartReadsNothing(a1: string, t1: string, a2: string, t2: string, partName: string, parseFloat: string -> Option<real>)
    requires PlainAnswer(a1) && PlainAnswer(a2) && PlainTime(t1) && PlainTime(t2)
    requires forall line :: line in Printed(a1, t1, a2, t2) ==> !StartsWith(line, partName)
    ensures ParsePartSpec(Unlines(Printed(a1, t1, a2, t2)), partName, parseFloat) == (None, None)
  {
    PrintedLines(a1, t1, a2, t2);
    NoAnswerLineNothingFound(Unlines(Printed(a1, t1, a2, t2)), partName, parseFloat);
  }

  lemma UnlinesFour(l0: string, l1: string, l2: string, l3: string)
    ensures Unlines([l0, l1, l2, l3]) == l0 + "\n" + l1 + "\n" + l2 + "\n" + l3 + "\n"
  {
    var ls := [l0, l1, l2, l3];
    assert ls[1..] == [l1, l2, l3] && ls[1..][1..] == [l2, l3];
    assert ls[1..][1..][1..] == [l3] && ls[1..][1..][1..][1..] == [];
    assert Unlines([l3]) == l3 + "\n";
    assert Unlines([l2, l3]) == l2 + "\n" + (l3 + "\n");
    assert Unlines([l1, l2, l3]) == l1 + "\n" + (l2 + "\n" + (l3 + "\n"));
  }

  lemma DocumentedText()
    ensures "Part 1: 42" + "\n" + "Time: 1.2345ms" + "\n" + "Part 2: 99" + "\n" + "Time: 0.5000ms" + "\n"
            == "Part 1: 42\nTime: 1.2345ms\nPart 2: 99\nTime: 0.5000ms\n"
  {
  }

  lemma DocumentedPrinted()
    ensures Printed("42", "1.2345", "99", "0.5000") == ["Part 1: 42", "Time: 1.2345ms", "Part 2: 99", "Time: 0.5000ms"]
  {
    assert AnswerLine("Part 1", "42") == "Part 1: 42";
    assert TimeLine("1.2345") == "Time: 1.2345ms";
    assert AnswerLine("Part 2", "99") == "Part 2: 99";
    assert TimeLine("0.5000") == "Time: 0.5000ms";
  }

  lemma DocumentedLines()
    ensures Unlines(Printed("42", "1.2345", "99", "0.5000"))
            == "Part 1: 42\nTime: 1.2345ms\nPart 2: 99\nTime: 0.5000ms\n"
  {
    DocumentedPrinted();
    UnlinesFour("Part 1: 42", "Time: 1.2345ms", "Part 2: 99", "Time: 0.5000ms");
    DocumentedText();
  }

  lemma DocumentedFieldsPlain()
    ensures PlainAnswer("42") && PlainAnswer("99") && PlainTime("1.2345") && PlainTime("0.5000")
  {
    assert "1.2345"[5..] == "5" && "0.5000"[5..] == "0";
  }

  lemma DocumentedPart3(parseFloat: string -> Option<real>)
    ensures ParsePartSpec(Unlines(Printed("42", "1.2345", "99", "0.5000")), "Part 3", parseFloat) == (None, None)
  {
    DocumentedFieldsPlain();
    DocumentedPrinted();
    OtherPartLine("Part 1", "Part 3", 5, "42");
    OtherPartLine("Part 2", "Part 3", 5, "99");
    TimeLineNotPart("1.2345", "Part 3");
    TimeLineNotPart("0.5000", "Part 3");
    UnprintedPartReadsNothing("42", "1.2345", "99", "0.5000", "Part 3", parseFloat);
  }

  /**
   * The documented run output: part 1 reads `("42", 1.2345)`, part 2 reads
   * `("99", 0.5)`, and a part the output does not mention reads nothing.
   */
  lemma DocumentedOutput(parseFloat: string -> Option<real>)
    requires parseFloat("1.2345") == Some(1.2345) && parseFloat("0.5000") == Some(0.5)
    ensures var out := "Part 1: 42\nTime: 1.2345ms\nPart 2: 99\nTime: 0.5000ms\n";
            && ParsePartSpec(out, "Part 1", parseFloat) == (Some("42"), Some(1.2345))
            && ParsePartSpec(out, "Part 2", parseFloat) == (Some("99"), Some(0.5))
            && ParsePartSpec(out, "Part 3", parseFloat) == (None, None)
  {
    DocumentedLines();
    DocumentedFieldsPlain();
    PrintedPartsReadBack("42", "1.2345", "99", "0.5000", parseFloat);
    DocumentedPart3(parseFloat);
  }
}
