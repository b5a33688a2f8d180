/**
 * What one day's run printed: `DayResult`, its total time, and `parse_part`,
 * the line scanner that pulls a part's answer and its time out of the
 * program's standard output. Times are in milliseconds, as real numbers;
 * turning the text of a time into a number (Rust's `str::parse::<f64>`) is
 * the parameter `parseFloat`, which may refuse a text.
 */
module Results {
  import opened Prelude
  import opened Strings

  /** The answers and times of one day's two parts; `None` where the output did not have them. */
  datatype DayResult = DayResult(
    day: U8,
    part1Result: Option<string>,
    part1Time: Option<real>,
    part2Result: Option<string>,
    part2Time: Option<real>)
  {
    /** `DayResult::total_time`: the sum of the times that are there, a missing one counting as zero. */
    function TotalTime(): (t: real)
      ensures part1Time.None? ==> t == Unwrap(part2Time)
      ensures part2Time.None? ==> t == Unwrap(part1Time)
    {
      Unwrap(part1Time) + Unwrap(part2Time)
    }
  }

  /** Rust `unwrap_or(0.0)`. */
  function Unwrap(t: Option<real>): real {
    match t
    case Some(x) => x
    case None => 0.0
  }

  function Sum(xs: seq<real>): real {
    if xs == [] then 0.0 else Sum(xs[..|xs| - 1]) + xs[|xs| - 1]
  }

  function AsSeq(t: Option<real>): seq<real> {
    match t
    case Some(x) => [x]
    case None => []
  }

  /** The values of the options that hold one, in order. */
  function Present(ts: seq<Option<real>>): seq<real> {
    if ts == [] then [] else Present(ts[..|ts| - 1]) + AsSeq(ts[|ts| - 1])
  }

  /** The total time of a day is the sum of the times its output had, whichever they are. */
  lemma TotalTimeSumsPresentTimes(r: DayResult)
    ensures r.TotalTime() == Sum(Present([r.part1Time, r.part2Time]))
  {
    var a, b := r.part1Time, r.part2Time;
    var ts := [a, b];
    assert ts[..1] == [a] && [a][..0] == [];
    assert Present([a]) == [] + AsSeq(a) == AsSeq(a);
    var xs := AsSeq(a) + AsSeq(b);
    assert Present(ts) == xs;
    if |xs| == 2 {
      assert xs[..1] == [xs[0]] && [xs[0]][..0] == [];
      assert Sum(xs) == Sum([xs[0]]) + xs[1] == xs[0] + xs[1];
      assert xs[0] == Unwrap(a) && xs[1] == Unwrap(b);
    } else if |xs| == 1 {
      assert xs[..0] == [];
    }
  }

  /** What a single line of output means to `parse_part` looking for one part. */
  datatype Seen =
    | Answer(value: string)   // a line that starts with the part name and has a colon
    | TimeCandidate(t: real)  // a `"Time:"` line whose number text parses
    | Ignored                 // anything else

  /** The number text of a time field: trimmed, then every trailing `"ms"` removed, with no second trim. */
  function TimeText(field: string): string {
    TrimEndMatches(Trim(field), "ms")
  }

  /**
   * How `parse_part` reads one line. The part-name test comes first, so a line
   * that starts with the part name is never read as a time; the value is the
   * text between the first and second colon, trimmed.
   */
  function Classify(line: string, partName: string, parseFloat: string -> Option<real>): (r: Seen)
    ensures r.Answer? <==> StartsWith(line, partName) && ':' in line
    ensures r.TimeCandidate? ==> !StartsWith(line, partName) && StartsWith(line, "Time:")
  {
    if StartsWith(line, partName) then
      match SecondField(line, ':')
      case Some(value) => Answer(Trim(value))
      case None => Ignored
    else if StartsWith(line, "Time:") then
      match SecondField(line, ':')
      case Some(field) => (match parseFloat(TimeText(field)) case Some(t) => TimeCandidate(t) case None => Ignored)
      case None => Ignored
    else
      Ignored
  }

  function ClassifyAll(ls: seq<string>, partName: string, parseFloat: string -> Option<real>): (ss: seq<Seen>)
    ensures |ss| == |ls|
    ensures forall j :: 0 <= j < |ls| ==> ss[j] == Classify(ls[j], partName, parseFloat)
  {
    if ls == [] then [] else ClassifyAll(ls[..|ls| - 1], partName, parseFloat) + [Classify(ls[|ls| - 1], partName, parseFloat)]
  }

  /** Index of the last answer line, the one whose answer is kept. */
  function LastAnswer(ss: seq<Seen>): (r: Option<nat>)
    ensures r.Some? ==> r.value < |ss| && ss[r.value].Answer?
                        && forall j :: r.value < j < |ss| ==> !ss[j].Answer?
    ensures r.None? ==> forall j :: 0 <= j < |ss| ==> !ss[j].Answer?
  {
    if ss == [] then None
    else if ss[|ss| - 1].Answer? then Some(|ss| - 1)
    else LastAnswer(ss[..|ss| - 1])
  }

  /** Index of the first answer line: from there on the answer slot is filled. */
  function FirstAnswer(ss: seq<Seen>): (r: Option<nat>)
    ensures r.Some? ==> r.value < |ss| && ss[r.value].Answer?
                        && forall j :: 0 <= j < r.value ==> !ss[j].Answer?
    ensures r.None? ==> forall j :: 0 <= j < |ss| ==> !ss[j].Answer?
  {
    if ss == [] then None
    else match FirstAnswer(ss[..|ss| - 1])
      case Some(k) => Some(k)
      case None => if ss[|ss| - 1].Answer? then Some(|ss| - 1) else None
  }

  /** Index of the first time line after line `k`. */
  function FirstTimeAfter(ss: seq<Seen>, k: nat): (r: Option<nat>)
    ensures r.Some? ==> k < r.value < |ss| && ss[r.value].TimeCandidate?
                        && forall j :: k < j < r.value ==> !ss[j].TimeCandidate?
    ensures r.None? ==> forall j :: k < j < |ss| ==> !ss[j].TimeCandidate?
  {
    if ss == [] then None
    else match FirstTimeAfter(ss[..|ss| - 1], k)
      case Some(j) => Some(j)
      case None => if k < |ss| - 1 && ss[|ss| - 1].TimeCandidate? then Some(|ss| - 1) else None
  }

  /**
   * What `parse_part` finds in lines read as `ss`: the answer of the LAST
   * answer line, and the time of the FIRST time line after the FIRST answer
   * line.
   */
  function Scan(ss: seq<Seen>): (r: (Option<string>, Option<real>))
    ensures r.1.Some? ==> r.0.Some?
    ensures r.0.None? <==> forall j :: 0 <= j < |ss| ==> !ss[j].Answer?
  {
    var result := match LastAnswer(ss)
      case None => None
      case Some(i) => Some(ss[i].value);
    var time := match FirstAnswer(ss)
      case None => None
      case Some(k) =>
        match FirstTimeAfter(ss, k)
        case None => None
        case Some(j) => Some(ss[j].t);
    (result, time)
  }

  /** The outcome `parse_part(output, partName)` must have. */
  function ParsePartSpec(output: string, partName: string, parseFloat: string -> Option<real>): (Option<string>, Option<real>) {
    Scan(ClassifyAll(Lines(output), partName, parseFloat))
  }

  /**
   * The declarative reading agrees with the line-by-line one: a new answer
   * line replaces the answer, and a time line fills the time slot only when
   * an answer is already there and the slot is still empty.
   */
  lemma ScanAppend(ss: seq<Seen>, s: Seen)
    ensures Scan(ss + [s]).0 == if s.Answer? then Some(s.value) else Scan(ss).0
    ensures Scan(ss + [s]).1 ==
            if Scan(ss).1.None? && Scan(ss).0.Some? && s.TimeCandidate? then Some(s.t) else Scan(ss).1
  {
    var ss' := ss + [s];
    assert ss'[..|ss|] == ss;
    match FirstAnswer(ss)
    case Some(k) =>
      assert FirstAnswer(ss') == Some(k);
      assert FirstTimeAfter(ss', k) == if FirstTimeAfter(ss, k).Some? then FirstTimeAfter(ss, k)
                                        else if k < |ss| && s.TimeCandidate? then Some(|ss|) else None;
    case None =>
  }

  /** One line's effect on the two slots of `parse_part`. */
  function Step(slots: (Option<string>, Option<real>), s: Seen): (Option<string>, Option<real>) {
    match s
    case Answer(v) => (Some(v), slots.1)
    case TimeCandidate(t) => if slots.0.Some? && slots.1.None? then (slots.0, Some(t)) else slots
    case Ignored => slots
  }

  /** The slots after reading the lines `ss` one by one, from `(None, None)`. */
  function Fold(ss: seq<Seen>): (Option<string>, Option<real>) {
    if ss == [] then (None, None) else Step(Fold(ss[..|ss| - 1]), ss[|ss| - 1])
  }

  /** Reading line by line gives exactly the declarative outcome. */
  lemma {:induction false} FoldIsScan(ss: seq<Seen>)
    ensures Fold(ss) == Scan(ss)
  {
    if ss != [] {
      var init := ss[..|ss| - 1];
      assert init + [ss[|ss| - 1]] == ss;
      FoldIsScan(init);
      ScanAppend(init, ss[|ss| - 1]);
    }
  }

  /** `parse_part`: one pass over the lines of `output`, keeping an answer slot and a time slot. */
  method ParsePart(output: string, partName: string, parseFloat: string -> Option<real>)
    returns (result: Option<string>, time: Option<real>)
    ensures (result, time) == ParsePartSpec(output, partName, parseFloat)
  {
    var ls := Lines(output);
    ghost var ss := ClassifyAll(ls, partName, parseFloat);
    result, time := None, None;
    for i := 0 to |ls|
      invariant (result, time) == Fold(ss[..i])
    {
      assert ss[..i + 1][..i] == ss[..i];
      result, time := ReadLine(result, time, ls[i], partName, parseFloat);
    }
    assert ss[..|ls|] == ss;
    FoldIsScan(ss);
  }

  /** The body of the loop of `parse_part`: one line's effect on the two slots. */
  method ReadLine(result: Option<string>, time: Option<real>, line: string, partName: string,
                  parseFloat: string -> Option<real>)
    returns (result': Option<string>, time': Option<real>)
    ensures (result', time') == Step((result, time), Classify(line, partName, parseFloat))
  {
    result', time' := result, time;
    if StartsWith(line, partName) {
      var value := SecondField(line, ':');
      if value.Some? {
        result' := Some(Trim(value.value));
      }
    } else if StartsWith(line, "Time:") && result.Some? && time.None? {
      var field := SecondField(line, ':');
      if field.Some? {
        var t := parseFloat(TrimEndMatches(Trim(field.value), "ms"));
        if t.Some? {
          time' := t;
        }
      }
    }
  }
}
