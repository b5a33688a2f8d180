/**
 * The three commands of the tool: `initialize_workspace` (the workspace's
 * root files), `create_scaffold` (one day's package: directories, manifest,
 * program template, puzzle input and example file) and `run_all` (run every
 * day of a year with cargo, read each day's answers and times from its
 * output, and summarise). The file system is a `Disk`; the outside world
 * enters as parameters: `io` says how the operating system treats a write
 * to each path, `fetch` is the download of a day's puzzle input, `run` is
 * the launch of a `cargo` process with the given arguments, and
 * `parseFloat` is Rust's `str::parse::<f64>`.
 */
module Commands {
  import opened Prelude
  import opened Strings
  import opened FileSystem
  import opened Results

  // ---------------------------------------------------------------------
  // Names and paths of a day

  /**
   * `format!("day{:02}", day)`: the day's directory name, `"day"` followed by
   * at least two digits that tell the day, and no `'-'`.
   */
  function DayDir(day: U8): (r: string)
    ensures |r| >= 5 && r[..3] == "day"
    ensures AllDigits(r[3..]) && DigitsValue(r[3..]) == day
    ensures '-' !in r
  {
    var r := "day" + Pad2(day);
    assert r[3..] == Pad2(day);
    assert forall k :: 3 <= k < |r| ==> r[k] == Pad2(day)[k - 3];
    r
  }

  /**
   * `format!("day{:02}-{}", day, year)`: the day's cargo package name. Its
   * first `'-'` separates the day's directory name from the year.
   */
  function PackageName(day: U8, year: U16): (r: string)
    ensures IndexOf(r, '-') == Some(|DayDir(day)|)
    ensures r[..|DayDir(day)|] == DayDir(day) && r[|DayDir(day)| + 1..] == Decimal(year)
  {
    DashJoin(DayDir(day), Decimal(year));
    DayDir(day) + "-" + Decimal(year)
  }

  /** Joining a dash-free text to another with `'-'`: the first dash is the joint. */
  lemma DashJoin(a: string, b: string)
    requires '-' !in a
    ensures IndexOf(a + "-" + b, '-') == Some(|a|)
    ensures (a + "-" + b)[..|a|] == a && (a + "-" + b)[|a| + 1..] == b
  {
    var t := a + "-" + b;
    assert t[|a|] == '-' && t[..|a|] == a;
  }

  /** `solutions/<year>/day<NN>`: the year's directory tells the year, and the day's tells the day. */
  function BasePath(day: U8, year: U16): (r: Path)
    ensures |r| == 3 && r[0] == "solutions" && r[2] == DayDir(day)
    ensures AllDigits(r[1]) && DigitsValue(r[1]) == year
  {
    DecimalRoundTrip(year);
    ["solutions", Decimal(year), DayDir(day)]
  }

  function SrcPath(day: U8, year: U16): Path {
    BasePath(day, year) + ["src"]
  }

  function ManifestPath(day: U8, year: U16): Path {
    BasePath(day, year) + ["Cargo.toml"]
  }

  function MainPath(day: U8, year: U16): Path {
    SrcPath(day, year) + ["main.rs"]
  }

  function InputPath(day: U8, year: U16): Path {
    BasePath(day, year) + ["input.txt"]
  }

  function ExamplePath(day: U8, year: U16): Path {
    BasePath(day, year) + ["example.txt"]
  }

  // ---------------------------------------------------------------------
  // File contents

  /** The root `Cargo.toml`: a workspace whose members are every day of every year. */
  const WorkspaceManifest: string := @"[workspace]
members = [
    ""solutions/*/*""
]
resolver = ""2""
"

  const GitIgnore: string := @"/target
**/target
.env
.DS_Store
**/*.rs.bk
**/input.txt
"

  const EnvFile: string := @"AOC_SESSION=your_session_cookie_here
"

  /** The text of a day's `Cargo.toml` up to the package name. */
  const ManifestHead: string := @"[package]
name = """

  /** The text of a day's `Cargo.toml` after the package name. */
  const ManifestTail: string := "\"" + ManifestRest

  /** The lines of a day's `Cargo.toml` after the `name` line. */
  const ManifestRest: string := @"
version = ""0.1.0""
edition = ""2021""

[dependencies]
itertools = ""0.10.5""
regex = ""1.10.3""
"

  /** A day's `Cargo.toml`, naming the package `name`. */
  function Manifest(name: string): string {
    ManifestHead + name + ManifestTail
  }

  /** The day's program template: prints each part's answer, then its time in milliseconds. */
  const MainTemplate: string := @"fn main() {
    let input = include_str!(""../input.txt"");

    let start = std::time::Instant::now();
    println!(""Part 1: {}"", part1(input));
    println!(""Time: {:.4}ms"", start.elapsed().as_secs_f64() * 1000.0);

    let start = std::time::Instant::now();
    println!(""Part 2: {}"", part2(input));
    println!(""Time: {:.4}ms"", start.elapsed().as_secs_f64() * 1000.0);
}

fn part1(input: &str) -> usize {
    0
}

fn part2(input: &str) -> usize {
    0
}

#[cfg(test)]
mod tests {
    use super::*;

    #[test]
    fn test_part1_example() {
        let example_input = include_str!(""../example.txt"");
        assert_eq!(part1(example_input), 0);
    }
}
"

  // ---------------------------------------------------------------------
  // initialize_workspace

  /** `create_file` of the three root files in order, stopping at the first error. */
  function InitializeWorkspaceSpec(s: FsState, io: Path -> IoFault): (FsState, Result<(), FsError>) {
    var (s1, r1) := CreateFileStep(s, ["Cargo.toml"], WorkspaceManifest, io(["Cargo.toml"]));
    if r1.Err? then (s1, r1)
    else
      var (s2, r2) := CreateFileStep(s1, [".gitignore"], GitIgnore, io([".gitignore"]));
      if r2.Err? then (s2, r2)
      else CreateFileStep(s2, [".env"], EnvFile, io([".env"]))
  }

  /** `initialize_workspace`. */
  method InitializeWorkspace(disk: Disk, io: Path -> IoFault) returns (r: Result<(), FsError>)
    modifies disk
    ensures (disk.State(), r) == InitializeWorkspaceSpec(old(disk.State()), io)
  {
    r := disk.CreateFile(["Cargo.toml"], WorkspaceManifest, io(["Cargo.toml"]));
    if r.Err? {
      return;
    }
    r := disk.CreateFile([".gitignore"], GitIgnore, io([".gitignore"]));
    if r.Err? {
      return;
    }
    r := disk.CreateFile([".env"], EnvFile, io([".env"]));
  }

  // ---------------------------------------------------------------------
  // create_scaffold

  /** Why downloading the puzzle input failed (no session cookie, a refused request); its text is only printed. */
  datatype FetchError = FetchError

  /** What `create_scaffold` did about `input.txt`. */
  datatype InputAction =
    | Fetched       // the download succeeded and its text was handed to `create_file`
    | FetchFailed   // the download failed and an empty text was handed to `create_file`
    | KeptExisting  // the file already had text: no download

  /**
   * Step 5 of `create_scaffold`: download the input when `input.txt` is
   * missing or empty, and hand the download (or, when it failed, an empty
   * text) to `create_file`. Reading an existing `input.txt` that is not a
   * regular file fails the command.
   */
  function InputStep(s: FsState, day: U8, year: U16, io: Path -> IoFault,
                     fetch: (U8, U16) -> Result<string, FetchError>): (r: (FsState, Result<InputAction, FsError>))
    ensures s.Exists(InputPath(day, year)) && InputPath(day, year) !in s.files
            ==> r == (s, Err(ReadFailed(InputPath(day, year))))
    ensures r.1 == Ok(KeptExisting) <==> InputPath(day, year) in s.files && s.files[InputPath(day, year)] != ""
    ensures r.1 == Ok(KeptExisting) ==> r.0 == s
    ensures r.1 == Ok(Fetched) ==> fetch(day, year).Ok?
    ensures r.1 == Ok(FetchFailed) ==> fetch(day, year).Err?
  {
    var p := InputPath(day, year);
    if s.Exists(p) && s.ReadToString(p).Err? then (s, Err(s.ReadToString(p).error))
    else if s.Exists(p) && s.ReadToString(p).value != "" then (s, Ok(KeptExisting))
    else match fetch(day, year)
      case Ok(data) =>
        var (s', r) := CreateFileStep(s, p, data, io(p));
        (s', if r.Ok? then Ok(Fetched) else Err(r.error))
      case Err(_) =>
        var (s', r) := CreateFileStep(s, p, "", io(p));
        (s', if r.Ok? then Ok(FetchFailed) else Err(r.error))
  }

  /** Step 6 of `create_scaffold`: an empty `example.txt` when none exists. */
  function ExampleStep(s: FsState, day: U8, year: U16, io: Path -> IoFault): (FsState, Result<(), FsError>) {
    var p := ExamplePath(day, year);
    if !s.Exists(p) then CreateFileStep(s, p, "", io(p)) else (s, Ok(()))
  }

  /** Steps 5 and 6 of `create_scaffold`: the input, then the example file. */
  function InputStage(s: FsState, day: U8, year: U16, io: Path -> IoFault,
                      fetch: (U8, U16) -> Result<string, FetchError>): (FsState, Result<InputAction, FsError>) {
    var (s1, r1) := InputStep(s, day, year, io, fetch);
    if r1.Err? then (s1, r1)
    else
      var (s2, r2) := ExampleStep(s1, day, year, io);
      if r2.Err? then (s2, Err(r2.error)) else (s2, r1)
  }

  /** Step 4 of `create_scaffold`, the program `main`, then the rest. */
  function TemplateStage(s: FsState, day: U8, year: U16, main: string, io: Path -> IoFault,
                         fetch: (U8, U16) -> Result<string, FetchError>): (FsState, Result<InputAction, FsError>) {
    var p := MainPath(day, year);
    var (s1, r1) := CreateFileStep(s, p, main, io(p));
    if r1.Err? then (s1, Err(r1.error)) else InputStage(s1, day, year, io, fetch)
  }

  /** Step 3 of `create_scaffold`, the day's manifest, then the rest. */
  function ManifestStage(s: FsState, day: U8, year: U16, main: string, io: Path -> IoFault,
                         fetch: (U8, U16) -> Result<string, FetchError>): (FsState, Result<InputAction, FsError>) {
    var p := ManifestPath(day, year);
    var (s1, r1) := CreateFileStep(s, p, Manifest(PackageName(day, year)), io(p));
    if r1.Err? then (s1, Err(r1.error)) else TemplateStage(s1, day, year, main, io, fetch)
  }

  /**
   * The steps of `create_scaffold(day, year)` as a transition, with `main` as
   * the program written to `src/main.rs`: the directories, then each file in
   * turn, stopping at the first error.
   */
  function ScaffoldWith(s: FsState, day: U8, year: U16, main: string, io: Path -> IoFault,
                        fetch: (U8, U16) -> Result<string, FetchError>): (FsState, Result<InputAction, FsError>) {
    var (s1, r1) := CreateDirAllStep(s, SrcPath(day, year));
    if r1.Err? then (s1, Err(r1.error)) else ManifestStage(s1, day, year, main, io, fetch)
  }

  /** `create_scaffold(day, year)` as a transition: it writes the program template. */
  function ScaffoldSpec(s: FsState, day: U8, year: U16, io: Path -> IoFault,
                        fetch: (U8, U16) -> Result<string, FetchError>): (FsState, Result<InputAction, FsError>) {
    ScaffoldWith(s, day, year, MainTemplate, io, fetch)
  }

  /** `create_scaffold`. */
  method Scaffold(disk: Disk, day: U8, year: U16, io: Path -> IoFault,
                  fetch: (U8, U16) -> Result<string, FetchError>) returns (r: Result<InputAction, FsError>)
    modifies disk
    ensures (disk.State(), r) == ScaffoldSpec(old(disk.State()), day, year, io, fetch)
  {
    r := ScaffoldSteps(disk, day, year, MainTemplate, io, fetch);
  }

  /** The steps of `create_scaffold`, writing `main` as the program. */
  method ScaffoldSteps(disk: Disk, day: U8, year: U16, main: string, io: Path -> IoFault,
                       fetch: (U8, U16) -> Result<string, FetchError>) returns (r: Result<InputAction, FsError>)
    modifies disk
    ensures (disk.State(), r) == ScaffoldWith(old(disk.State()), day, year, main, io, fetch)
  {
    var src := SrcPath(day, year);
    var made := disk.CreateDirAll(src);
    if made.Err? {
      return Err(made.error);
    }
    var manifest := ManifestPath(day, year);
    var wrote := disk.CreateFile(manifest, Manifest(PackageName(day, year)), io(manifest));
    if wrote.Err? {
      return Err(wrote.error);
    }
    var program := MainPath(day, year);
    wrote := disk.CreateFile(program, main, io(program));
    if wrote.Err? {
      return Err(wrote.error);
    }

    var input := InputPath(day, year);
    var wanted := !disk.Exists(input);
    if !wanted {
      var read := disk.State().ReadToString(input);
      if read.Err? {
        return Err(read.error);
      }
      wanted := read.value == "";
    }
    if wanted {
      match fetch(day, year) {
        case Ok(data) =>
          wrote := disk.CreateFile(input, data, io(input));
          r := Ok(Fetched);
        case Err(_) =>
          wrote := disk.CreateFile(input, "", io(input));
          r := Ok(FetchFailed);
      }
      if wrote.Err? {
        return Err(wrote.error);
      }
    } else {
      r := Ok(KeptExisting);
    }

    var example := ExamplePath(day, year);
    if !disk.Exists(example) {
      wrote := disk.CreateFile(example, "", io(example));
      if wrote.Err? {
        return Err(wrote.error);
      }
    }
  }

  // ---------------------------------------------------------------------
  // run_all

  /** What launching `cargo` gave: the process could not be started, or it ran and exited. */
  datatype Launch = LaunchFailed | Exited(success: bool, stdout: string)

  /** `run_all` stops at the first day whose `cargo` process could not be started. */
  datatype RunError = LaunchError(day: U8)

  /** `cargo run -p <package> --quiet`, with `--release` when asked. */
  function CargoArgs(day: U8, year: U16, release: bool): (r: seq<string>)
    ensures |r| >= 4 && r[..4] == ["run", "-p", PackageName(day, year), "--quiet"]
    ensures "--release" in r <==> release
  {
    var name := PackageName(day, year);
    assert name[0] == DayDir(day)[0] == 'd';
    ["run", "-p", name, "--quiet"] + (if release then ["--release"] else [])
  }

  /**
   * A day's results, read from its standard output: each part's answer and
   * time as `parse_part` finds them, a time only ever next to an answer.
   */
  function DayResultOf(day: U8, stdout: string, parseFloat: string -> Option<real>): (r: DayResult)
    ensures r.day == day
    ensures (r.part1Result, r.part1Time) == ParsePartSpec(stdout, "Part 1", parseFloat)
    ensures (r.part2Result, r.part2Time) == ParsePartSpec(stdout, "Part 2", parseFloat)
    ensures r.part1Time.Some? ==> r.part1Result.Some?
    ensures r.part2Time.Some? ==> r.part2Result.Some?
  {
    var (r1, t1) := ParsePartSpec(stdout, "Part 1", parseFloat);
    var (r2, t2) := ParsePartSpec(stdout, "Part 2", parseFloat);
    DayResult(day, r1, t1, r2, t2)
  }

  /** The last day of an Advent of Code year: `run_all` goes through days `1..LastDay`. */
  const LastDay: nat := 25

  /** What one pass of `run_all`'s loop comes to for a day. */
  datatype DayOutcome =
    | Missing                    // the day's directory does not exist: skipped
    | ExitFailure                // the process ran and exited with failure: skipped
    | LaunchFailure              // the process could not be started: the command fails
    | Finished(result: DayResult) // the process exited with success: its results are kept

  /** The pass of `run_all`'s loop for day `d`. */
  function Outcome(s: FsState, year: U16, release: bool, run: seq<string> -> Launch,
                   parseFloat: string -> Option<real>, d: U8): DayOutcome
  {
    if !s.Exists(BasePath(d, year)) then Missing
    else match run(CargoArgs(d, year, release))
      case LaunchFailed => LaunchFailure
      case Exited(success, stdout) =>
        if success then Finished(DayResultOf(d, stdout, parseFloat)) else ExitFailure
  }

  /**
   * A day is skipped when its directory is missing or its process fails,
   * ends the command when its process cannot be started, and otherwise
   * contributes both parts read from the process's output.
   */
  lemma OutcomeCases(s: FsState, year: U16, release: bool, run: seq<string> -> Launch,
                     parseFloat: string -> Option<real>, d: U8)
    ensures var r := Outcome(s, year, release, run, parseFloat, d);
            var there, launch := s.Exists(BasePath(d, year)), run(CargoArgs(d, year, release));
            && (r.Missing? <==> !there)
            && (r.LaunchFailure? <==> there && launch.LaunchFailed?)
            && (r.ExitFailure? <==> there && launch.Exited? && !launch.success)
            && (r.Finished? <==> there && launch.Exited? && launch.success)
            && (r.Finished? ==> r.result == DayResultOf(d, launch.stdout, parseFloat))
  {
  }

  /** The outcome of every day, for a given file system, year and pair of oracles. */
  function Outcomes(s: FsState, year: U16, release: bool, run: seq<string> -> Launch,
                    parseFloat: string -> Option<real>): U8 -> DayOutcome {
    (d: U8) => Outcome(s, year, release, run, parseFloat, d)
  }

  /**
   * The results gathered after days `1..n`, day `d` coming to `outcome(d)`:
   * a skipped day adds nothing, and the first day whose process cannot be
   * started ends the command with an error.
   */
  function Gather(outcome: U8 -> DayOutcome, n: nat): (r: Result<seq<DayResult>, RunError>)
    requires n <= LastDay
    ensures r.Ok? ==> |r.value| <= n
    ensures r.Err? ==> 1 <= r.error.day <= n && outcome(r.error.day).LaunchFailure?
  {
    if n == 0 then Ok([])
    else match Gather(outcome, n - 1)
      case Err(e) => Err(e)
      case Ok(rs) =>
        match outcome(n)
        case LaunchFailure => Err(LaunchError(n))
        case Finished(r) => Ok(rs + [r])
        case _ => Ok(rs)
  }

  /** The closing summary: how many days completed, their total and average time, and the fastest and slowest day. */
  datatype Summary = Summary(completed: nat, total: real, average: real, fastest: DayResult, slowest: DayResult)

  /** What `run_all` reports: each completed day in order, and the summary when there is one. */
  datatype Report = Report(days: seq<DayResult>, summary: Option<Summary>)

  function Totals(rs: seq<DayResult>): (ts: seq<real>)
    ensures |ts| == |rs| && forall i :: 0 <= i < |rs| ==> ts[i] == rs[i].TotalTime()
  {
    seq(|rs|, i requires 0 <= i < |rs| => rs[i].TotalTime())
  }

  /** `Iterator::min_by`: on a tie the element met first is kept. */
  function FirstMinIndex(ts: seq<real>): (k: nat)
    requires ts != []
    ensures k < |ts|
    ensures forall j :: 0 <= j < |ts| ==> ts[k] <= ts[j]
    ensures forall j :: 0 <= j < k ==> ts[j] > ts[k]
  {
    if |ts| == 1 then 0
    else
      var k := FirstMinIndex(ts[..|ts| - 1]);
      if ts[|ts| - 1] < ts[k] then |ts| - 1 else k
  }

  /** `Iterator::max_by`: on a tie the element met last is kept. */
  function LastMaxIndex(ts: seq<real>): (k: nat)
    requires ts != []
    ensures k < |ts|
    ensures forall j :: 0 <= j < |ts| ==> ts[j] <= ts[k]
    ensures forall j :: k < j < |ts| ==> ts[j] < ts[k]
  {
    if |ts| == 1 then 0
    else
      var k := LastMaxIndex(ts[..|ts| - 1]);
      if ts[k] > ts[|ts| - 1] then k else |ts| - 1
  }

  /** The average of `count` values adding up to `total`. */
  function Mean(total: real, count: nat): (m: real)
    requires count > 0
    ensures m * (count as real) == total
  {
    total / (count as real)
  }

  /** The summary of the gathered results; none when no day completed. */
  function Summarize(rs: seq<DayResult>): (r: Option<Summary>)
    ensures r.None? <==> rs == []
    ensures r.Some? ==> r.value.completed == |rs| && r.value.total == Sum(Totals(rs))
                        && r.value.average * (|rs| as real) == r.value.total
  {
    if rs == [] then None
    else
      var ts := Totals(rs);
      var total := Sum(ts);
      Some(Summary(|rs|, total, Mean(total, |rs|), rs[FirstMinIndex(ts)], rs[LastMaxIndex(ts)]))
  }

  /** `run_all(year, release, _)`: every day from 1 to `LastDay`, then the summary. */
  function RunAllSpec(s: FsState, year: U16, release: bool, run: seq<string> -> Launch,
                      parseFloat: string -> Option<real>): Result<Report, RunError> {
    match Gather(Outcomes(s, year, release, run, parseFloat), LastDay)
    case Err(e) => Err(e)
    case Ok(rs) => Ok(Report(rs, Summarize(rs)))
  }

  /** Once a day's process cannot be started, every later prefix of the run ends with the same error. */
  lemma {:induction false} GatherErrSticks(outcome: U8 -> DayOutcome, k: nat, n: nat)
    requires k <= n <= LastDay && Gather(outcome, k).Err?
    ensures Gather(outcome, n) == Gather(outcome, k)
    decreases n - k
  {
    if k < n {
      GatherErrSticks(outcome, k + 1, n);
    }
  }

  /** One more day: the error of a process that cannot start is final; otherwise a finished day's results are added. */
  lemma GatherNext(outcome: U8 -> DayOutcome, n: nat, rs: seq<DayResult>)
    requires 1 <= n <= LastDay && Gather(outcome, n - 1) == Ok(rs)
    ensures outcome(n).LaunchFailure? ==> Gather(outcome, LastDay) == Err(LaunchError(n))
    ensures !outcome(n).LaunchFailure? ==>
              Gather(outcome, n) == Ok(if outcome(n).Finished? then rs + [outcome(n).result] else rs)
  {
    if outcome(n).LaunchFailure? {
      GatherErrSticks(outcome, n, LastDay);
    }
  }

  /** The loop of `run_all`: runs each day's package in turn and gathers the results. */
  method RunDays(disk: Disk, year: U16, release: bool, run: seq<string> -> Launch,
                 parseFloat: string -> Option<real>) returns (g: Result<seq<DayResult>, RunError>)
    ensures g == Gather(Outcomes(disk.State(), year, release, run, parseFloat), LastDay)
  {
    ghost var outcome := Outcomes(disk.State(), year, release, run, parseFloat);
    var results: seq<DayResult> := [];
    for day := 1 to LastDay + 1
      invariant Gather(outcome, day - 1) == Ok(results)
    {
      var o := RunDay(disk, day, year, release, run, parseFloat);
      assert o == outcome(day);
      GatherNext(outcome, day, results);
      if o.LaunchFailure? {
        return Err(LaunchError(day));
      }
      if o.Finished? {
        results := results + [o.result];
      }
    }
    g := Ok(results);
  }

  /** `run_all`: gathers every day's results, then summarises them. */
  method RunAll(disk: Disk, year: U16, release: bool, run: seq<string> -> Launch,
                parseFloat: string -> Option<real>) returns (r: Result<Report, RunError>)
    ensures r == RunAllSpec(disk.State(), year, release, run, parseFloat)
  {
    var g := RunDays(disk, year, release, run, parseFloat);
    match g
    case Err(e) =>
      r := Err(e);
    case Ok(results) =>
      r := Ok(Report(results, Summarize(results)));
  }

  /** One pass of the loop of `run_all`: what becomes of `day`. */
  method RunDay(disk: Disk, day: U8, year: U16, release: bool, run: seq<string> -> Launch,
                parseFloat: string -> Option<real>) returns (o: DayOutcome)
    ensures o == Outcome(disk.State(), year, release, run, parseFloat, day)
  {
    if !disk.Exists(BasePath(day, year)) {
      return Missing;
    }
    var output := run(CargoArgs(day, year, release));
    if output.LaunchFailed? {
      return LaunchFailure;
    }
    if !output.success {
      return ExitFailure;
    }
    var part1Result, part1Time := ParsePart(output.stdout, "Part 1", parseFloat);
    var part2Result, part2Time := ParsePart(output.stdout, "Part 2", parseFloat);
    o := Finished(DayResult(day, part1Result, part1Time, part2Result, part2Time));
  }
}
