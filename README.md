# mush core, modelled in Dafny

`mush` is a command-line helper for Advent of Code workspaces written in Rust.
This project models the three parts of it that hold its logic:

- **`create_file`** (`mush/src/utils.rs`). It writes a file only when nothing exists at the path yet.
- **`DayResult` and `parse_part`** (`mush/src/results.rs`).
  - `DayResult` holds a day's two answers and times.
  - `parse_part` reads one part's answer and time out of the text a day's program printed.
- **The three commands** (`mush/src/commands.rs`):
  - `initialize_workspace` writes the root `Cargo.toml`, `.gitignore` and `.env`.
  - `create_scaffold` lays out one day's package: directories, manifest, `src/main.rs` template, puzzle input and example file.
  - `run_all` runs every day 1 to 25 of a year with `cargo`, collects each day's answers and times, and summarises them: count, total, average, fastest and slowest day.

## How the model is built

- **The file system** is a value, `FileSystem.FsState`:
  - a map from paths to file text;
  - a set of directory paths;
  - a path is a sequence of components.
- **The working directory** is a class, `FileSystem.Disk`, whose fields the commands update.
- **Each step has a function and a method.**
  - `create_file` and `create_dir_all` are transition functions on `FsState` (`CreateFileStep`, `CreateDirAllStep`).
  - `Disk.CreateFile` and `Disk.CreateDirAll` are methods proved to perform exactly those transitions.
- **Each command is a method over a `Disk`,** proved equal to a specification function:
  - `InitializeWorkspace` against `InitializeWorkspaceSpec`;
  - `Scaffold` against `ScaffoldSpec`;
  - `RunAll` against `RunAllSpec`.
  - The lemmas state what the command promises about that function.
- **`create_scaffold` is stated for any program text.**
  - `ScaffoldWith` and `ScaffoldSteps` take the program text written to `src/main.rs` as a parameter.
  - `ScaffoldSpec` and `Scaffold` are these with the actual template, `MainTemplate`.
  - So every lemma about `ScaffoldWith` holds for the command as written.
- **`parse_part` is a method with the loop of the source** (`Results.ParsePart`).
  - It is proved equal to a declarative reading, `Results.ParsePartSpec`.
  - That reading says the last answer line gives the answer.
  - The first time line after the first answer line gives the time.
- **`run_all`'s loop is a method with a `for` loop** (`Commands.RunDays`).
  - The specification function `Gather` folds the outcome of each day.
  - `Commands.RunAll` adds the summary of what the loop gathered.
- **The outside world enters as parameters:**
  - `io: Path -> IoFault` says whether the operating system lets `File::create` / `write_all` at a path succeed, fail, or stop part way.
  - `fetch` is the download of a day's puzzle input (`fetch_input`).
  - `run` is the launch of `cargo run -p <package> --quiet [--release]`. It gives "could not start" or "exited, with success flag and standard output".
  - `parseFloat` is `str::parse::<f64>`.
- **Times are real numbers.**

## A defect in `create_scaffold`: an empty `input.txt` is never filled

Step 5 of `create_scaffold` is meant to write the downloaded puzzle input into `input.txt`:
- its comment says so (`mush/src/commands.rs:138`);
- so does the message printed after a successful download (`mush/src/commands.rs:149`).

The code downloads when `input.txt` is missing or empty (`mush/src/commands.rs:141`). It then hands the text to `create_file` (`mush/src/commands.rs:148`). But `create_file` writes only when nothing exists at the path (`mush/src/utils.rs:21`). So an empty `input.txt` stays empty after a successful download, and the message still claims the input was written.

The model follows the code. `ScaffoldProperties.ScaffoldEmptyInputStaysEmpty` states the defect.

## Model

| member | source | states |
|---|---|---|
| FileSystem.CreateFileStep | mush/src/utils.rs:20-34 | An existing path, file or directory, is left as it is with success. A missing path whose parent directory is absent cannot be created. Otherwise a healthy write creates the file with exactly the given text. No other file and no directory changes. |
| FileSystem.Disk.CreateFile | mush/src/utils.rs:20-34 | The working directory's new contents and the result are exactly the `create_file` transition of the old contents. |
| FileSystem.CreateFileIdempotent | mush/src/utils.rs:21-33 | After a successful `create_file`, a second one at the same path changes nothing and succeeds, whatever text or fault it meets. The file holds the text it had before, or the first call's text. |
| FileSystem.CreateFilePreservesValid | mush/src/utils.rs:21-25 | `create_file` keeps the tree well formed: no path is both a file and a directory, and everything sits in a directory. |
| FileSystem.CreateDirAllStep | mush/src/commands.rs:82-83 | `create_dir_all` fails exactly when a regular file stands on the way, and then changes nothing. Otherwise it adds every directory down to the path and leaves the files alone. |
| FileSystem.Disk.CreateDirAll | mush/src/commands.rs:82-83 | The loop that looks for a file on the way, then creates the directories, performs exactly the `create_dir_all` transition. |
| FileSystem.CreateDirAllPreservesValid | mush/src/commands.rs:82-83 | `create_dir_all` keeps the tree well formed. |
| FileSystem.FsState.ReadToString | mush/src/commands.rs:141 | `read_to_string` succeeds exactly on a regular file, and gives its text. |
| Results.TotalTimeSumsPresentTimes | mush/src/results.rs:12-14 | A day's total time is the sum of the part times its output had; a missing time adds nothing. |
| Results.DayResult.TotalTime | mush/src/results.rs:12-14 | With one part time missing, the total is the other part's time, or 0 when both are missing. |
| Results.Classify | mush/src/results.rs:23-36 | A line is an answer line exactly when it starts with the part name and has a colon. A line read as a time never starts with the part name and always starts with `Time:`. |
| Results.Scan | mush/src/results.rs:18-40 | The answer is missing exactly when no line is an answer line. A time is found only together with an answer. |
| Results.ScanAppend | mush/src/results.rs:22-36 | One more line: an answer line replaces the answer and keeps the time. A time line fills the time only when an answer is there and no time yet. |
| Results.FoldIsScan | mush/src/results.rs:22-39 | Reading the lines one by one from `(None, None)` gives exactly the declarative reading. |
| Results.ReadLine | mush/src/results.rs:23-36 | One pass of the loop body changes the two slots as that line's reading says. |
| Results.ParsePart | mush/src/results.rs:18-40 | `parse_part` returns the answer of the last answer line. It returns the time of the first parsable time line after the first answer line. |
| Strings.TrimSlice | mush/src/results.rs:26 | `trim` keeps one slice of its input and removes only whitespace before and after it. |
| Strings.TrimAround | mush/src/results.rs:26 | Whitespace around a trimmed text is exactly what `trim` removes. |
| Strings.SecondField | mush/src/results.rs:25 | `split(':').nth(1)` is missing exactly when there is no colon, and never contains a colon. |
| Strings.SecondFieldBetween | mush/src/results.rs:25 | The field is exactly the text between the first and second colon, or up to the end when there is one colon. |
| Strings.TrimEndMatches | mush/src/results.rs:31 | `trim_end_matches` gives a prefix of its input that no longer ends with the pattern. A text that does not end with the pattern is left as it is. |
| Strings.TrimEndMatchesCopies | mush/src/results.rs:31 | What `trim_end_matches` removes is a whole number of copies of the pattern. |
| Strings.TrimEndMatchesRepeat | mush/src/results.rs:31 | Any number of trailing copies of the pattern are removed, not only one. |
| Strings.Lines | mush/src/results.rs:22 | No line holds a line break, and only the empty text has no lines. |
| Strings.LinesUnlines | mush/src/results.rs:22 | `lines()` splits printed lines back into exactly those lines. |
| Strings.Pad2 | mush/src/commands.rs:75 | `{:02}` is all digits and denotes the number. It is exactly two digits, or longer with no leading zero. |
| Strings.DecimalRoundTrip | mush/src/commands.rs:74 | Reading back the decimal rendering of a number gives the number. |
| Strings.DecimalInjective | mush/src/commands.rs:77 | Different numbers render differently. |
| ParserProperties.NoAnswerLineNothingFound | mush/src/results.rs:23-28 | Without a line that starts with the part name and has a colon, `parse_part` finds neither an answer nor a time. |
| ParserProperties.LaterAnswerLineWins | mush/src/results.rs:23-27 | A later answer line replaces the answer with its trimmed second field and leaves the time as it was. |
| ParserProperties.PartLineNeverATime | mush/src/results.rs:23-28 | A line starting with the part name never supplies the time, even when it also starts with `Time:`. |
| ParserProperties.UnparsableTimeSkipped | mush/src/results.rs:32-34 | A time line whose number does not parse changes nothing. |
| ParserProperties.TimeBeforeAnswerIgnored | mush/src/results.rs:23-34 | A line other than an answer line, read before any answer, leaves both slots empty. |
| ParserProperties.ScanTimeKept | mush/src/results.rs:28 | The step behind `TimeNeverReplaced`, over each line's reading rather than the lines: once the time slot is filled, no later reading empties or changes it. |
| ParserProperties.TimeNeverReplaced | mush/src/results.rs:28 | Once a time is taken from the output's lines, no later line changes it. |
| ParserProperties.TimeTextStripsEveryMs | mush/src/results.rs:31 | A time field `" <t>ms"`, or with `ms` repeated, reads as exactly `t`. |
| ParserProperties.TimeTextKeepsSpaceBeforeMs | mush/src/results.rs:31 | There is no second trim after `ms` is removed: `" <t> ms"` reads as `t` followed by a space. |
| ParserProperties.ClassifyAnswerLine | mush/src/results.rs:23-27 | A line `"<part>: <a>"` gives the answer `a`. |
| ParserProperties.AnswerStopsAtSecondColon | mush/src/results.rs:25-26 | In an answer line the answer stops at the second colon. |
| ParserProperties.TimeLineText | mush/src/results.rs:31 | The field of a `"Time: <t>ms"` line cuts down to exactly `t`. |
| ParserProperties.ClassifyTimeLine | mush/src/results.rs:28-34 | A `"Time: <t>ms"` line gives the parsed value of `t` for a part whose name does not start with `T`, or nothing when `t` does not parse. |
| ParserProperties.ClassifyOtherPartLine | mush/src/results.rs:23 | Another part's answer line means nothing to this part. |
| ParserProperties.PrintedLines | mush/src/results.rs:22 | The four lines a day template prints are split back into exactly those four lines. |
| ParserProperties.PrintedPartsReadBack | mush/src/results.rs:18-40 | On a day template's output, each part reads back its own answer. Part 2 reads its own time. Part 1 reads its own time, or part 2's when its own does not parse. |
| ParserProperties.UnprintedPartReadsNothing | mush/src/results.rs:18-40 | A part name no printed line starts with reads as nothing at all. |
| ParserProperties.DocumentedOutput | mush/src/results.rs:18-40 | The output `Part 1: 42 / Time: 1.2345ms / Part 2: 99 / Time: 0.5000ms` reads `("42", 1.2345)` for part 1 and `("99", 0.5)` for part 2, and nothing for any other part. |
| Commands.DayDir | mush/src/commands.rs:75 | A day's directory is `day` followed by at least two digits that denote the day, with no `-`. |
| Commands.PackageName | mush/src/commands.rs:74 | The first `-` of a package name separates the day's directory name from the year's decimal rendering. |
| Commands.BasePath | mush/src/commands.rs:76-78 | A day's directory is `solutions/<year>/<day directory>`, the middle component being digits that denote the year. |
| CommandsProperties.DayDirExamples | mush/src/commands.rs:75 | Day 1 is directory `day01` and day 25 is `day25`. |
| CommandsProperties.NameExamples | mush/src/commands.rs:74 | Day 1 of 2024 is package `day01-2024`; day 25 of 2023 is `day25-2023`. |
| CommandsProperties.BasePathExample | mush/src/commands.rs:76-78 | Day 25 of 2023 lives under `solutions/2023/day25`. |
| CommandsProperties.DayDirInjective | mush/src/commands.rs:75 | Different days get different directories. |
| CommandsProperties.PackageNameInjective | mush/src/commands.rs:74 | Different (day, year) pairs never share a package name. |
| CommandsProperties.DayPathsDistinct | mush/src/commands.rs:76-79 | A day's four files are four different paths. None of them is a directory `create_dir_all` makes, and each sits in one it makes. |
| CommandsProperties.WorkspaceHasAllDays | mush/src/commands.rs:22-27 | The workspace manifest's members pattern is `solutions/*/*`. |
| Commands.InitializeWorkspace | mush/src/commands.rs:20-49 | The new working directory and result are the three `create_file` calls in order, stopping at the first error. |
| CommandsProperties.InitializeWorkspaceNonDestructive | mush/src/commands.rs:20-49 | `initialize_workspace` removes and rewrites nothing. It creates no directory and no file besides the three root files. |
| CommandsProperties.InitializeWorkspaceCreates | mush/src/commands.rs:20-49 | On success the three root files exist, and each one that was missing holds its template. In a well-formed directory it succeeds whenever the writes do. |
| CommandsProperties.InitializeWorkspaceIdempotent | mush/src/commands.rs:20-49 | Running it again after a success changes nothing and succeeds. |
| CommandsProperties.ManifestNamesPackage | mush/src/commands.rs:87-98 | A day's manifest contains `name = "<package>"`. |
| Commands.Scaffold | mush/src/commands.rs:71-175 | The new working directory and result are `create_scaffold`'s steps with the actual program template. |
| Commands.ScaffoldSteps | mush/src/commands.rs:82-168 | The directories, manifest, program, the input gate and the example file are done in order, stopping at the first error. |
| CommandsProperties.ScaffoldNonDestructive | mush/src/commands.rs:71-175 | `create_scaffold` removes and rewrites nothing. It creates only the directories down to `src` and the day's four files. |
| CommandsProperties.ScaffoldBlocked | mush/src/commands.rs:82-83 | When a file stands on the way to `src`, it fails with the directory error and changes nothing. |
| Commands.InputStep | mush/src/commands.rs:139-162 | An `input.txt` that exists but is not a regular file fails the step and changes nothing. The existing text is kept, untouched, exactly when `input.txt` holds text. A successful download or a failed one is reported only when that is what the download did. |
| ScaffoldProperties.ScaffoldInputOutcome | mush/src/commands.rs:139-162 | On success: the input is downloaded exactly when `input.txt` was missing or empty, and the result says which way. `input.txt` ends up a regular file. A missing one holds the download, or nothing when the download failed. |
| ScaffoldProperties.ScaffoldEmptyInputStaysEmpty | mush/src/commands.rs:141-148 | An empty `input.txt` stays empty, even after a successful download. |
| ScaffoldProperties.ScaffoldIgnoresFetch | mush/src/commands.rs:141 | When `input.txt` has text, the download makes no difference at all. |
| ScaffoldProperties.ScaffoldOkCreatesAll | mush/src/commands.rs:71-175 | After a success the directories, manifest, `src/main.rs` and `example.txt` exist, and `input.txt` is a regular file. |
| ScaffoldProperties.ScaffoldWritesTemplates | mush/src/commands.rs:87-136 | A success writes the manifest naming the day's package and the program template wherever those files were missing. |
| ScaffoldProperties.ScaffoldHealthyOk | mush/src/commands.rs:71-175 | It succeeds whenever no file is on the way to `src`, `input.txt` is not a directory, and the four writes are let through. |
| ScaffoldProperties.ScaffoldIdempotent | mush/src/commands.rs:71-175 | A second run after a success changes nothing and succeeds, whatever the writes and the download do the second time. |
| ScaffoldProperties.ScaffoldPreservesValid | mush/src/commands.rs:71-175 | The tree stays well formed, whether the command succeeds or stops half way. |
| Commands.OutcomeCases | mush/src/commands.rs:188-225 | A day is skipped exactly when its directory is missing or its process exits with failure. It ends the command exactly when its process cannot start. It is kept exactly when its process exits with success, and then holds the parts read from its output. |
| Commands.CargoArgs | mush/src/commands.rs:193-201 | The command line starts `run -p <package> --quiet`, and has `--release` exactly when asked. |
| Commands.DayResultOf | mush/src/commands.rs:215-225 | A day's result carries the day and, for each part, what `parse_part` reads from the output. A time is only ever there with an answer. |
| RunAllProperties.DayTotalOfParsedTimes | mush/src/commands.rs:216-225 | A day's total time is the sum of the part times read from its output, whichever were found. |
| Commands.RunDay | mush/src/commands.rs:182-225 | One pass of the loop gives that day's outcome. A missing directory or a failed exit is skipped. A process that cannot start is an error. A successful exit gives both parts read from its output. |
| Commands.Gather | mush/src/commands.rs:181-248 | A run through days `1..n` gathers at most `n` results. An error names a day in `1..n` whose process could not start. |
| Commands.RunDays | mush/src/commands.rs:179-248 | The loop's result is the gathering of days 1 to 25. |
| Commands.RunAll | mush/src/commands.rs:178-286 | The result is the gathering of days 1 to 25, then the summary of what was gathered. |
| Commands.GatherNext | mush/src/commands.rs:203-247 | After days before `n` went through: a process of day `n` that cannot start is the final error. Otherwise day `n` adds its result when it finished, and nothing when skipped. |
| Commands.GatherErrSticks | mush/src/commands.rs:203-205 | An error stays the result of every longer run. |
| Commands.FirstMinIndex | mush/src/commands.rs:258-260 | The fastest day has the least total, and every earlier day is strictly slower (`min_by` keeps the first on a tie). |
| Commands.LastMaxIndex | mush/src/commands.rs:261-263 | The slowest day has the greatest total, and every later day is strictly faster (`max_by` keeps the last on a tie). |
| Commands.Mean | mush/src/commands.rs:257 | The average times the count is the total. |
| Commands.Summarize | mush/src/commands.rs:251-263 | There is no summary exactly when nothing was gathered. Otherwise the count is the number of days, the total is the sum of their totals, and the average times the count is the total. |
| RunAllProperties.GatherSound | mush/src/commands.rs:181-248 | Every gathered result is one a day in range finished with. |
| RunAllProperties.GatherAscending | mush/src/commands.rs:181-248 | Gathered results come in strictly increasing day order, each day in range. |
| RunAllProperties.GatherComplete | mush/src/commands.rs:181-248 | Every finished day in range is gathered. |
| RunAllProperties.GatherOkIff | mush/src/commands.rs:203-205 | Gathering succeeds exactly when no day's process fails to start. |
| RunAllProperties.GatherErrFirst | mush/src/commands.rs:203-205 | The error names the first day whose process could not start. |
| RunAllProperties.RunAllOutcome | mush/src/commands.rs:181-248 | `run_all` fails exactly when some day's process cannot start, and then names the first such day. |
| RunAllProperties.RunAllReportSound | mush/src/commands.rs:188-247 | Each reported day is in range, its directory exists, its process exited with success, and it has the results its output shows. The days come in increasing order. |
| RunAllProperties.RunAllReportComplete | mush/src/commands.rs:207-247 | On success every day whose process exited with success is reported. |
| RunAllProperties.RunAllSummaryPresent | mush/src/commands.rs:251-254 | On success there is a summary exactly when some day finished. |
| RunAllProperties.SummarizeFastest | mush/src/commands.rs:258-260 | The fastest day is one of the gathered days. |
| RunAllProperties.SummarizeSlowest | mush/src/commands.rs:261-263 | The slowest day is one of the gathered days. |
| RunAllProperties.SummarizeAverageBetween | mush/src/commands.rs:256-263 | The average lies between the fastest and the slowest day's total time. |
| RunAllProperties.SummarizeTieExample | mush/src/commands.rs:258-263 | With two days of equal time, the first is the fastest and the second the slowest. |

## Left out

- Printing is not modelled: warnings, progress messages, per-day lines and the summary's `{:.4}` formatting. `run_all`'s `summary_only` only chooses what is printed, so it is not a parameter. The report's days and summary stand for what is printed.
- `fetch_input` (`mush/src/fetch.rs`) is the parameter `fetch`: the HTTP request, the session cookie and `.env` loading are not part of this model.
- `mush/src/main.rs`, the argument parsing and the `run` command for a single day, is not part of this model.
- The `cargo` process is the parameter `run`. Its effects on the file system (the build directory) are not modelled; the model assumes a run leaves the day directories as they were.
- `String::from_utf8_lossy`: standard output is taken to be text already.
- Commands.RunAll: times are real numbers, so `f64` rounding in the sum and the average is not modelled. Neither is the panic of `partial_cmp(..).unwrap()` on a NaN time.
- Strings.SecondField: states that the field has no colon and when it is missing, not where it starts. `Strings.SecondFieldBetween` pins the field down for texts built around the separators.
- Operating-system failures are the parameter `io`, one `IoFault` per path. Permissions, full disks and partial writes are not told apart.
- Commands.Scaffold: the lemmas about `create_scaffold` are stated for `ScaffoldWith` with any program text, and so hold for `Scaffold` itself. No lemma inspects the template's text.
- FileSystem.FsState.ReadToString: files hold text, so the read of `input.txt` (`mush/src/commands.rs:141`) fails only when the path is not a regular file. Invalid UTF-8 and a missing read permission are not modelled.
- ScaffoldProperties.ScaffoldHealthyOk: its success condition takes the read of an existing `input.txt` to succeed, for the reason given for `FsState.ReadToString`.
- FileSystem.CreateDirAllStep: models `create_dir_all` failing only when a file stands on the way. Other refusals are not modelled, because the model has no permission state.
