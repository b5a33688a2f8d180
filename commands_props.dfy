/**
 * What the commands promise: the names and paths a day gets, what
 * `initialize_workspace` and `create_scaffold` create and never touch, when
 * the puzzle input is downloaded, and which days `run_all` reports and how
 * it summarises them.
 */
module CommandsProperties {
  import opened Prelude
  import opened Strings
  import opened FileSystem
  import opened Results
  import opened Commands

  // ---------------------------------------------------------------------
  // Names and paths

  lemma DecimalExamples()
    ensures Decimal(1) == "1" && Decimal(25) == "25"
    ensures Decimal(2023) == "2023" && Decimal(2024) == "2024"
  {
    assert Decimal(2) == "2" && Decimal(20) == "20" && Decimal(202) == "202";
  }

  /** Day 1 is directory `day01` and day 25 is `day25`. */
  lemma DayDirExamples()
    ensures DayDir(1) == "day01" && DayDir(25) == "day25"
  {
    DecimalExamples();
    assert Pad2(1) == "0" + Decimal(1) && Pad2(25) == Decimal(25);
  }

  /** Day 1 of 2024 is package `day01-2024`; day 25 of 2023 is `day25-2023`. */
  lemma NameExamples()
    ensures PackageName(1, 2024) == "day01-2024"
    ensures PackageName(25, 2023) == "day25-2023"
  {
    DecimalExamples();
    DayDirExamples();
  }

  /** Day 25 of 2023 lives under `solutions/2023/day25`. */
  lemma BasePathExample()
    ensures BasePath(25, 2023) == ["solutions", "2023", "day25"]
  {
    DecimalExamples();
    DayDirExamples();
  }

  /** Different days get different directories. */
  lemma DayDirInjective(d1: U8, d2: U8)
    requires DayDir(d1) == DayDir(d2)
    ensures d1 == d2
  {
    assert DayDir(d1)[3..] == DayDir(d2)[3..];
  }

  /** Different (day, year) pairs never share a package name: the name tells both. */
  lemma PackageNameInjective(d1: U8, y1: U16, d2: U8, y2: U16)
    requires PackageName(d1, y1) == PackageName(d2, y2)
    ensures d1 == d2 && y1 == y2
  {
    assert |DayDir(d1)| == |DayDir(d2)|;
    DayDirInjective(d1, d2);
    DecimalInjective(y1, y2);
  }

  /** The four files of a day are four different paths, none of them a directory `create_dir_all` makes. */
  lemma DayPathsDistinct(day: U8, year: U16)
    ensures ManifestPath(day, year) !in Ancestry(SrcPath(day, year))
    ensures MainPath(day, year) !in Ancestry(SrcPath(day, year))
    ensures InputPath(day, year) !in Ancestry(SrcPath(day, year))
    ensures ExamplePath(day, year) !in Ancestry(SrcPath(day, year))
    ensures ManifestPath(day, year) != MainPath(day, year) && ManifestPath(day, year) != InputPath(day, year)
    ensures ManifestPath(day, year) != ExamplePath(day, year) && MainPath(day, year) != InputPath(day, year)
    ensures MainPath(day, year) != ExamplePath(day, year) && InputPath(day, year) != ExamplePath(day, year)
    ensures Parent(ManifestPath(day, year)) in Ancestry(SrcPath(day, year))
    ensures Parent(MainPath(day, year)) in Ancestry(SrcPath(day, year))
    ensures Parent(InputPath(day, year)) in Ancestry(SrcPath(day, year))
    ensures Parent(ExamplePath(day, year)) in Ancestry(SrcPath(day, year))
  {
    var src := SrcPath(day, year);
    assert src[..4] == src && src[..3] == BasePath(day, year);
    assert Parent(ManifestPath(day, year)) == src[..3];
    assert Parent(InputPath(day, year)) == src[..3];
    assert Parent(ExamplePath(day, year)) == src[..3];
    assert Parent(MainPath(day, year)) == src[..4];
    assert ManifestPath(day, year)[3] == "Cargo.toml" && InputPath(day, year)[3] == "input.txt";
    assert ExamplePath(day, year)[3] == "example.txt" && src[3] == "src";
  }

  // ---------------------------------------------------------------------
  // How a command changes the file system

  /**
   * From `s` to `s'` nothing was removed or rewritten: every directory and
   * every file of `s` is still there with the same text; the new directories
   * are among `newDirs` and the new files among `made`.
   */
  ghost predicate Grows(s: FsState, s': FsState, newDirs: set<Path>, made: set<Path>) {
    && s.dirs <= s'.dirs <= s.dirs + newDirs
    && (forall p :: p in s.files ==> p in s'.files && s'.files[p] == s.files[p])
    && (forall p :: p in s'.files && p !in s.files ==> p in made)
  }

  lemma GrowsTrans(s1: FsState, s2: FsState, s3: FsState, d1: set<Path>, m1: set<Path>, d2: set<Path>, m2: set<Path>)
    requires Grows(s1, s2, d1, m1) && Grows(s2, s3, d2, m2)
    ensures Grows(s1, s3, d1 + d2, m1 + m2)
  {
  }

  lemma CreateFileGrows(s: FsState, p: Path, content: string, fault: IoFault)
    ensures Grows(s, CreateFileStep(s, p, content, fault).0, {}, {p})
  {
  }

  lemma CreateDirAllGrows(s: FsState, p: Path)
    ensures Grows(s, CreateDirAllStep(s, p).0, Ancestry(p), {})
  {
  }

  // ---------------------------------------------------------------------
  // initialize_workspace

  /** The workspace manifest makes every day of every year a member. */
  lemma WorkspaceHasAllDays()
    ensures Contains(WorkspaceManifest, "solutions/*/*")
  {
    assert StartsWith(WorkspaceManifest[29..], "solutions/*/*");
  }

  /** `initialize_workspace` creates nothing but the three root files and changes no existing file. */
  lemma InitializeWorkspaceNonDestructive(s: FsState, io: Path -> IoFault)
    ensures Grows(s, InitializeWorkspaceSpec(s, io).0, {}, {["Cargo.toml"], [".gitignore"], [".env"]})
  {
    var (s1, r1) := CreateFileStep(s, ["Cargo.toml"], WorkspaceManifest, io(["Cargo.toml"]));
    var (s2, r2) := CreateFileStep(s1, [".gitignore"], GitIgnore, io([".gitignore"]));
    var (s3, r3) := CreateFileStep(s2, [".env"], EnvFile, io([".env"]));
    CreateFileGrows(s, ["Cargo.toml"], WorkspaceManifest, io(["Cargo.toml"]));
    CreateFileGrows(s1, [".gitignore"], GitIgnore, io([".gitignore"]));
    CreateFileGrows(s2, [".env"], EnvFile, io([".env"]));
    GrowsThree(s, s1, s2, s3, ["Cargo.toml"], [".gitignore"], [".env"]);
  }

  /** Three file creations in a row: every state along the way grows by at most those three files. */
  lemma GrowsThree(s: FsState, s1: FsState, s2: FsState, s3: FsState, a: Path, b: Path, c: Path)
    requires Grows(s, s1, {}, {a}) && Grows(s1, s2, {}, {b}) && Grows(s2, s3, {}, {c})
    ensures Grows(s, s1, {}, {a, b, c}) && Grows(s, s2, {}, {a, b, c}) && Grows(s, s3, {}, {a, b, c})
  {
    GrowsTrans(s, s1, s2, {}, {a}, {}, {b});
    GrowsTrans(s, s2, s3, {}, {a, b}, {}, {c});
  }

  /**
   * When `initialize_workspace` succeeds the three root files exist, and each
   * one that was missing holds its template; in a well-formed working
   * directory it succeeds whenever the writes do.
   */
  lemma InitializeWorkspaceCreates(s: FsState, io: Path -> IoFault)
    ensures var (s', r) := InitializeWorkspaceSpec(s, io);
            && (r.Ok? ==> s'.Exists(["Cargo.toml"]) && s'.Exists([".gitignore"]) && s'.Exists([".env"]))
            && (r.Ok? && !s.Exists(["Cargo.toml"]) ==> s'.files[["Cargo.toml"]] == WorkspaceManifest)
            && (r.Ok? && !s.Exists([".gitignore"]) ==> s'.files[[".gitignore"]] == GitIgnore)
            && (r.Ok? && !s.Exists([".env"]) ==> s'.files[[".env"]] == EnvFile)
            && ([] in s.dirs && io(["Cargo.toml"]) == Healthy && io([".gitignore"]) == Healthy && io([".env"]) == Healthy
                ==> r.Ok?)
  {
    assert Parent(["Cargo.toml"]) == [] && Parent([".gitignore"]) == [] && Parent([".env"]) == [];
    assert ["Cargo.toml"] != [".gitignore"] && ["Cargo.toml"] != [".env"] && [".gitignore"] != [".env"];
  }

  /** Running `initialize_workspace` again after it succeeded changes nothing and succeeds. */
  lemma InitializeWorkspaceIdempotent(s: FsState, io: Path -> IoFault, io': Path -> IoFault)
    requires InitializeWorkspaceSpec(s, io).1.Ok?
    ensures var s' := InitializeWorkspaceSpec(s, io).0;
            InitializeWorkspaceSpec(s', io') == (s', Ok(()))
  {
    InitializeWorkspaceCreates(s, io);
  }

  /** A day's manifest names its package: `name = "<package>"`. */
  lemma ManifestNamesPackage(name: string)
    ensures Contains(Manifest(name), "name = \"" + name + "\"")
  {
    var m := Manifest(name);
    assert ManifestHead == "[package]\n" + "name = \"";
    assert ManifestTail[0] == '"';
    assert m[10..][..|"name = \"" + name + "\""|] == "name = \"" + name + "\"";
  }

  // ---------------------------------------------------------------------
  // create_scaffold

  /** The four files `create_scaffold` may create. */
  function DayFiles(day: U8, year: U16): set<Path> {
    {ManifestPath(day, year), MainPath(day, year), InputPath(day, year), ExamplePath(day, year)}
  }

  lemma InputStepGrows(s: FsState, day: U8, year: U16, io: Path -> IoFault, fetch: (U8, U16) -> Result<string, FetchError>)
    ensures Grows(s, InputStep(s, day, year, io, fetch).0, {}, {InputPath(day, year)})
  {
  }

  lemma ExampleStepGrows(s: FsState, day: U8, year: U16, io: Path -> IoFault)
    ensures Grows(s, ExampleStep(s, day, year, io).0, {}, {ExamplePath(day, year)})
  {
  }

  lemma InputStageGrows(s: FsState, day: U8, year: U16, io: Path -> IoFault, fetch: (U8, U16) -> Result<string, FetchError>)
    ensures Grows(s, InputStage(s, day, year, io, fetch).0, {}, {InputPath(day, year), ExamplePath(day, year)})
  {
    var s1 := InputStep(s, day, year, io, fetch).0;
    InputStepGrows(s, day, year, io, fetch);
    ExampleStepGrows(s1, day, year, io);
    GrowsTrans(s, s1, ExampleStep(s1, day, year, io).0, {}, {InputPath(day, year)}, {}, {ExamplePath(day, year)});
  }

  lemma TemplateStageGrows(s: FsState, day: U8, year: U16, main: string, io: Path -> IoFault, fetch: (U8, U16) -> Result<string, FetchError>)
    ensures Grows(s, TemplateStage(s, day, year, main, io, fetch).0, {}, {MainPath(day, year), InputPath(day, year), ExamplePath(day, year)})
  {
    var p := MainPath(day, year);
    var s1 := CreateFileStep(s, p, main, io(p)).0;
    CreateFileGrows(s, p, main, io(p));
    InputStageGrows(s1, day, year, io, fetch);
    GrowsTrans(s, s1, InputStage(s1, day, year, io, fetch).0, {}, {p}, {}, {InputPath(day, year), ExamplePath(day, year)});
  }

  lemma ManifestStageGrows(s: FsState, day: U8, year: U16, main: string, io: Path -> IoFault, fetch: (U8, U16) -> Result<string, FetchError>)
    ensures Grows(s, ManifestStage(s, day, year, main, io, fetch).0, {}, DayFiles(day, year))
  {
    var p := ManifestPath(day, year);
    var s1 := CreateFileStep(s, p, Manifest(PackageName(day, year)), io(p)).0;
    CreateFileGrows(s, p, Manifest(PackageName(day, year)), io(p));
    TemplateStageGrows(s1, day, year, main, io, fetch);
    GrowsTrans(s, s1, TemplateStage(s1, day, year, main, io, fetch).0, {}, {p}, {},
               {MainPath(day, year), InputPath(day, year), ExamplePath(day, year)});
    assert {p} + {MainPath(day, year), InputPath(day, year), ExamplePath(day, year)} == DayFiles(day, year);
  }

  /**
   * `create_scaffold` never removes or rewrites anything: every existing file,
   * `input.txt` included, keeps its text; the only new directories are those
   * on the way to `src`, and the only new files are the day's four files.
   */
  lemma ScaffoldNonDestructive(s: FsState, day: U8, year: U16, main: string, io: Path -> IoFault,
                               fetch: (U8, U16) -> Result<string, FetchError>)
    ensures Grows(s, ScaffoldWith(s, day, year, main, io, fetch).0, Ancestry(SrcPath(day, year)), DayFiles(day, year))
  {
    var s1 := CreateDirAllStep(s, SrcPath(day, year)).0;
    CreateDirAllGrows(s, SrcPath(day, year));
    ManifestStageGrows(s1, day, year, main, io, fetch);
    GrowsTrans(s, s1, ManifestStage(s1, day, year, main, io, fetch).0, Ancestry(SrcPath(day, year)), {}, {}, DayFiles(day, year));
    assert Ancestry(SrcPath(day, year)) + {} == Ancestry(SrcPath(day, year));
    assert {} + DayFiles(day, year) == DayFiles(day, year);
  }

  /** When a file stands on the way to `src`, `create_scaffold` fails and changes nothing. */
  lemma ScaffoldBlocked(s: FsState, day: U8, year: U16, main: string, io: Path -> IoFault,
                        fetch: (U8, U16) -> Result<string, FetchError>)
    requires s.Blocked(SrcPath(day, year))
    ensures ScaffoldWith(s, day, year, main, io, fetch) == (s, Err(DirCreateFailed(SrcPath(day, year))))
  {
  }
}
