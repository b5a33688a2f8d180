/**
 * What `create_scaffold` promises beyond never destroying anything: what a
 * successful run leaves behind, when it is bound to succeed, when the puzzle
 * input is downloaded and what becomes of it, and that a second run changes
 * nothing. Each property is proved stage by stage, from the last step of the
 * command back to the first.
 */
module ScaffoldProperties {
  import opened Prelude
  import opened FileSystem
  import opened Commands
  import opened CommandsProperties

  /** `input.txt` is a regular file with text in it: the case in which nothing is downloaded. */
  predicate HasInput(s: FsState, p: Path) {
    p in s.files && s.files[p] != ""
  }

  /** What `create_scaffold` hands to `create_file` for a missing `input.txt`. */
  function FetchedText(f: Result<string, FetchError>): string {
    if f.Ok? then f.value else ""
  }

  function FreshAction(f: Result<string, FetchError>): InputAction {
    if f.Ok? then Fetched else FetchFailed
  }

  /**
   * How a successful run from `s` to `s'` dealt with `input.txt`: it ends up a
   * regular file; the download is skipped exactly when the file already had
   * text; and a file that was not there holds the download, or nothing when
   * the download failed.
   */
  ghost predicate InputOutcome(s: FsState, day: U8, year: U16, fetch: (U8, U16) -> Result<string, FetchError>,
                               s': FsState, r: Result<InputAction, FsError>) {
    var p := InputPath(day, year);
    r.Ok? ==>
      && p in s'.files
      && (r.value.KeptExisting? <==> HasInput(s, p))
      && (r.value.Fetched? ==> fetch(day, year).Ok?)
      && (r.value.FetchFailed? ==> fetch(day, year).Err?)
      && (p !in s.files ==> r.value == FreshAction(fetch(day, year)) && s'.files[p] == FetchedText(fetch(day, year)))
  }

  // ---------------------------------------------------------------------
  // The input gate

  lemma InputStageOutcome(s: FsState, day: U8, year: U16, io: Path -> IoFault,
                          fetch: (U8, U16) -> Result<string, FetchError>)
    ensures var (s', r) := InputStage(s, day, year, io, fetch); InputOutcome(s, day, year, fetch, s', r)
  {
    DayPathsDistinct(day, year);
  }

  lemma TemplateStageOutcome(s: FsState, day: U8, year: U16, main: string, io: Path -> IoFault,
                             fetch: (U8, U16) -> Result<string, FetchError>)
    ensures var (s', r) := TemplateStage(s, day, year, main, io, fetch); InputOutcome(s, day, year, fetch, s', r)
  {
    var p := MainPath(day, year);
    var s1 := CreateFileStep(s, p, main, io(p)).0;
    DayPathsDistinct(day, year);
    InputStageOutcome(s1, day, year, io, fetch);
    assert HasInput(s, InputPath(day, year)) == HasInput(s1, InputPath(day, year));
  }

  lemma ManifestStageOutcome(s: FsState, day: U8, year: U16, main: string, io: Path -> IoFault,
                             fetch: (U8, U16) -> Result<string, FetchError>)
    ensures var (s', r) := ManifestStage(s, day, year, main, io, fetch); InputOutcome(s, day, year, fetch, s', r)
  {
    var p := ManifestPath(day, year);
    var s1 := CreateFileStep(s, p, Manifest(PackageName(day, year)), io(p)).0;
    DayPathsDistinct(day, year);
    TemplateStageOutcome(s1, day, year, main, io, fetch);
    assert HasInput(s, InputPath(day, year)) == HasInput(s1, InputPath(day, year));
  }

  /**
   * The download gate of `create_scaffold`: a successful run downloads the
   * input exactly when `input.txt` was missing or empty, reports which way
   * the download went, and writes a missing `input.txt` with the download,
   * or empty when the download failed, without failing itself.
   */
  lemma ScaffoldInputOutcome(s: FsState, day: U8, year: U16, main: string, io: Path -> IoFault,
                             fetch: (U8, U16) -> Result<string, FetchError>)
    requires ScaffoldWith(s, day, year, main, io, fetch).1.Ok?
    ensures var (s', r) := ScaffoldWith(s, day, year, main, io, fetch);
            var p := InputPath(day, year);
            && p in s'.files
            && (r.value.KeptExisting? <==> HasInput(s, p))
            && (r.value.Fetched? ==> fetch(day, year).Ok?)
            && (r.value.FetchFailed? ==> fetch(day, year).Err?)
            && (p !in s.files ==> r.value == FreshAction(fetch(day, year)) && s'.files[p] == FetchedText(fetch(day, year)))
  {
    var s1 := CreateDirAllStep(s, SrcPath(day, year)).0;
    ManifestStageOutcome(s1, day, year, main, io, fetch);
    assert HasInput(s, InputPath(day, year)) == HasInput(s1, InputPath(day, year));
  }

  /**
   * An `input.txt` that exists but is empty is downloaded again on every run,
   * and stays empty: `create_file` does not overwrite it.
   */
  lemma ScaffoldEmptyInputStaysEmpty(s: FsState, day: U8, year: U16, main: string, io: Path -> IoFault,
                                     fetch: (U8, U16) -> Result<string, FetchError>)
    requires InputPath(day, year) in s.files && s.files[InputPath(day, year)] == ""
    ensures var (s', r) := ScaffoldWith(s, day, year, main, io, fetch);
            && InputPath(day, year) in s'.files && s'.files[InputPath(day, year)] == ""
            && (r.Ok? ==> r.value == FreshAction(fetch(day, year)))
  {
    ScaffoldNonDestructive(s, day, year, main, io, fetch);
    if ScaffoldWith(s, day, year, main, io, fetch).1.Ok? {
      ScaffoldInputOutcome(s, day, year, main, io, fetch);
    }
  }

  // ---------------------------------------------------------------------
  // The download is not consulted when the input has text

  lemma InputStageIgnoresFetch(s: FsState, day: U8, year: U16, io: Path -> IoFault,
                               fetch: (U8, U16) -> Result<string, FetchError>, fetch': (U8, U16) -> Result<string, FetchError>)
    requires HasInput(s, InputPath(day, year))
    ensures InputStage(s, day, year, io, fetch) == InputStage(s, day, year, io, fetch')
  {
  }

  lemma TemplateStageIgnoresFetch(s: FsState, day: U8, year: U16, main: string, io: Path -> IoFault,
                                  fetch: (U8, U16) -> Result<string, FetchError>, fetch': (U8, U16) -> Result<string, FetchError>)
    requires HasInput(s, InputPath(day, year))
    ensures TemplateStage(s, day, year, main, io, fetch) == TemplateStage(s, day, year, main, io, fetch')
  {
    var p := MainPath(day, year);
    DayPathsDistinct(day, year);
    InputStageIgnoresFetch(CreateFileStep(s, p, main, io(p)).0, day, year, io, fetch, fetch');
  }

  lemma ManifestStageIgnoresFetch(s: FsState, day: U8, year: U16, main: string, io: Path -> IoFault,
                                  fetch: (U8, U16) -> Result<string, FetchError>, fetch': (U8, U16) -> Result<string, FetchError>)
    requires HasInput(s, InputPath(day, year))
    ensures ManifestStage(s, day, year, main, io, fetch) == ManifestStage(s, day, year, main, io, fetch')
  {
    var p := ManifestPath(day, year);
    DayPathsDistinct(day, year);
    TemplateStageIgnoresFetch(CreateFileStep(s, p, Manifest(PackageName(day, year)), io(p)).0, day, year, main, io, fetch, fetch');
  }

  /** When `input.txt` already has text, what the download would give makes no difference at all. */
  lemma ScaffoldIgnoresFetch(s: FsState, day: U8, year: U16, main: string, io: Path -> IoFault,
                             fetch: (U8, U16) -> Result<string, FetchError>, fetch': (U8, U16) -> Result<string, FetchError>)
    requires HasInput(s, InputPath(day, year))
    ensures ScaffoldWith(s, day, year, main, io, fetch) == ScaffoldWith(s, day, year, main, io, fetch')
  {
    ManifestStageIgnoresFetch(CreateDirAllStep(s, SrcPath(day, year)).0, day, year, main, io, fetch, fetch');
  }

  // ---------------------------------------------------------------------
  // What a successful run leaves behind

  lemma InputStageCreates(s: FsState, day: U8, year: U16, io: Path -> IoFault,
                          fetch: (U8, U16) -> Result<string, FetchError>)
    requires InputStage(s, day, year, io, fetch).1.Ok?
    ensures var s' := InputStage(s, day, year, io, fetch).0;
            InputPath(day, year) in s'.files && s'.Exists(ExamplePath(day, year))
  {
    InputStageOutcome(s, day, year, io, fetch);
  }

  lemma TemplateStageCreates(s: FsState, day: U8, year: U16, main: string, io: Path -> IoFault,
                             fetch: (U8, U16) -> Result<string, FetchError>)
    requires TemplateStage(s, day, year, main, io, fetch).1.Ok?
    ensures var s' := TemplateStage(s, day, year, main, io, fetch).0;
            InputPath(day, year) in s'.files && s'.Exists(ExamplePath(day, year)) && s'.Exists(MainPath(day, year))
  {
    var p := MainPath(day, year);
    var s1 := CreateFileStep(s, p, main, io(p)).0;
    InputStageCreates(s1, day, year, io, fetch);
    InputStageGrows(s1, day, year, io, fetch);
  }

  lemma ManifestStageCreates(s: FsState, day: U8, year: U16, main: string, io: Path -> IoFault,
                             fetch: (U8, U16) -> Result<string, FetchError>)
    requires ManifestStage(s, day, year, main, io, fetch).1.Ok?
    ensures var s' := ManifestStage(s, day, year, main, io, fetch).0;
            && InputPath(day, year) in s'.files && s'.Exists(ExamplePath(day, year))
            && s'.Exists(MainPath(day, year)) && s'.Exists(ManifestPath(day, year))
  {
    var p := ManifestPath(day, year);
    var s1 := CreateFileStep(s, p, Manifest(PackageName(day, year)), io(p)).0;
    TemplateStageCreates(s1, day, year, main, io, fetch);
    TemplateStageGrows(s1, day, year, main, io, fetch);
  }

  /**
   * After a successful `create_scaffold` the day's directories, its manifest,
   * `src/main.rs` and `example.txt` exist, and `input.txt` is a regular file.
   */
  lemma ScaffoldOkCreatesAll(s: FsState, day: U8, year: U16, main: string, io: Path -> IoFault,
                             fetch: (U8, U16) -> Result<string, FetchError>)
    requires ScaffoldWith(s, day, year, main, io, fetch).1.Ok?
    ensures var s' := ScaffoldWith(s, day, year, main, io, fetch).0;
            && Ancestry(SrcPath(day, year)) <= s'.dirs
            && s'.Exists(ManifestPath(day, year)) && s'.Exists(MainPath(day, year))
            && InputPath(day, year) in s'.files && s'.Exists(ExamplePath(day, year))
  {
    var s1 := CreateDirAllStep(s, SrcPath(day, year)).0;
    ManifestStageCreates(s1, day, year, main, io, fetch);
    ManifestStageGrows(s1, day, year, main, io, fetch);
  }

  // ---------------------------------------------------------------------
  // The fresh files hold the templates

  lemma TemplateStageWritesMain(s: FsState, day: U8, year: U16, main: string, io: Path -> IoFault,
                                fetch: (U8, U16) -> Result<string, FetchError>)
    requires !s.Exists(MainPath(day, year))
    requires TemplateStage(s, day, year, main, io, fetch).1.Ok?
    ensures var s' := TemplateStage(s, day, year, main, io, fetch).0;
            MainPath(day, year) in s'.files && s'.files[MainPath(day, year)] == main
  {
    var p := MainPath(day, year);
    InputStageGrows(CreateFileStep(s, p, main, io(p)).0, day, year, io, fetch);
  }

  lemma ManifestStageWritesManifest(s: FsState, day: U8, year: U16, main: string, io: Path -> IoFault,
                                    fetch: (U8, U16) -> Result<string, FetchError>)
    requires !s.Exists(ManifestPath(day, year))
    requires ManifestStage(s, day, year, main, io, fetch).1.Ok?
    ensures var s' := ManifestStage(s, day, year, main, io, fetch).0;
            ManifestPath(day, year) in s'.files && s'.files[ManifestPath(day, year)] == Manifest(PackageName(day, year))
  {
    var p := ManifestPath(day, year);
    TemplateStageGrows(CreateFileStep(s, p, Manifest(PackageName(day, year)), io(p)).0, day, year, main, io, fetch);
  }

  lemma ManifestStageWritesMain(s: FsState, day: U8, year: U16, main: string, io: Path -> IoFault,
                                fetch: (U8, U16) -> Result<string, FetchError>)
    requires !s.Exists(MainPath(day, year))
    requires ManifestStage(s, day, year, main, io, fetch).1.Ok?
    ensures var s' := ManifestStage(s, day, year, main, io, fetch).0;
            MainPath(day, year) in s'.files && s'.files[MainPath(day, year)] == main
  {
    var p := ManifestPath(day, year);
    var s1 := CreateFileStep(s, p, Manifest(PackageName(day, year)), io(p)).0;
    DayPathsDistinct(day, year);
    assert !s1.Exists(MainPath(day, year));
    TemplateStageWritesMain(s1, day, year, main, io, fetch);
  }

  /**
   * A successful `create_scaffold` writes the day's manifest, naming the
   * day's package, and the program template wherever those files were
   * missing.
   */
  lemma ScaffoldWritesTemplates(s: FsState, day: U8, year: U16, main: string, io: Path -> IoFault,
                                fetch: (U8, U16) -> Result<string, FetchError>)
    requires ScaffoldWith(s, day, year, main, io, fetch).1.Ok?
    ensures var s' := ScaffoldWith(s, day, year, main, io, fetch).0;
            && (!s.Exists(ManifestPath(day, year)) ==>
                  ManifestPath(day, year) in s'.files && s'.files[ManifestPath(day, year)] == Manifest(PackageName(day, year)))
            && (!s.Exists(MainPath(day, year)) ==>
                  MainPath(day, year) in s'.files && s'.files[MainPath(day, year)] == main)
  {
    var s1 := CreateDirAllStep(s, SrcPath(day, year)).0;
    DayPathsDistinct(day, year);
    if !s.Exists(ManifestPath(day, year)) {
      ManifestStageWritesManifest(s1, day, year, main, io, fetch);
    }
    if !s.Exists(MainPath(day, year)) {
      ManifestStageWritesMain(s1, day, year, main, io, fetch);
    }
  }

  // ---------------------------------------------------------------------
  // When a run is bound to succeed

  lemma InputStageHealthy(s: FsState, day: U8, year: U16, io: Path -> IoFault,
                          fetch: (U8, U16) -> Result<string, FetchError>)
    requires Parent(InputPath(day, year)) in s.dirs && Parent(ExamplePath(day, year)) in s.dirs
    requires InputPath(day, year) !in s.dirs
    requires io(InputPath(day, year)) == Healthy && io(ExamplePath(day, year)) == Healthy
    ensures InputStage(s, day, year, io, fetch).1.Ok?
  {
    InputStepGrows(s, day, year, io, fetch);
  }

  lemma TemplateStageHealthy(s: FsState, day: U8, year: U16, main: string, io: Path -> IoFault,
                             fetch: (U8, U16) -> Result<string, FetchError>)
    requires Parent(InputPath(day, year)) in s.dirs && Parent(ExamplePath(day, year)) in s.dirs
    requires Parent(MainPath(day, year)) in s.dirs && InputPath(day, year) !in s.dirs
    requires io(InputPath(day, year)) == Healthy && io(ExamplePath(day, year)) == Healthy
    requires io(MainPath(day, year)) == Healthy
    ensures TemplateStage(s, day, year, main, io, fetch).1.Ok?
  {
    var p := MainPath(day, year);
    InputStageHealthy(CreateFileStep(s, p, main, io(p)).0, day, year, io, fetch);
  }

  lemma ManifestStageHealthy(s: FsState, day: U8, year: U16, main: string, io: Path -> IoFault,
                             fetch: (U8, U16) -> Result<string, FetchError>)
    requires Parent(InputPath(day, year)) in s.dirs && Parent(ExamplePath(day, year)) in s.dirs
    requires Parent(MainPath(day, year)) in s.dirs && Parent(ManifestPath(day, year)) in s.dirs
    requires InputPath(day, year) !in s.dirs
    requires io(InputPath(day, year)) == Healthy && io(ExamplePath(day, year)) == Healthy
    requires io(MainPath(day, year)) == Healthy && io(ManifestPath(day, year)) == Healthy
    ensures ManifestStage(s, day, year, main, io, fetch).1.Ok?
  {
    var p := ManifestPath(day, year);
    TemplateStageHealthy(CreateFileStep(s, p, Manifest(PackageName(day, year)), io(p)).0, day, year, main, io, fetch);
  }

  /**
   * `create_scaffold` succeeds whenever no file stands on the way to `src`,
   * `input.txt` is not a directory and the operating system lets each of the
   * four files be created and written.
   */
  lemma ScaffoldHealthyOk(s: FsState, day: U8, year: U16, main: string, io: Path -> IoFault,
                          fetch: (U8, U16) -> Result<string, FetchError>)
    requires !s.Blocked(SrcPath(day, year)) && InputPath(day, year) !in s.dirs
    requires io(InputPath(day, year)) == Healthy && io(ExamplePath(day, year)) == Healthy
    requires io(MainPath(day, year)) == Healthy && io(ManifestPath(day, year)) == Healthy
    ensures ScaffoldWith(s, day, year, main, io, fetch).1.Ok?
  {
    DayPathsDistinct(day, year);
    ManifestStageHealthy(CreateDirAllStep(s, SrcPath(day, year)).0, day, year, main, io, fetch);
  }

  // ---------------------------------------------------------------------
  // A second run changes nothing

  lemma InputStageNoop(s: FsState, day: U8, year: U16, io: Path -> IoFault,
                       fetch: (U8, U16) -> Result<string, FetchError>)
    requires InputPath(day, year) in s.files && s.Exists(ExamplePath(day, year))
    ensures InputStage(s, day, year, io, fetch).0 == s && InputStage(s, day, year, io, fetch).1.Ok?
  {
  }

  lemma TemplateStageNoop(s: FsState, day: U8, year: U16, main: string, io: Path -> IoFault,
                          fetch: (U8, U16) -> Result<string, FetchError>)
    requires InputPath(day, year) in s.files && s.Exists(ExamplePath(day, year)) && s.Exists(MainPath(day, year))
    ensures TemplateStage(s, day, year, main, io, fetch).0 == s && TemplateStage(s, day, year, main, io, fetch).1.Ok?
  {
    InputStageNoop(s, day, year, io, fetch);
  }

  lemma ManifestStageNoop(s: FsState, day: U8, year: U16, main: string, io: Path -> IoFault,
                          fetch: (U8, U16) -> Result<string, FetchError>)
    requires InputPath(day, year) in s.files && s.Exists(ExamplePath(day, year))
    requires s.Exists(MainPath(day, year)) && s.Exists(ManifestPath(day, year))
    ensures ManifestStage(s, day, year, main, io, fetch).0 == s && ManifestStage(s, day, year, main, io, fetch).1.Ok?
  {
    TemplateStageNoop(s, day, year, main, io, fetch);
  }

  /** Nothing on the way to `src` is a file in `s'` when none was in `s` and the only new files are the day's four. */
  lemma NotBlockedAfter(s: FsState, s': FsState, day: U8, year: U16)
    requires !s.Blocked(SrcPath(day, year))
    requires forall p :: p in s'.files && p !in s.files ==> p in DayFiles(day, year)
    ensures !s'.Blocked(SrcPath(day, year))
  {
    var src := SrcPath(day, year);
    DayPathsDistinct(day, year);
    forall k | 1 <= k <= |src|
      ensures src[..k] !in s'.files
    {
      assert src[..k] in Ancestry(src);
    }
  }

  /**
   * Running `create_scaffold` again after a successful run changes nothing
   * and succeeds, whatever the operating system and the download do the
   * second time.
   */
  lemma ScaffoldIdempotent(s: FsState, day: U8, year: U16, main: string, io: Path -> IoFault, io': Path -> IoFault,
                           fetch: (U8, U16) -> Result<string, FetchError>, fetch': (U8, U16) -> Result<string, FetchError>)
    requires ScaffoldWith(s, day, year, main, io, fetch).1.Ok?
    ensures var s' := ScaffoldWith(s, day, year, main, io, fetch).0;
            ScaffoldWith(s', day, year, main, io', fetch').0 == s' && ScaffoldWith(s', day, year, main, io', fetch').1.Ok?
  {
    var s' := ScaffoldWith(s, day, year, main, io, fetch).0;
    var src := SrcPath(day, year);
    ScaffoldOkCreatesAll(s, day, year, main, io, fetch);
    ScaffoldNonDestructive(s, day, year, main, io, fetch);
    NotBlockedAfter(s, s', day, year);
    assert CreateDirAllStep(s', src).0 == s';
    ManifestStageNoop(s', day, year, main, io', fetch');
  }

  // ---------------------------------------------------------------------
  // A well-formed tree stays well formed

  lemma InputStagePreservesValid(s: FsState, day: U8, year: U16, io: Path -> IoFault,
                                 fetch: (U8, U16) -> Result<string, FetchError>)
    requires s.Valid()
    ensures InputStage(s, day, year, io, fetch).0.Valid()
  {
    var p := InputPath(day, year);
    CreateFilePreservesValid(s, p, FetchedText(fetch(day, year)), io(p));
    var s1 := InputStep(s, day, year, io, fetch).0;
    CreateFilePreservesValid(s1, ExamplePath(day, year), "", io(ExamplePath(day, year)));
  }

  lemma TemplateStagePreservesValid(s: FsState, day: U8, year: U16, main: string, io: Path -> IoFault,
                                    fetch: (U8, U16) -> Result<string, FetchError>)
    requires s.Valid()
    ensures TemplateStage(s, day, year, main, io, fetch).0.Valid()
  {
    var p := MainPath(day, year);
    CreateFilePreservesValid(s, p, main, io(p));
    InputStagePreservesValid(CreateFileStep(s, p, main, io(p)).0, day, year, io, fetch);
  }

  lemma ManifestStagePreservesValid(s: FsState, day: U8, year: U16, main: string, io: Path -> IoFault,
                                    fetch: (U8, U16) -> Result<string, FetchError>)
    requires s.Valid()
    ensures ManifestStage(s, day, year, main, io, fetch).0.Valid()
  {
    var p := ManifestPath(day, year);
    var c := Manifest(PackageName(day, year));
    CreateFilePreservesValid(s, p, c, io(p));
    TemplateStagePreservesValid(CreateFileStep(s, p, c, io(p)).0, day, year, main, io, fetch);
  }

  /** `create_scaffold` keeps the tree well formed, whether it succeeds or stops half way. */
  lemma ScaffoldPreservesValid(s: FsState, day: U8, year: U16, main: string, io: Path -> IoFault,
                               fetch: (U8, U16) -> Result<string, FetchError>)
    requires s.Valid()
    ensures ScaffoldWith(s, day, year, main, io, fetch).0.Valid()
  {
    CreateDirAllPreservesValid(s, SrcPath(day, year));
    ManifestStagePreservesValid(CreateDirAllStep(s, SrcPath(day, year)).0, day, year, main, io, fetch);
  }
}
