/**
  The exercise catalog (src/exercises_cmd.ts): `readExercises` fills the
  exercise map from the entries of the tutorial folder in two passes, the
  exercise table of the web view lists the map in the order of the
  exercises' `order` property, and `getNonce` draws the nonce of the page.

  The file system is given as data: the directory entries of the tutorial
  folder, the readable metadata files of each `_data` folder (the
  description and hint as HTML, `exercise.json` already parsed, the
  `.completed` timestamp), and the set of paths that exist. The workspace
  folders are given by name, and `Math.random` by the sequence of its draws.
*/
module Catalog {
  import opened Wrappers
  import opened Text
  import opened ExerciseModel
  import opened Ordering
  import Webview

  /** An entry of the tutorial folder. */
  datatype DirItem = DirItem(name: string, isDirectory: bool)

  /**
    What can be read from a metadata folder: `exercise.md` (as HTML),
    `exercise.json` when it can be read and parsed, `hint.md` (as HTML) and
    `.completed`; None when the file cannot be read.
  */
  datatype MetadataFiles = MetadataFiles(
    description: Option<string>,
    config: Option<map<string, JsValue>>,
    hint: Option<string>,
    completed: Option<string>)

  /** A folder of which nothing can be read. */
  const Unreadable := MetadataFiles(None, None, None, None)

  /** The readable files of the metadata folder `folder`. */
  function FilesOf(files: map<string, MetadataFiles>, folder: string): MetadataFiles {
    if folder in files then files[folder] else Unreadable
  }

  function FolderPath(location: string, name: string): string { location + "/" + name }
  function DataPath(location: string, name: string): string { location + "/" + name + "_data" }
  function SolutionPath(location: string, name: string): string { location + "/" + name + "_solution" }
  function TcPath(location: string, name: string): string { location + "/" + name + "/app.tcjs" }

  /** How the first pass treats an entry of the tutorial folder. */
  datatype ItemKind = NotAFolder | ExerciseFolder | MetadataFolder(exerciseName: string)

  /**
    Files are skipped; a folder ending with "_data" is the metadata folder of
    the exercise named by what precedes its last "_data"; any other folder
    may be an exercise folder.
  */
  function Classify(item: DirItem): (k: ItemKind)
    ensures k.MetadataFolder? ==> item.isDirectory && item.name == k.exerciseName + "_data"
    ensures k.ExerciseFolder? ==> item.isDirectory && !EndsWith(item.name, "_data")
    ensures k.NotAFolder? ==> !item.isDirectory
  {
    if !item.isDirectory then NotAFolder
    else if !EndsWith(item.name, "_data") then ExerciseFolder
    else
      LastIndexOfSuffix(item.name, "_data");
      MetadataFolder(item.name[..LastIndexOf(item.name, "_data")])
  }

  /** Why a metadata folder does not become an exercise. */
  datatype Skip = NoDescription | NoConfig | WrongType(error: TypeError)

  /** The exercise a metadata folder yields, or why it is skipped. */
  datatype Outcome = Skipped(reason: Skip) | Loaded(config: ExerciseConfig, details: ExerciseDetails)

  /**
    The exercise `name` as the first pass builds it from `name_data`: without
    a readable description or configuration, or with a configuration property
    of the wrong type, it is skipped; otherwise it has the checked
    configuration, the solution folder when one exists, the hint when one
    can be read and the `.completed` timestamp when one can be read.
  */
  function LoadOutcome(location: string, name: string, files: map<string, MetadataFiles>, existing: set<string>): Outcome {
    var f := FilesOf(files, name + "_data");
    if f.description.None? then Skipped(NoDescription)
    else if f.config.None? then Skipped(NoConfig)
    else
      match ApplyConfig(DefaultConfig, f.config.value, LoadOrder)
      case Err(e) => Skipped(WrongType(e))
      case Ok(c) =>
        Loaded(c, ExerciseDetails(
          DataPath(location, name),
          None,
          if SolutionPath(location, name) in existing then Some(SolutionPath(location, name)) else None,
          f.description,
          f.hint,
          None,
          if f.completed.Some? then f.completed.value else ""))
  }

  /**
    An exercise is loaded exactly when its description and configuration are
    readable and no property has a truthy value of the wrong type; it then has
    each truthy property from the JSON, the defaults for the rest, additional
    output allowed, and no exercise folder or TC file yet.
  */
  lemma LoadOutcomeMeaning(location: string, name: string, files: map<string, MetadataFiles>, existing: set<string>)
    ensures var f := FilesOf(files, name + "_data");
            var o := LoadOutcome(location, name, files, existing);
            (o.Loaded? <==> f.description.Some? && f.config.Some? && !SomeMismatch(f.config.value, LoadOrder))
            && (o.Loaded? ==>
                  o.config.allowAdditionalOutput
                  && (forall q :: Get(o.config, q) == Applied(DefaultConfig, f.config.value, LoadOrder, q))
                  && o.details.folder.None? && o.details.tcFile.None?
                  && o.details.dataFolder == DataPath(location, name)
                  && o.details.descriptionHTML == f.description && o.details.hintHTML == f.hint)
  {
    var f := FilesOf(files, name + "_data");
    if f.config.Some? {
      LoadOrderDistinct();
      ApplyConfigMeaning(DefaultConfig, f.config.value, LoadOrder);
      if ApplyConfig(DefaultConfig, f.config.value, LoadOrder).Ok? {
        AdditionalOutputAlwaysAllowed(f.config.value);
      }
    }
  }

  /**
    One `checkAndSetConfigProperty` call of the first pass, for the head of
    the properties `ps` still to check, whose joint outcome is `outcome`:
    either the rest of `ps` reaches that outcome from the new configuration,
    or the outcome is this call's error.
  */
  method CheckAndSetNext(exercise: Exercise, json: map<string, JsValue>, ps: seq<ConfigProperty>,
                         ghost outcome: Result<ExerciseConfig, TypeError>)
    returns (error: Option<TypeError>)
    requires ps != [] && outcome == ApplyConfig(exercise.Config(), json, ps)
    modifies exercise
    ensures exercise.Details() == old(exercise.Details())
    ensures error.None? ==> outcome == ApplyConfig(exercise.Config(), json, ps[1..])
    ensures error.Some? ==> outcome == Err(error.value)
  {
    error := exercise.CheckAndSetConfigProperty(json, ps[0]);
  }

  /**
    The seven `checkAndSetConfigProperty` calls of the first pass, in their
    order `LoadOrder`; the first TypeError ends them.
  */
  method CheckAndSetAll(exercise: Exercise, json: map<string, JsValue>) returns (error: Option<TypeError>)
    modifies exercise
    ensures exercise.Details() == old(exercise.Details())
    ensures match ApplyConfig(old(exercise.Config()), json, LoadOrder)
            case Ok(c) => error == None && exercise.Config() == c
            case Err(e) => error == Some(e)
  {
    ghost var outcome := ApplyConfig(exercise.Config(), json, LoadOrder);
    error := None;
    var i := 0;
    while i < |LoadOrder| && error.None?
      invariant 0 <= i <= |LoadOrder|
      invariant exercise.Details() == old(exercise.Details())
      invariant error.None? ==> outcome == ApplyConfig(exercise.Config(), json, LoadOrder[i..])
      invariant error.Some? ==> outcome == Err(error.value)
    {
      error := CheckAndSetNext(exercise, json, LoadOrder[i..], outcome);
      i := i + 1;
    }
  }

  /** The optional parts of an exercise: its solution folder, its hint and its completion timestamp. */
  method ReadOptionalFiles(exercise: Exercise, location: string, f: MetadataFiles, existing: set<string>)
    modifies exercise
    ensures exercise.Config() == old(exercise.Config())
    ensures exercise.Details() == old(exercise.Details()).(
              solutionFolder := if SolutionPath(location, exercise.name) in existing
                                then Some(SolutionPath(location, exercise.name)) else old(exercise.solutionFolder),
              hintHTML := if f.hint.Some? then f.hint else old(exercise.hintHTML),
              completed := if f.completed.Some? then f.completed.value else old(exercise.completed))
  {
    if SolutionPath(location, exercise.name) in existing {
      exercise.solutionFolder := Some(SolutionPath(location, exercise.name));
    }
    if f.hint.Some? {
      exercise.hintHTML := f.hint;
    }
    if f.completed.Some? {
      exercise.completed := f.completed.value;
    }
  }

  /** The body of the first pass for the metadata folder `folder` of exercise `name`. */
  method LoadExercise(location: string, folder: string, name: string, files: map<string, MetadataFiles>, existing: set<string>)
    returns (r: Option<Exercise>)
    requires folder == name + "_data"
    ensures r.None? <==> LoadOutcome(location, name, files, existing).Skipped?
    ensures r.Some? ==> fresh(r.value) && r.value.name == name
                        && IsLoaded(r.value, LoadOutcome(location, name, files, existing))
  {
    r := None;
    assert location + "/" + folder == DataPath(location, name);
    var exercise := new Exercise(name, location + "/" + folder);
    var f := FilesOf(files, folder);
    if f.description.Some? {
      exercise.descriptionHTML := f.description;
      if f.config.Some? {
        var error := CheckAndSetAll(exercise, f.config.value);
        if error.None? {
          ReadOptionalFiles(exercise, location, f, existing);
          r := Some(exercise);
        }
      }
    }
  }

  /** A message of `readExercises`'s log. */
  datatype Warning =
    | SkippedExercise(folder: string, reason: Skip)
    | MissingMetadata(folder: string)
    | MissingTcFile(name: string)

  /** What the first pass gathers: the candidate exercise folders, the exercises loaded and the log. */
  datatype Scan = Scan(folders: seq<string>, loaded: seq<string>, log: seq<Warning>)

  /** The first pass for one more entry of the tutorial folder. */
  function ScanStep(s: Scan, location: string, item: DirItem, files: map<string, MetadataFiles>, existing: set<string>): Scan {
    match Classify(item)
    case NotAFolder => s
    case ExerciseFolder => s.(folders := s.folders + [item.name])
    case MetadataFolder(n) =>
      match LoadOutcome(location, n, files, existing)
      case Skipped(why) => s.(log := s.log + [SkippedExercise(item.name, why)])
      case Loaded(_, _) => s.(loaded := s.loaded + [n])
  }

  /** The first pass over `items`, entry by entry. */
  function ScanItems(location: string, items: seq<DirItem>, files: map<string, MetadataFiles>, existing: set<string>): Scan
    decreases |items|
  {
    if items == [] then Scan([], [], [])
    else ScanStep(ScanItems(location, items[..|items| - 1], files, existing), location, items[|items| - 1], files, existing)
  }

  /**
    The candidate exercise folders are exactly the folders not ending with
    "_data", and the exercises loaded are exactly those whose `_data` folder
    is present and yields an exercise.
  */
  lemma {:induction false} ScanItemsMeaning(location: string, items: seq<DirItem>, files: map<string, MetadataFiles>, existing: set<string>)
    ensures var s := ScanItems(location, items, files, existing);
            (forall f :: f in s.folders <==> DirItem(f, true) in items && !EndsWith(f, "_data"))
            && (forall n :: n in s.loaded <==>
                  DirItem(n + "_data", true) in items && LoadOutcome(location, n, files, existing).Loaded?)
    decreases |items|
  {
    if items != [] {
      var init := items[..|items| - 1];
      var item := items[|items| - 1];
      ScanItemsMeaning(location, init, files, existing);
      assert items == init + [item];
      forall n ensures DirItem(n + "_data", true) == item ==> Classify(item) == MetadataFolder(n) {
        if DirItem(n + "_data", true) == item {
          var k := Classify(item);
          assert k.MetadataFolder? by {
            assert EndsWith(item.name, "_data") by {
              assert item.name[|item.name| - 5..] == "_data";
            }
          }
          assert k.exerciseName + "_data" == n + "_data";
          assert k.exerciseName == (n + "_data")[..|n|];
        }
      }
    }
  }

  /** The folders the second pass does not warn about: build output, solutions and hidden folders. */
  predicate Ignored(folder: string) {
    EndsWith(folder, "_target") || EndsWith(folder, "_solution") || StartsWith(folder, ".")
  }

  /** What the second pass produces: its log and the workspace folders to add. */
  datatype Connection = Connection(log: seq<Warning>, toBeAdded: seq<string>)

  /** What the second pass produces for one candidate folder `e`. */
  function FolderConnection(location: string, e: string, names: seq<string>, existing: set<string>, workspace: set<string>): Connection {
    if e !in names then
      if Ignored(e) then Connection([], []) else Connection([MissingMetadata(e)], [])
    else if TcPath(location, e) !in existing then Connection([MissingTcFile(e)], [])
    else if e in workspace then Connection([], [])
    else Connection([], [FolderPath(location, e)])
  }

  /** The second pass over the candidate folders, against the names in the map. */
  function ConnectAll(location: string, folders: seq<string>, names: seq<string>, existing: set<string>, workspace: set<string>): Connection
    decreases |folders|
  {
    if folders == [] then Connection([], [])
    else
      var c := ConnectAll(location, folders[..|folders| - 1], names, existing, workspace);
      var d := FolderConnection(location, folders[|folders| - 1], names, existing, workspace);
      Connection(c.log + d.log, c.toBeAdded + d.toBeAdded)
  }

  /** True when the second pass connects exercise `name` to its folder. */
  predicate Connects(location: string, folders: seq<string>, existing: set<string>, name: string) {
    name in folders && TcPath(location, name) in existing
  }

  /** An exercise connected to its folder and TC file. */
  function Connected(d: ExerciseDetails, location: string, name: string): ExerciseDetails {
    d.(tcFile := Some(TcPath(location, name)), folder := Some(FolderPath(location, name)), dataFolder := DataPath(location, name))
  }

  /** The exercise gets its TC file, its folder and its metadata folder under `location`. */
  method Connect(exercise: Exercise, location: string)
    modifies exercise
    ensures exercise.Config() == old(exercise.Config())
    ensures exercise.Details() == Connected(old(exercise.Details()), location, exercise.name)
  {
    exercise.tcFile := Some(TcPath(location, exercise.name));
    exercise.folder := Some(FolderPath(location, exercise.name));
    exercise.dataFolder := DataPath(location, exercise.name);
  }

  /**
    The second pass warns about a folder without metadata exactly when it is
    not ignored, about a missing TC file exactly when the exercise is loaded
    but has none, and adds to the workspace exactly the connected exercises
    that are not already there.
  */
  lemma {:induction false} ConnectAllMeaning(location: string, folders: seq<string>, names: seq<string>, existing: set<string>, workspace: set<string>)
    ensures var c := ConnectAll(location, folders, names, existing, workspace);
            (forall e :: MissingMetadata(e) in c.log <==> e in folders && e !in names && !Ignored(e))
            && (forall e :: MissingTcFile(e) in c.log <==> e in folders && e in names && TcPath(location, e) !in existing)
            && (forall e :: FolderPath(location, e) in c.toBeAdded <==>
                  e in names && Connects(location, folders, existing, e) && e !in workspace)
            && (forall w :: w in c.log ==> !w.SkippedExercise?)
    decreases |folders|
  {
    if folders != [] {
      var init := folders[..|folders| - 1];
      var e := folders[|folders| - 1];
      ConnectAllMeaning(location, init, names, existing, workspace);
      assert folders == init + [e];
      forall x ensures FolderPath(location, x) == FolderPath(location, e) ==> x == e {
        if FolderPath(location, x) == FolderPath(location, e) {
          assert x == FolderPath(location, x)[|location| + 1..];
        }
      }
    }
  }

  /** A map entry: the exercise name and the exercise. */
  datatype Entry = Entry(name: string, exercise: Exercise)

  /** The keys of the map, in insertion order. */
  function Names(es: seq<Entry>): (r: seq<string>)
    ensures |r| == |es| && forall j :: 0 <= j < |es| ==> r[j] == es[j].name
  {
    seq(|es|, j requires 0 <= j < |es| => es[j].name)
  }

  /** No key twice. */
  predicate Unique(ns: seq<string>) {
    forall i, j :: 0 <= i < j < |ns| ==> ns[i] != ns[j]
  }

  /** The keys after `Map.set(n, …)`: a new key goes last, an existing one keeps its place. */
  function AddName(ns: seq<string>, n: string): seq<string> {
    if n in ns then ns else ns + [n]
  }

  /** The keys after setting each of `ms` in turn. */
  function AddNames(ns: seq<string>, ms: seq<string>): seq<string>
    decreases |ms|
  {
    if ms == [] then ns else AddName(AddNames(ns, ms[..|ms| - 1]), ms[|ms| - 1])
  }

  /**
    `es` is what `orig` became after setting the keys `loaded`: its keys are
    those of `orig` with `loaded` added, every loaded key holds one of the
    `created` exercises and every other entry is one of `orig`.
  */
  ghost predicate Tracks(es: seq<Entry>, orig: seq<Entry>, loaded: seq<string>, created: set<Exercise>) {
    Names(es) == AddNames(Names(orig), loaded)
    && forall j :: 0 <= j < |es| ==>
         if es[j].name in loaded then es[j].exercise in created else es[j] in orig
  }

  /** The first position of key `n`, if any. */
  function Find(es: seq<Entry>, n: string): (r: Option<nat>)
    ensures r.Some? ==> r.value < |es| && es[r.value].name == n
    ensures r.None? <==> n !in Names(es)
    decreases |es|
  {
    if es == [] then None
    else if es[0].name == n then Some(0)
    else match Find(es[1..], n)
      case None =>
        assert Names(es) == [es[0].name] + Names(es[1..]);
        None
      case Some(k) => Some(k + 1)
  }

  /** `Map.set(n, x)`: the value of key `n` becomes `x`, in place when the key is there and last otherwise. */
  function MapSet(es: seq<Entry>, n: string, x: Exercise): (r: seq<Entry>)
    requires Unique(Names(es))
    ensures Names(r) == AddName(Names(es), n) && Unique(Names(r))
    ensures forall j :: 0 <= j < |es| ==> r[j] == (if es[j].name == n then Entry(n, x) else es[j])
    ensures |r| == |es| + 1 ==> r[|es|] == Entry(n, x)
  {
    match Find(es, n)
    case None =>
      var r := es + [Entry(n, x)];
      assert Names(r) == Names(es) + [n];
      r
    case Some(k) =>
      var r := es[k := Entry(n, x)];
      assert Names(r) == Names(es);
      assert forall j :: 0 <= j < |r| && j != k ==> r[j] == es[j] && es[j].name != n;
      r
  }
  /** Setting one more created exercise keeps the record of what changed. */
  lemma TracksMapSet(es: seq<Entry>, orig: seq<Entry>, loaded: seq<string>, created: set<Exercise>, n: string, x: Exercise)
    requires Unique(Names(es)) && Tracks(es, orig, loaded, created)
    ensures Tracks(MapSet(es, n, x), orig, loaded + [n], created + {x})
  {
    var r := MapSet(es, n, x);
    assert (loaded + [n])[..|loaded|] == loaded;
    forall j | 0 <= j < |r|
      ensures if r[j].name in loaded + [n] then r[j].exercise in created + {x} else r[j] in orig
    {
      if r[j].name != n {
        assert j < |es| && r[j] == es[j];
      }
    }
  }


  /** Row `k` of the table: "k: name", completed with Reopen offered, or open with Complete offered. */
  function RowOf(k: nat, l: Listed): (r: Webview.Row)
    ensures Webview.ButtonsAgree(r) && !r.selected && (r.completed <==> l.completed != "")
  {
    var done := l.completed != "";
    Webview.Row(Webview.Label(k, l.name), false, done, done, !done)
  }

  /** The rows of the exercise table for entries listed in this order, numbered from 1. */
  function TableRows(ls: seq<Listed>): (rows: seq<Webview.Row>)
    ensures |rows| == |ls|
  {
    seq(|ls|, k requires 0 <= k < |ls| => RowOf(k + 1, ls[k]))
  }

  /** Row `j` of the table reads back the name of entry `j` when that name is trimmed and free of ':'. */
  lemma TableRowName(ls: seq<Listed>, j: nat)
    requires j < |ls| && ':' !in ls[j].name && IsTrimmed(ls[j].name)
    ensures Webview.ExerciseNameFromRow(TableRows(ls)[j].cell) == Some(ls[j].name)
  {
    var cell := TableRows(ls)[j].cell;
    assert cell == Webview.Label(j + 1, ls[j].name);
    Webview.LabelRoundTrip(j + 1, ls[j].name);
  }

  /** The table of one more entry has one more row, numbered last. */
  lemma TableRowsSnoc(ls: seq<Listed>, x: Listed)
    ensures TableRows(ls + [x]) == TableRows(ls) + [RowOf(|ls| + 1, x)]
  {
    var rows := TableRows(ls + [x]);
    assert forall k :: 0 <= k < |ls| ==> rows[k] == RowOf(k + 1, ls[k]);
  }

  /** Appending an entry adds its completion to the count. */
  lemma {:induction false} NumCompletedAppend(s: seq<Listed>, x: Listed)
    ensures NumCompleted(s + [x]) == NumCompleted(s) + (if x.completed != "" then 1 else 0)
    decreases |s|
  {
    if s != [] {
      assert (s + [x])[1..] == s[1..] + [x];
      NumCompletedAppend(s[1..], x);
    } else {
      assert [x][1..] == [];
    }
  }

  /** The completed rows of the table are the completed entries. */
  lemma {:induction false} TableRowsCountCompleted(ls: seq<Listed>)
    ensures Webview.CountCompleted(TableRows(ls)) == NumCompleted(ls)
    decreases |ls|
  {
    if ls != [] {
      var init := ls[..|ls| - 1];
      TableRowsCountCompleted(init);
      NumCompletedAppend(init, ls[|ls| - 1]);
      assert init + [ls[|ls| - 1]] == ls;
      var rows := TableRows(ls);
      assert rows[..|rows| - 1] == TableRows(init);
      assert rows == TableRows(init) + [RowOf(|ls|, ls[|ls| - 1])];
    }
  }

  /** Every row of the table reads back the name of its entry, when names are trimmed and free of ':'. */
  lemma TableRowsNames(ls: seq<Listed>)
    requires forall j :: 0 <= j < |ls| ==> ':' !in ls[j].name && IsTrimmed(ls[j].name)
    ensures forall j :: 0 <= j < |ls| ==> Webview.ExerciseNameFromRow(TableRows(ls)[j].cell) == Some(ls[j].name)
  {
    forall j | 0 <= j < |ls| ensures Webview.ExerciseNameFromRow(TableRows(ls)[j].cell) == Some(ls[j].name) {
      TableRowName(ls, j);
    }
  }

  /**
    The row lookup of the web view finds, for the name of an entry, the row
    of the first entry with that name — as long as all names are trimmed and
    free of ':'.
  */
  lemma TableRowsFindEveryName(ls: seq<Listed>, n: string)
    requires forall j :: 0 <= j < |ls| ==> ':' !in ls[j].name && IsTrimmed(ls[j].name)
    requires exists j :: 0 <= j < |ls| && ls[j].name == n
    ensures var r := Webview.FindRow(TableRows(ls), n, 0);
            r.Found? && ls[r.index].name == n && forall j :: 0 <= j < r.index ==> ls[j].name != n
  {
    TableRowsNames(ls);
    var names := seq(|ls|, j requires 0 <= j < |ls| => ls[j].name);
    assert forall j :: 0 <= j < |ls| ==> names[j] == ls[j].name;
    Webview.FindRowByNames(TableRows(ls), names, n, 0);
  }

  /** The alphabet of the nonce. */
  const NonceAlphabet := "ABCDEFGHIJKLMNOPQRSTUVWXYZabcdefghijklmnopqrstuvwxyz0123456789"

  /** The index `Math.floor(draw * possible.length)` for a draw of `Math.random`. */
  function Pick(draw: real): (i: nat)
    requires 0.0 <= draw < 1.0
    ensures i < |NonceAlphabet|
  {
    (draw * |NonceAlphabet| as real).Floor
  }

  /** Every character of the alphabet is drawn for some value of `Math.random`. */
  lemma PickReachesEveryIndex(i: nat)
    requires i < |NonceAlphabet|
    ensures 0.0 <= i as real / |NonceAlphabet| as real < 1.0
    ensures Pick(i as real / |NonceAlphabet| as real) == i
  {
  }

  /** `getNonce`: 32 characters of the alphabet, one per draw. */
  method GetNonce(draws: seq<real>) returns (nonce: string)
    requires |draws| == 32 && forall k :: 0 <= k < |draws| ==> 0.0 <= draws[k] < 1.0
    ensures |nonce| == 32
    ensures forall k :: 0 <= k < 32 ==> nonce[k] == NonceAlphabet[Pick(draws[k])]
  {
    nonce := "";
    var possible := NonceAlphabet;
    for i := 0 to 32
      invariant |nonce| == i
      invariant forall k :: 0 <= k < i ==> nonce[k] == NonceAlphabet[Pick(draws[k])]
    {
      nonce := nonce + [possible[Pick(draws[i])]];
    }
  }

  /** The exercise map: the exercises by name, in insertion order. */
  class Registry {
    var entries: seq<Entry>

    /** Keys are unique and each is its exercise's name. */
    ghost predicate Valid()
      reads this
    {
      Unique(Names(entries)) && forall j :: 0 <= j < |entries| ==> entries[j].exercise.name == entries[j].name
    }

    function Exercises(): set<Exercise>
      reads this
    {
      set j | 0 <= j < |entries| :: entries[j].exercise
    }

    /** The entries as the exercise table reads them. */
    function Listing(): (r: seq<Listed>)
      reads this, Exercises()
      ensures |r| == |entries|
      ensures forall j :: 0 <= j < |r| ==>
                r[j] == Listed(entries[j].name, entries[j].exercise.order, entries[j].exercise.completed)
    {
      ListingOf(entries)
    }

    /** An empty map. */
    constructor ()
      ensures entries == [] && Valid()
    {
      entries := [];
    }

    /** `exercisesMap.set(name, exercise)`. */
    method Set(name: string, exercise: Exercise)
      requires Valid() && exercise.name == name
      modifies this
      ensures Valid() && entries == MapSet(old(entries), name, exercise)
    {
      entries := MapSet(entries, name, exercise);
    }

    /**
      The map is `orig` with the keys `loaded` set, each to one of `created`,
      and each of `created` is the exercise its folder's metadata loads.
    */
    ghost predicate Record(orig: seq<Entry>, loaded: seq<string>, created: set<Exercise>,
                           location: string, files: map<string, MetadataFiles>, existing: set<string>)
      reads this, created
    {
      Valid() && Tracks(entries, orig, loaded, created) && AllLoaded(created, location, files, existing)
    }

    /** `Set` for an exercise the metadata of `name + "_data"` loads, with the record of the first pass kept. */
    method SetLoaded(name: string, x: Exercise, ghost orig: seq<Entry>, ghost loaded: seq<string>, ghost created: set<Exercise>,
                     ghost location: string, ghost files: map<string, MetadataFiles>, ghost existing: set<string>)
      requires Record(orig, loaded, created, location, files, existing)
      requires x.name == name && IsLoaded(x, LoadOutcome(location, name, files, existing))
      modifies this
      ensures Record(orig, loaded + [name], created + {x}, location, files, existing)
      ensures entries == MapSet(old(entries), name, x)
    {
      TracksMapSet(entries, orig, loaded, created, name, x);
      assert AllLoaded(created + {x}, location, files, existing);
      Set(name, x);
    }

    /** The first pass for a `_data` folder: the exercise is set in the map, or a warning is logged. */
    method ReadDataFolder(location: string, folder: string, name: string, files: map<string, MetadataFiles>, existing: set<string>,
                          log: seq<Warning>, ghost orig: seq<Entry>, ghost loaded: seq<string>, ghost created: set<Exercise>)
      returns (log': seq<Warning>, ghost made: set<Exercise>)
      requires folder == name + "_data" && Record(orig, loaded, created, location, files, existing)
      modifies this
      ensures match LoadOutcome(location, name, files, existing)
              case Skipped(why) => log' == log + [SkippedExercise(folder, why)] && made == {}
                                   && entries == old(entries)
              case Loaded(_, _) => log' == log && Record(orig, loaded + [name], created + made, location, files, existing)
      ensures fresh(made)
    {
      log', made := log, {};
      var r := LoadExercise(location, folder, name, files, existing);
      if r.None? {
        log' := log + [SkippedExercise(folder, LoadOutcome(location, name, files, existing).reason)];
      } else {
        SetLoaded(name, r.value, orig, loaded, created, location, files, existing);
        made := {r.value};
      }
    }

    /** The body of the first pass for one entry of the tutorial folder. */
    method ReadItem(location: string, item: DirItem, files: map<string, MetadataFiles>, existing: set<string>,
                    folders: seq<string>, log: seq<Warning>,
                    ghost orig: seq<Entry>, ghost loaded: seq<string>, ghost created: set<Exercise>)
      returns (folders': seq<string>, log': seq<Warning>, ghost made: set<Exercise>)
      requires Record(orig, loaded, created, location, files, existing)
      modifies this
      ensures var s' := ScanStep(Scan(folders, loaded, log), location, item, files, existing);
              folders' == s'.folders && log' == s'.log && Record(orig, s'.loaded, created + made, location, files, existing)
      ensures fresh(made)
    {
      folders', log', made := folders, log, {};
      match Classify(item) {
        case NotAFolder =>
        case ExerciseFolder =>
          folders' := folders + [item.name];
        case MetadataFolder(n) =>
          log', made := ReadDataFolder(location, item.name, n, files, existing, log, orig, loaded, created);
      }
    }

    /**
      The first pass of `readExercises`: collects the candidate exercise
      folders and sets an exercise in the map for each `_data` folder that
      yields one.
    */
    method ReadMetadata(location: string, items: seq<DirItem>, files: map<string, MetadataFiles>, existing: set<string>)
      returns (exerciseFolders: seq<string>, log: seq<Warning>)
      requires Valid()
      modifies this
      ensures Valid()
      ensures var s := ScanItems(location, items, files, existing);
              exerciseFolders == s.folders && log == s.log
              && Names(entries) == AddNames(old(Names(entries)), s.loaded)
              && (forall j :: 0 <= j < |entries| && entries[j].name in s.loaded ==>
                    fresh(entries[j].exercise) && IsLoaded(entries[j].exercise, LoadOutcome(location, entries[j].name, files, existing)))
              && (forall j :: 0 <= j < |entries| && entries[j].name !in s.loaded ==> entries[j] in old(entries))
    {
      exerciseFolders, log := [], [];
      ghost var created: set<Exercise> := {};
      var i := 0;
      while i < |items|
        invariant 0 <= i <= |items|
        invariant var s := ScanItems(location, items[..i], files, existing);
                  exerciseFolders == s.folders && log == s.log && Record(old(entries), s.loaded, created, location, files, existing)
        invariant fresh(created)
      {
        ghost var s := ScanItems(location, items[..i], files, existing);
        assert items[..i + 1][..i] == items[..i];
        ghost var made;
        exerciseFolders, log, made := ReadItem(location, items[i], files, existing, exerciseFolders, log, old(entries), s.loaded, created);
        created := created + made;
        i := i + 1;
      }
      assert items[..i] == items;
    }

    /**
      The body of the second pass for the candidate folder `e`: warns when the
      folder has no exercise or the exercise no TC file; otherwise connects
      the exercise to its folder and asks for the folder in the workspace
      unless one of that name is there. The map itself is not changed: the
      source's `exercisesMap.delete(e.name)` is given the `name` of a string,
      which is undefined and no key.
    */
    method ConnectFolder(location: string, e: string, existing: set<string>, workspace: set<string>)
      returns (log: seq<Warning>, toBeAdded: seq<string>)
      requires Valid()
      modifies Exercises()
      ensures Connection(log, toBeAdded) == FolderConnection(location, e, Names(entries), existing, workspace)
      ensures forall j :: 0 <= j < |entries| ==>
                var x := entries[j].exercise;
                x.Config() == old(x.Config())
                && x.Details() == (if x.name == e && TcPath(location, e) in existing
                                   then Connected(old(x.Details()), location, e) else old(x.Details()))
    {
      log, toBeAdded := [], [];
      var k := Find(entries, e);
      if k.None? {
        if !Ignored(e) {
          log := [MissingMetadata(e)];
        }
      } else if TcPath(location, entries[k.value].exercise.name) !in existing {
        log := [MissingTcFile(e)];
      } else {
        var exercise := entries[k.value].exercise;
        forall j | 0 <= j < |entries| && j != k.value ensures entries[j].exercise != exercise {
          assert entries[j].name != entries[k.value].name;
        }
        Connect(exercise, location);
        if e !in workspace {
          toBeAdded := [FolderPath(location, exercise.name)];
        }
      }
    }

    /** The second pass of `readExercises`, folder by folder. */
    method ConnectFolders(location: string, exerciseFolders: seq<string>, existing: set<string>, workspace: set<string>)
      returns (log: seq<Warning>, toBeAdded: seq<string>)
      requires Valid()
      modifies Exercises()
      ensures Connection(log, toBeAdded) == ConnectAll(location, exerciseFolders, Names(entries), existing, workspace)
      ensures forall j :: 0 <= j < |entries| ==>
                var x := entries[j].exercise;
                x.Config() == old(x.Config())
                && x.Details() == (if Connects(location, exerciseFolders, existing, x.name)
                                   then Connected(old(x.Details()), location, x.name) else old(x.Details()))
    {
      log, toBeAdded := [], [];
      var i := 0;
      while i < |exerciseFolders|
        invariant 0 <= i <= |exerciseFolders|
        invariant Connection(log, toBeAdded) == ConnectAll(location, exerciseFolders[..i], Names(entries), existing, workspace)
        invariant forall j :: 0 <= j < |entries| ==>
                    var x := entries[j].exercise;
                    x.Config() == old(x.Config())
                    && x.Details() == (if Connects(location, exerciseFolders[..i], existing, x.name)
                                       then Connected(old(x.Details()), location, x.name) else old(x.Details()))
      {
        var e := exerciseFolders[i];
        assert exerciseFolders[..i + 1][..i] == exerciseFolders[..i] && exerciseFolders[..i + 1][i] == e;
        assert exerciseFolders[..i + 1] == exerciseFolders[..i] + [e];
        var l, a := ConnectFolder(location, e, existing, workspace);
        log, toBeAdded := log + l, toBeAdded + a;
        i := i + 1;
      }
      assert exerciseFolders[..i] == exerciseFolders;
    }

    /**
      `readExercises`: the first pass over the entries of the tutorial folder,
      then the second pass over the candidate folders it found. Each
      exercise it loads has the configuration and details its metadata
      gives, and is connected exactly when its folder is a candidate with a
      TC file. An exercise from an earlier read that this one does not load
      stays the same object with the same configuration, and is reconnected
      under the new location on the same condition.
    */
    method ReadExercises(location: string, items: seq<DirItem>, files: map<string, MetadataFiles>,
                         existing: set<string>, workspace: set<string>)
      returns (log: seq<Warning>, toBeAdded: seq<string>)
      requires Valid()
      modifies this, Exercises()
      ensures Valid()
      ensures var s := ScanItems(location, items, files, existing);
              var c := ConnectAll(location, s.folders, Names(entries), existing, workspace);
              Names(entries) == AddNames(old(Names(entries)), s.loaded)
              && log == s.log + c.log && toBeAdded == c.toBeAdded
      ensures var s := ScanItems(location, items, files, existing);
              forall j :: 0 <= j < |entries| && entries[j].name in s.loaded ==>
                var x := entries[j].exercise;
                var o := LoadOutcome(location, x.name, files, existing);
                o.Loaded? && x.Config() == o.config
                && x.Details() == (if Connects(location, s.folders, existing, x.name)
                                   then Connected(o.details, location, x.name) else o.details)
      ensures var s := ScanItems(location, items, files, existing);
              forall j :: 0 <= j < |entries| && entries[j].name !in s.loaded ==>
                var x := entries[j].exercise;
                entries[j] in old(entries) && x.Config() == old(x.Config())
                && x.Details() == (if Connects(location, s.folders, existing, x.name)
                                   then Connected(old(x.Details()), location, x.name) else old(x.Details()))
    {
      var folders, firstLog := ReadMetadata(location, items, files, existing);
      forall x | x in Exercises() ensures x in old(Exercises()) || fresh(x) {
        var j :| 0 <= j < |entries| && entries[j].exercise == x;
        if !fresh(x) {
          var i :| 0 <= i < |old(entries)| && old(entries)[i] == entries[j];
        }
      }
      log, toBeAdded := ConnectFolders(location, folders, existing, workspace);
      log := firstLog + log;
    }

    /**
      The exercise table of the web view: one row per entry in the order of
      the exercises' `order` property, the number of exercises and the number
      of completed ones.
    */
    method BuildTable() returns (rows: seq<Webview.Row>, total: nat, completedCount: nat)
      ensures total == |entries|
      ensures rows == TableRows(SortByOrder(Listing()))
      ensures completedCount == Webview.CountCompleted(rows) == NumCompleted(Listing())
    {
      total := |entries|;
      var ordered := SortByOrder(Listing());
      rows, completedCount := TableOf(ordered);
      TableRowsCountCompleted(ordered);
      SortByOrderNumCompleted(Listing());
    }
  }

  /** The loop of the table: one row per entry in iteration order, counting the completed ones. */
  method TableOf(ordered: seq<Listed>) returns (rows: seq<Webview.Row>, completedCount: nat)
    ensures rows == TableRows(ordered) && completedCount == Webview.CountCompleted(rows)
  {
    rows, completedCount := [], 0;
    var count := 0;
    while count < |ordered|
      invariant 0 <= count <= |ordered|
      invariant rows == TableRows(ordered[..count]) && completedCount == Webview.CountCompleted(rows)
    {
      var entry := ordered[count];
      assert ordered[..count + 1] == ordered[..count] + [entry];
      TableRowsSnoc(ordered[..count], entry);
      count := count + 1;
      var row := RowOf(count, entry);
      assert (rows + [row])[..|rows|] == rows;
      rows := rows + [row];
      if entry.completed != "" {
        completedCount := completedCount + 1;
      }
    }
    assert ordered[..count] == ordered;
  }

  /** The entries as the exercise table reads them. */
  function ListingOf(es: seq<Entry>): (r: seq<Listed>)
    reads set j | 0 <= j < |es| :: es[j].exercise
    ensures |r| == |es|
    ensures forall j :: 0 <= j < |r| ==> r[j] == Listed(es[j].name, es[j].exercise.order, es[j].exercise.completed)
    decreases |es|
  {
    if es == [] then []
    else [Listed(es[0].name, es[0].exercise.order, es[0].exercise.completed)] + ListingOf(es[1..])
  }

  /** Each of `created` is the exercise its folder's metadata loads. */
  ghost predicate AllLoaded(created: set<Exercise>, location: string, files: map<string, MetadataFiles>, existing: set<string>)
    reads created
  {
    forall e :: e in created ==> IsLoaded(e, LoadOutcome(location, e.name, files, existing))
  }

  /** True when `e` has the configuration and details of the loaded outcome `o`. */
  predicate IsLoaded(e: Exercise, o: Outcome)
    reads e
  {
    o.Loaded? && e.Config() == o.config && e.Details() == o.details
  }
}
