/**
 * The update cycle of `updateIconTheme`: read the base theme, give it the
 * light-mode folder icons under a light scheme, pre-merge its `light`
 * variant, fold in every enabled icon pack that exists (each pre-merged the
 * same way), and write the generated theme only when its text changed.
 * The files under `themes/` are a map from file name to what parsing the
 * file gives; the generated file is an optional text.
 */
module ThemeUpdate {
  import opened Wrappers
  import opened JsObjects
  import opened IconTheme
  import opened ColorScheme

  const BaseFile := "base-theme.json"
  const LightFolder := "default_folder_light"
  const LightFolderOpen := "default_folder_open_light"

  /** The icon packs, in the order they are folded in; each is enabled by the setting of the same name. */
  const IconPacks: seq<string> := [
    "iconpack-angular-old",
    "iconpack-angular-new",
    "iconpack-eslint",
    "iconpack-jotai",
    "iconpack-nest",
    "iconpack-next",
    "iconpack-ngrx",
    "iconpack-phalcon",
    "iconpack-rails",
    "iconpack-recoil",
    "iconpack-redux",
    "iconpack-router",
    "iconpack-test",
    "iconpack-volt",
    "iconpack-index"
  ]

  /** The file under `themes/` that holds icon pack `id`. */
  function PackFile(id: string): string {
    id + ".json"
  }

  /** A file under `themes/`, as `JSON.parse` sees it. */
  datatype Stored = Parsed(theme: Theme) | Malformed

  type Files = map<string, Stored>

  /** The extension's boolean settings; a setting that is not set reads as `false`. */
  type Config = map<string, bool>

  /** Why an update cycle stops without writing. */
  datatype Failure = MissingBase | MalformedFile(name: string)

  datatype Outcome = Aborted(reason: Failure) | Unchanged | Written

  predicate Enabled(config: Config, id: string) {
    id in config && config[id]
  }

  /**
   * `theme.light = mergeThemeVariant(theme.light || {}, theme)`: the light
   * variant gains the document's own top-level `fileExtensions`, `fileNames`
   * and `languageIds`, losing every collision to what it already had.
   */
  function PreMergeLight(t: Theme): (r: Theme)
    ensures r.light.Some? && r.(light := t.light) == t
    ensures t.light.None? ==>
      && r.light.value.fileExtensions == t.fileExtensions
      && r.light.value.fileNames == t.fileNames
      && r.light.value.languageIds == t.languageIds
  {
    t.(light := Some(MergeThemeVariant(t.light.GetOr(Empty), t)))
  }

  /** The base document before any icon pack: light-mode folder icons under a light scheme, then its light pre-merge. */
  function PrepareBase(base: Theme, scheme: ThemeType): (r: Theme)
    ensures scheme == LightTheme ==> r.folder == Some(LightFolder) && r.folderExpanded == Some(LightFolderOpen)
    ensures scheme != LightTheme ==> r.folder == base.folder && r.folderExpanded == base.folderExpanded
    ensures r.light.Some? && r.(light := base.light, folder := base.folder, folderExpanded := base.folderExpanded) == base
  {
    var b :=
      if scheme == LightTheme then base.(folder := Some(LightFolder), folderExpanded := Some(LightFolderOpen))
      else base;
    PreMergeLight(b)
  }

  /** Pack `id` is enabled and its file exists but does not parse, so `JSON.parse` throws. */
  predicate Fails(id: string, config: Config, files: Files) {
    Enabled(config, id) && PackFile(id) in files && files[PackFile(id)].Malformed?
  }

  /** One turn of the `forEach`: a pack that is enabled and whose file exists is folded in. */
  function Step(acc: Theme, id: string, config: Config, files: Files): (r: Result<Theme, Failure>)
    ensures r.Err? <==> Fails(id, config, files)
    ensures r.Err? ==> r.error == MalformedFile(PackFile(id))
    ensures r.Ok? ==> r.value.folder == acc.folder && r.value.folderExpanded == acc.folderExpanded
    ensures !(Enabled(config, id) && PackFile(id) in files) ==> r == Ok(acc)
  {
    if Enabled(config, id) && PackFile(id) in files then
      match files[PackFile(id)]
      case Malformed => Err(MalformedFile(PackFile(id)))
      case Parsed(theme) => Ok(MergeThemes(acc, PreMergeLight(theme)))
    else Ok(acc)
  }

  /** The fold of `Step` over `ids` from `start`; the first parse failure ends it. */
  function FoldPacks(start: Theme, ids: seq<string>, config: Config, files: Files): (r: Result<Theme, Failure>)
    ensures r.Ok? ==> r.value.folder == start.folder && r.value.folderExpanded == start.folderExpanded
    ensures r.Err? ==> r.error.MalformedFile?
    decreases |ids|
  {
    if ids == [] then Ok(start)
    else
      match FoldPacks(start, ids[..|ids| - 1], config, files)
      case Err(e) => Err(e)
      case Ok(acc) => Step(acc, ids[|ids| - 1], config, files)
  }

  /** The generated theme of one update cycle, or why the cycle stops. */
  function MergedTheme(files: Files, active: Option<ColorThemeKind>, config: Config): (r: Result<Theme, Failure>)
    ensures r == Err(MissingBase) <==> BaseFile !in files
    ensures BaseFile in files && files[BaseFile].Malformed? ==> r == Err(MalformedFile(BaseFile))
  {
    if BaseFile !in files then Err(MissingBase)
    else
      match files[BaseFile]
      case Malformed => Err(MalformedFile(BaseFile))
      case Parsed(base) => FoldPacks(PrepareBase(base, CurrentThemeType(active)), IconPacks, config, files)
  }

  /** The pre-merged document of pack `id`, when its file exists and parses. */
  function OverlayDoc(files: Files, id: string): Option<Theme> {
    if PackFile(id) in files && files[PackFile(id)].Parsed? then Some(PreMergeLight(files[PackFile(id)].theme))
    else None
  }

  /** Pack `id` takes part and sets key `k` of mapping `f` at variant path `p`. */
  predicate Contributes(id: string, config: Config, files: Files, p: seq<Variant>, f: MapField, k: string) {
    Enabled(config, id) && OverlayDoc(files, id).Some? && Entry(Sub(OverlayDoc(files, id).value, p), f, k).Some?
  }

  ghost predicate AllWellFormed(files: Files) {
    forall name | name in files && files[name].Parsed? :: WellFormed(files[name].theme)
  }

  /** In the light variant, what the variant already had wins; the document's top level fills in the rest. */
  lemma PreMergeLightEntry(t: Theme, f: MapField, k: string)
    requires WellFormed(t) && VariantField(f)
    ensures Entry(Sub(PreMergeLight(t), [Light]), f, k) ==
      if Entry(Sub(t, [Light]), f, k).Some? then Entry(Sub(t, [Light]), f, k) else Entry(t, f, k)
  {
    EmptyWellFormed();
    MergeThemeVariantEntry(t.light.GetOr(Empty), t, f, k);
  }

  lemma PreMergeLightWellFormed(t: Theme)
    requires WellFormed(t)
    ensures WellFormed(PreMergeLight(t))
  {
    EmptyWellFormed();
    MergeThemeVariantWellFormed(t.light.GetOr(Empty), t);
    assert forall f :: Field(PreMergeLight(t), f) == Field(t, f);
  }

  /** Once a prefix of the fold fails, the whole fold fails with the same error. */
  lemma {:induction false} FoldAborts(start: Theme, ids: seq<string>, n: nat, config: Config, files: Files)
    requires n <= |ids| && FoldPacks(start, ids[..n], config, files).Err?
    ensures FoldPacks(start, ids, config, files) == FoldPacks(start, ids[..n], config, files)
    decreases |ids|
  {
    if n < |ids| {
      var front := ids[..|ids| - 1];
      assert front[..n] == ids[..n];
      FoldAborts(start, front, n, config, files);
    } else {
      assert ids[..n] == ids;
    }
  }

  /** Folding one more pack: the fold of `ids` followed by that pack's `Step`, unless the fold of `ids` already failed. */
  lemma FoldSnoc(start: Theme, ids: seq<string>, id: string, config: Config, files: Files)
    ensures FoldPacks(start, ids + [id], config, files) ==
      if FoldPacks(start, ids, config, files).Err? then FoldPacks(start, ids, config, files)
      else Step(FoldPacks(start, ids, config, files).value, id, config, files)
  {
  }

  /**
   * The fold fails exactly when some pack in the list is enabled and its file
   * exists but does not parse, and it then fails with one such pack's file.
   */
  lemma {:induction false} FoldFails(start: Theme, ids: seq<string>, config: Config, files: Files)
    ensures FoldPacks(start, ids, config, files).Err? <==> exists id | id in ids :: Fails(id, config, files)
    ensures FoldPacks(start, ids, config, files).Err? ==>
      exists id | id in ids :: Fails(id, config, files) && FoldPacks(start, ids, config, files).error == MalformedFile(PackFile(id))
    decreases |ids|
  {
    if ids != [] {
      var front, last := ids[..|ids| - 1], ids[|ids| - 1];
      assert ids == front + [last];
      FoldFails(start, front, config, files);
    }
  }

  /**
   * Under a light scheme the generated theme uses the light-mode folder
   * icons whatever the packs hold; otherwise it keeps the base's.
   */
  lemma LightFolderOverride(files: Files, active: Option<ColorThemeKind>, config: Config)
    requires MergedTheme(files, active, config).Ok?
    ensures CurrentThemeType(active) == LightTheme ==>
      && MergedTheme(files, active, config).value.folder == Some(LightFolder)
      && MergedTheme(files, active, config).value.folderExpanded == Some(LightFolderOpen)
    ensures CurrentThemeType(active) != LightTheme ==>
      && MergedTheme(files, active, config).value.folder == files[BaseFile].theme.folder
      && MergedTheme(files, active, config).value.folderExpanded == files[BaseFile].theme.folderExpanded
  {
  }

  /**
   * A cycle fails exactly when the base is missing or does not parse, or
   * some enabled pack's file exists but does not parse.
   */
  lemma CycleFails(files: Files, active: Option<ColorThemeKind>, config: Config)
    ensures MergedTheme(files, active, config).Err? <==>
      BaseFile !in files || files[BaseFile].Malformed? || exists id | id in IconPacks :: Fails(id, config, files)
  {
    if BaseFile in files && files[BaseFile].Parsed? {
      FoldFails(PrepareBase(files[BaseFile].theme, CurrentThemeType(active)), IconPacks, config, files);
    }
  }

  /** The entry after a successful fold: the last pack's if it sets it, otherwise the entry after the packs before it. */
  lemma FoldLastEntry(start: Theme, ids: seq<string>, config: Config, files: Files, p: seq<Variant>, f: MapField, k: string)
    requires AllWellFormed(files)
    requires ids != [] && FoldPacks(start, ids, config, files).Ok?
    ensures FoldPacks(start, ids[..|ids| - 1], config, files).Ok?
    ensures Entry(Sub(FoldPacks(start, ids, config, files).value, p), f, k) ==
      if Contributes(ids[|ids| - 1], config, files, p, f, k) then Entry(Sub(OverlayDoc(files, ids[|ids| - 1]).value, p), f, k)
      else Entry(Sub(FoldPacks(start, ids[..|ids| - 1], config, files).value, p), f, k)
  {
    StepEntry(FoldPacks(start, ids[..|ids| - 1], config, files).value, ids[|ids| - 1], config, files, p, f, k);
  }

  /**
   * The last pack in the list that sets an entry decides it: packs later in
   * the list that do not set it, whether skipped or folded in, leave it as
   * that pack set it.
   */
  lemma {:induction false} LastContributorWins(
    start: Theme, ids: seq<string>, config: Config, files: Files, j: nat, p: seq<Variant>, f: MapField, k: string)
    requires AllWellFormed(files)
    requires FoldPacks(start, ids, config, files).Ok?
    requires j < |ids| && Contributes(ids[j], config, files, p, f, k)
    requires forall i | j < i < |ids| :: !Contributes(ids[i], config, files, p, f, k)
    ensures Entry(Sub(FoldPacks(start, ids, config, files).value, p), f, k) ==
      Entry(Sub(OverlayDoc(files, ids[j]).value, p), f, k)
    decreases |ids|
  {
    var n := |ids| - 1;
    var front := ids[..n];
    var id := ids[n];
    FoldLastEntry(start, ids, config, files, p, f, k);
    if j < n {
      forall i | j < i < |front|
        ensures !Contributes(front[i], config, files, p, f, k)
      {
        assert front[i] == ids[i];
      }
      assert front[j] == ids[j];
      LastContributorWins(start, front, config, files, j, p, f, k);
      assert !Contributes(id, config, files, p, f, k);
    }
  }

  /** One turn of the fold: a pack that sets the entry gives its value, any other leaves it. */
  lemma StepEntry(acc: Theme, id: string, config: Config, files: Files, p: seq<Variant>, f: MapField, k: string)
    requires AllWellFormed(files)
    requires Step(acc, id, config, files).Ok?
    ensures Entry(Sub(Step(acc, id, config, files).value, p), f, k) ==
      if Contributes(id, config, files, p, f, k) then Entry(Sub(OverlayDoc(files, id).value, p), f, k)
      else Entry(Sub(acc, p), f, k)
  {
    if Enabled(config, id) && PackFile(id) in files {
      var theme := files[PackFile(id)].theme;
      PreMergeLightWellFormed(theme);
      MergeThemesEntry(acc, PreMergeLight(theme), p, f, k);
    }
  }

  /** An entry that no folded-in pack sets keeps the value it had before the fold. */
  lemma {:induction false} FoldKeepsEntry(
    start: Theme, ids: seq<string>, config: Config, files: Files, p: seq<Variant>, f: MapField, k: string)
    requires AllWellFormed(files)
    requires FoldPacks(start, ids, config, files).Ok?
    requires forall i | 0 <= i < |ids| :: !Contributes(ids[i], config, files, p, f, k)
    ensures Entry(Sub(FoldPacks(start, ids, config, files).value, p), f, k) == Entry(Sub(start, p), f, k)
    decreases |ids|
  {
    if ids != [] {
      var n := |ids| - 1;
      FoldLastEntry(start, ids, config, files, p, f, k);
      assert forall i | 0 <= i < n :: ids[..n][i] == ids[i];
      FoldKeepsEntry(start, ids[..n], config, files, p, f, k);
    }
  }

  /** Two configurations in which a pack takes part alike, with the same file. */
  predicate SameStep(id: string, config1: Config, files1: Files, config2: Config, files2: Files) {
    var on1 := Enabled(config1, id) && PackFile(id) in files1;
    var on2 := Enabled(config2, id) && PackFile(id) in files2;
    on1 == on2 && (on1 ==> files1[PackFile(id)] == files2[PackFile(id)])
  }

  lemma {:induction false} FoldSameSteps(
    start: Theme, ids: seq<string>, config1: Config, files1: Files, config2: Config, files2: Files)
    requires forall i | 0 <= i < |ids| :: SameStep(ids[i], config1, files1, config2, files2)
    ensures FoldPacks(start, ids, config1, files1) == FoldPacks(start, ids, config2, files2)
    decreases |ids|
  {
    if ids != [] {
      FoldSameSteps(start, ids[..|ids| - 1], config1, files1, config2, files2);
    }
  }

  lemma PackFileInjective(a: string, b: string)
    requires PackFile(a) == PackFile(b)
    ensures a == b
  {
    assert a == PackFile(a)[..|a|];
    assert b == PackFile(b)[..|b|];
  }

  lemma PackFileNotBase(id: string)
    requires id in IconPacks
    ensures PackFile(id) != BaseFile
  {
  }

  /**
   * A pack that is disabled, or enabled but missing, has no effect: the
   * cycle gives what it gives with that pack's setting and file removed.
   */
  lemma SkippedPackIsInert(files: Files, active: Option<ColorThemeKind>, config: Config, id: string)
    requires id in IconPacks
    requires !Enabled(config, id) || PackFile(id) !in files
    ensures MergedTheme(files, active, config) == MergedTheme(files - {PackFile(id)}, active, config - {id})
  {
    var files', config' := files - {PackFile(id)}, config - {id};
    PackFileNotBase(id);
    forall i | 0 <= i < |IconPacks|
      ensures SameStep(IconPacks[i], config, files, config', files')
    {
      if PackFile(IconPacks[i]) == PackFile(id) {
        PackFileInjective(IconPacks[i], id);
      }
    }
    if BaseFile in files && files[BaseFile].Parsed? {
      var start := PrepareBase(files[BaseFile].theme, CurrentThemeType(active));
      FoldSameSteps(start, IconPacks, config, files, config', files');
    }
  }

  /** The `forEach` over the icon packs: each enabled pack whose file exists is parsed, pre-merged and folded in. */
  method FoldIconPacks(start: Theme, config: Config, files: Files) returns (result: Result<Theme, Failure>)
    ensures result == FoldPacks(start, IconPacks, config, files)
  {
    var merged := start;
    for i := 0 to |IconPacks|
      invariant FoldPacks(start, IconPacks[..i], config, files) == Ok(merged)
    {
      var id := IconPacks[i];
      assert IconPacks[..i + 1] == IconPacks[..i] + [id];
      FoldSnoc(start, IconPacks[..i], id, config, files);
      if Enabled(config, id) && PackFile(id) in files {
        match files[PackFile(id)] {
          case Malformed =>
            FoldAborts(start, IconPacks, i + 1, config, files);
            return Err(MalformedFile(PackFile(id)));
          case Parsed(theme) =>
            merged := MergeThemes(merged, PreMergeLight(theme));
        }
      }
    }
    assert IconPacks[..|IconPacks|] == IconPacks;
    return Ok(merged);
  }

  /** The extension's `themes/` directory. */
  class ThemesDirectory {
    /** What parsing each file under `themes/` gives, by file name. */
    var files: Files
    /** The text of the generated icon theme, `None` when that file does not exist. */
    var output: Option<string>
    /** How many times the generated icon theme has been written. */
    ghost var writes: nat

    constructor (files: Files, output: Option<string>)
      ensures this.files == files && this.output == output && writes == 0
    {
      this.files := files;
      this.output := output;
      writes := 0;
    }

    /**
     * One update cycle. `serialise` stands for `JSON.stringify(theme, null, 2)`.
     * A missing or unparsable base, or an enabled pack that does not parse,
     * ends the cycle with nothing written; otherwise the generated text is
     * written exactly when it differs from what the file holds.
     */
    method UpdateIconTheme(active: Option<ColorThemeKind>, config: Config, serialise: Theme -> string)
      returns (outcome: Outcome)
      modifies this`output, this`writes
      ensures MergedTheme(files, active, config).Err? ==>
        && outcome == Aborted(MergedTheme(files, active, config).error)
        && output == old(output) && writes == old(writes)
      ensures MergedTheme(files, active, config).Ok? ==>
        var text := serialise(MergedTheme(files, active, config).value);
        && output == Some(text)
        && (outcome == Written <==> old(output) != Some(text))
        && (outcome == Unchanged <==> old(output) == Some(text))
        && writes == old(writes) + (if outcome == Written then 1 else 0)
    {
      if BaseFile !in files {
        outcome := Aborted(MissingBase);
        return;
      }
      var current := output;
      var base: Theme;
      match files[BaseFile] {
        case Malformed =>
          outcome := Aborted(MalformedFile(BaseFile));
          return;
        case Parsed(t) =>
          base := t;
      }
      var scheme := CurrentThemeType(active);
      if scheme == LightTheme {
        base := base.(folder := Some(LightFolder), folderExpanded := Some(LightFolderOpen));
      }
      var folded := FoldIconPacks(PreMergeLight(base), config, files);
      if folded.Err? {
        outcome := Aborted(folded.error);
        return;
      }
      var merged := folded.value;
      var text := serialise(merged);
      if current != Some(text) {
        output := Some(text);
        writes := writes + 1;
        outcome := Written;
      } else {
        outcome := Unchanged;
      }
    }
  }

  /** Running the cycle a second time with nothing changed writes nothing. */
  method UpdateTwice(dir: ThemesDirectory, active: Option<ColorThemeKind>, config: Config, serialise: Theme -> string)
    returns (first: Outcome, second: Outcome)
    modifies dir`output, dir`writes
    ensures second != Written
    ensures first.Aborted? <==> second.Aborted?
    ensures dir.writes == old(dir.writes) + (if first == Written then 1 else 0)
  {
    first := dir.UpdateIconTheme(active, config, serialise);
    second := dir.UpdateIconTheme(active, config, serialise);
  }
}

/** Worked examples of one update cycle. */
module ThemeUpdateExamples {
  import opened Wrappers
  import opened IconTheme
  import opened ColorScheme
  import opened JsObjects
  import opened ThemeUpdate

  /** A fold in which only the pack at index `j` takes part is that pack's step. */
  lemma {:induction false} FoldOnlyOne(start: Theme, ids: seq<string>, j: nat, config: Config, files: Files)
    requires j < |ids|
    requires forall i | 0 <= i < |ids| && i != j :: !(Enabled(config, ids[i]) && PackFile(ids[i]) in files)
    requires Step(start, ids[j], config, files).Ok?
    ensures FoldPacks(start, ids, config, files) == Step(start, ids[j], config, files)
    decreases |ids|
  {
    var n := |ids| - 1;
    var front := ids[..n];
    assert forall i | 0 <= i < n :: front[i] == ids[i];
    assert ids == front + [ids[n]];
    FoldSnoc(start, front, ids[n], config, files);
    if j < n {
      FoldOnlyOne(start, front, j, config, files);
    } else {
      FoldSkipsAll(start, front, config, files);
    }
  }

  lemma {:induction false} FoldSkipsAll(start: Theme, ids: seq<string>, config: Config, files: Files)
    requires forall i | 0 <= i < |ids| :: !(Enabled(config, ids[i]) && PackFile(ids[i]) in files)
    ensures FoldPacks(start, ids, config, files) == Ok(start)
    decreases |ids|
  {
    if ids != [] {
      FoldSkipsAll(start, ids[..|ids| - 1], config, files);
    }
  }

  /** Base `{"iconDefinitions":{"a":{}},"fileExtensions":{"js":"a"}}`. */
  const EslintBase := Empty.(iconDefinitions := Some([("a", "{}")]), fileExtensions := Some([("js", "a")]))

  /** The eslint pack `{"fileExtensions":{"eslintrc":"e"}}`. */
  const EslintPack := Empty.(fileExtensions := Some([("eslintrc", "e")]))

  const EslintMerged: IconMap := [("js", "a"), ("eslintrc", "e")]

  lemma EslintStart()
    ensures PrepareBase(EslintBase, DarkTheme) == EslintBase.(light := Some(Empty.(fileExtensions := Some([("js", "a")]))))
  {
  }

  lemma EslintStep()
    ensures MergeThemes(PrepareBase(EslintBase, DarkTheme), PreMergeLight(EslintPack)) ==
      EslintBase.(fileExtensions := Some(EslintMerged), light := Some(Empty.(fileExtensions := Some(EslintMerged))))
  {
    EslintStart();
    assert PreMergeLight(EslintPack) == EslintPack.(light := Some(EslintPack));
    assert Spread([("js", "a")], [("eslintrc", "e")]) == EslintMerged;
    assert MergeThemes(Empty.(fileExtensions := Some([("js", "a")])), EslintPack) == Empty.(fileExtensions := Some(EslintMerged));
  }

  /**
   * The base above with the eslint pack enabled, under a dark scheme: the
   * light variant is filled from both documents' top levels.
   */
  lemma EslintExample()
    ensures
      var files := map[BaseFile := Parsed(EslintBase), PackFile("iconpack-eslint") := Parsed(EslintPack)];
      MergedTheme(files, Some(DarkKind), map["iconpack-eslint" := true]) ==
        Ok(EslintBase.(fileExtensions := Some(EslintMerged), light := Some(Empty.(fileExtensions := Some(EslintMerged)))))
  {
    var files := map[BaseFile := Parsed(EslintBase), PackFile("iconpack-eslint") := Parsed(EslintPack)];
    var config := map["iconpack-eslint" := true];
    assert IconPacks[2] == "iconpack-eslint";
    forall i | 0 <= i < |IconPacks| && i != 2
      ensures !Enabled(config, IconPacks[i])
    {
      assert IconPacks[i] != "iconpack-eslint";
    }
    var start := PrepareBase(EslintBase, DarkTheme);
    FoldOnlyOne(start, IconPacks, 2, config, files);
    EslintStep();
  }

  /**
   * A document with `fileExtensions` `{"ts":"icon-a"}` and a light variant
   * with `{"ts":"icon-b"}` keeps `icon-b` in its light variant after the
   * pre-merge.
   */
  lemma VariantPrecedenceExample()
    ensures
      var doc := Empty.(
        fileExtensions := Some([("ts", "icon-a")]),
        light := Some(Empty.(fileExtensions := Some([("ts", "icon-b")]))));
      Entry(Sub(PreMergeLight(doc), [Light]), FileExtensions, "ts") == Some("icon-b")
  {
  }
}
