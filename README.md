# Icon-theme merge for the Atom Material icons extension, in Dafny

This project models how the editor extension in `src/extension.js` builds its
generated icon theme. It starts from `themes/base-theme.json` and folds in every enabled icon
pack (`themes/iconpack-*.json`). Then it writes
`a-wl-file-icon-vscode-icon-theme.json`, but only when the text changed.

The model has five modules:

- `Wrappers` (`wrappers.dfy`): `Option` and `Result`.
- `JsObjects` (`js_objects.dfy`): JSON objects as JavaScript keeps them, an insertion-ordered list of properties.
  - `Put` is CreateDataProperty.
  - `Spread(a, b)` is `{...a, ...b}`. It defines `b`'s properties, in order, over `a`.
- `IconTheme` (`icon_theme.dfy`): the document type and the two merges.
  - `MergeThemes` is the "overlay wins" merge. It recurses into `light` and `highContrast`.
  - `MergeThemeVariant` is the "base wins" merge over `fileExtensions`, `fileNames` and `languageIds`.
  - Documents are values, so the merges work on copies and never mutate their inputs.
  - `Sub(t, p)` follows a path of variants and reads an absent variant as `{}`. The lemmas use it to state each property at every depth.
- `ColorScheme` (`color_scheme.dfy`): `getCurrentThemeType`.
- `ThemeUpdate` (`theme_update.dfy`): the update cycle.
  - `MergedTheme` is the pure specification of one cycle.
  - The class `ThemesDirectory` holds the parsed files under `themes/`, the text of the generated file, and a ghost count of writes.
  - Its method `UpdateIconTheme` keeps the source's imperative form. It overrides the base's folders in place, reassigns the accumulator in a loop over the 15 pack ids (`FoldIconPacks`), and writes conditionally. It is proved against `MergedTheme`.
  - `ThemeUpdateExamples` works two concrete inputs through the model.

Two choices in how the model represents the documents:

- A present object, even `{}`, is `Some`, because JavaScript treats every object as true. An absent field is `None`.
- Parsed documents never repeat a key within one object. The lemmas that need this say so with `WellFormed`/`AllWellFormed`.

Three behaviours of the code that the model keeps as written:

- An enabled icon pack whose file does not parse makes `JSON.parse` throw at line 164. The `catch` at line 191 then ends the whole cycle without a write. The model does the same (`Aborted(MalformedFile(..))`): it does not skip that pack.
- The `light` variant is a full document in the code. `mergeThemes` merges all six maps and both variants inside it. The model does the same: `light` is not restricted to three fields.
- `highContrast` gets no pre-merge. It is merged with the "overlay wins" rule, exactly as written.

## Model

| member | source | states |
|---|---|---|
| `JsObjects.Spread` | src/extension.js:202-205 | `{...a, ...b}` has at least as many properties as `a`, and at most one more for each property of `b`; values and order are given by `SpreadLookup` and `SpreadKeys` |
| `JsObjects.SpreadLookup` | src/extension.js:202-205 | in `{...a, ...b}` a key that `b` has takes `b`'s value, and any other key keeps `a`'s |
| `JsObjects.SpreadKeys` | src/extension.js:202-205 | `{...a, ...b}` lists `a`'s keys in their order, then the keys of `b` that `a` lacks, in `b`'s order |
| `JsObjects.SpreadDistinct` | src/extension.js:202-205 | a spread onto an object without repeated keys has none either |
| `JsObjects.SpreadTwice` | src/extension.js:202-205 | spreading the same object twice gives what spreading it once gives |
| `IconTheme.OverlayWins` | src/extension.js:201-246 | one field of `mergeThemes`: defined iff either side defines it, and the target's as it is when the source lacks it; values and order are given by `MergeThemesEntry` and `MergeThemesKeys` |
| `IconTheme.BaseWins` | src/extension.js:267-286 | one field of `mergeThemeVariant`: defined iff either side defines it, and the variant's as it is when the document lacks it; values and order are given by `MergeThemeVariantEntry` |
| `IconTheme.MergeThemes` | src/extension.js:197-262 | `folder`, `folderExpanded` and every other field come from the target; `light` and `highContrast` are defined in the result iff either side defines them, so no variant is ever removed (for the six maps see `MergeThemesKeys`) |
| `IconTheme.MergeThemesEntry` | src/extension.js:201-259 | at every variant depth and in each of the six maps, an entry the source defines is the result's, and every other entry is the target's (an absent variant read as `{}`) |
| `IconTheme.MergeThemesKeys` | src/extension.js:201-246 | at every depth a merged map is defined iff either side's is, so no map is ever removed, and it lists the target's keys and then the source's new keys in order |
| `IconTheme.MergeThemesScalars` | src/extension.js:198-261 | `folder`, `folderExpanded` and all other fields of the result are the target's at every depth, whatever the source holds |
| `IconTheme.MergeThemesSub` | src/extension.js:248-259 | the sub-document along any variant path is the same `mergeThemes` of the two sides' sub-documents, with a missing one read as `{}`; where the source's sub-document is `{}` (absent or empty), the result's is the target's |
| `IconTheme.MergeThemesWellFormed` | src/extension.js:197-262 | the merge of two documents without repeated keys has none, so its result can be merged again |
| `IconTheme.MergeThemesIdempotent` | src/extension.js:197-262 | merging the same source a second time changes nothing |
| `IconTheme.MergeThemeVariant` | src/extension.js:264-289 | every field except `fileExtensions`, `fileNames` and `languageIds` is the variant's; those three are defined iff either side defines them; with `{}` as the variant they are exactly the document's |
| `IconTheme.MergeThemeVariantEntry` | src/extension.js:267-286 | in the three fields the variant's entry wins over the document's and the document's keys come first; the other map fields are the variant's |
| `IconTheme.MergeThemeVariantWellFormed` | src/extension.js:264-289 | the variant merge keeps documents free of repeated keys |
| `ColorScheme.CurrentThemeType` | src/extension.js:42-64 | Light and HighContrastLight give light, HighContrast gives high contrast, and Dark, an unknown kind or no active theme give dark (each an iff) |
| `ThemeUpdate.PreMergeLight` | src/extension.js:165 | only `light` changes, and it is always defined afterwards; a document without `light` gets exactly its own top-level `fileExtensions`, `fileNames` and `languageIds` there |
| `ThemeUpdate.PreMergeLightEntry` | src/extension.js:113 | in the pre-merged light variant, what the variant already had wins, and the document's top-level entries fill in the rest |
| `ThemeUpdate.FoldAborts` | src/extension.js:161-172 | once an enabled pack fails to parse, the cycle fails with that error whatever follows |
| `ThemeUpdate.PrepareBase` | src/extension.js:105-113 | under a light scheme the base gets `default_folder_light`/`default_folder_open_light`, otherwise it keeps its folders; `light` is always defined afterwards, and no other field changes (the light entries are given by `PreMergeLightEntry`) |
| `ThemeUpdate.Step` | src/extension.js:163-166 | one turn of the loop fails iff the pack is enabled and its file exists but does not parse, naming that file; it never changes `folder`/`folderExpanded`; a disabled or absent pack leaves the accumulator as it is (entries are given by `StepEntry`) |
| `ThemeUpdate.FoldPacks` | src/extension.js:161-172 | the fold never changes `folder` or `folderExpanded`, and it only fails on a file that does not parse (when it fails is given by `FoldFails`, what it computes by `LastContributorWins` and `FoldKeepsEntry`) |
| `ThemeUpdate.FoldFails` | src/extension.js:161-191 | the fold fails iff some listed pack is enabled and its file exists but does not parse, and then with one such pack's file name |
| `ThemeUpdate.MergedTheme` | src/extension.js:86-172 | the cycle stops with `MissingBase` iff the base file is absent, and with the base's file name when the base does not parse (its result is given by `LightFolderOverride`, `LastContributorWins`, `FoldKeepsEntry` and `CycleFails`) |
| `ThemeUpdate.CycleFails` | src/extension.js:85-191 | a cycle fails iff the base is missing or does not parse, or some enabled pack's file exists but does not parse |
| `ThemeUpdate.LightFolderOverride` | src/extension.js:107-111 | under a light scheme the output's `folder`/`folderExpanded` are `default_folder_light`/`default_folder_open_light` whatever the packs hold; otherwise they are the base's |
| `ThemeUpdate.StepEntry` | src/extension.js:163-166 | one turn of the loop: a pack that sets an entry gives it its value, and any other pack leaves it |
| `ThemeUpdate.LastContributorWins` | src/extension.js:138-172 | an entry set by several taking-part packs has the value of the last of them in the list order |
| `ThemeUpdate.FoldKeepsEntry` | src/extension.js:161-172 | an entry that no taking-part pack sets keeps the base's value |
| `ThemeUpdate.FoldSameSteps` | src/extension.js:161-172 | the fold depends only on which packs take part and on their files |
| `ThemeUpdate.SkippedPackIsInert` | src/extension.js:138-172 | a pack that is disabled, or enabled with no file, yields the output of a run with that pack's setting and file removed |
| `ThemeUpdate.FoldIconPacks` | src/extension.js:161-172 | the loop over the 15 pack ids computes the fold of the packs in list order: a pack folds in only when it is enabled and its file exists, and the first enabled pack that does not parse stops it with that error |
| `ThemeUpdate.ThemesDirectory.UpdateIconTheme` | src/extension.js:86-190 | a missing or unparsable base, or an unparsable enabled pack, ends the cycle with no write; otherwise the file holds the serialised merge afterwards and is written iff its old text differed |
| `ThemeUpdate.UpdateTwice` | src/extension.js:175-190 | a second run with unchanged inputs writes nothing |
| `ThemeUpdateExamples.EslintExample` | src/extension.js:104-182 | a base with `js` and the eslint pack with `eslintrc` give `{js, eslintrc}` both at the top level and in `light` |
| `ThemeUpdateExamples.VariantPrecedenceExample` | src/extension.js:113 | a light variant's `ts` entry survives the pre-merge against a top-level `ts` |

## Left out

- `activate`, `deactivate` and the configuration and color-theme watchers (lines 8-36 and 291). These are host-editor plumbing. Each event runs one `UpdateIconTheme`.
- The extension-path lookup (lines 69-75). It is a host-editor call; the model starts once the path is known.
- Reading settings. It is a host-editor call. Settings are given as a map from pack id to boolean, and an unset id reads as `false`.
- The active color theme. It comes from the editor and is given as an optional `ColorThemeKind`.
- The notifications, the console logging and the error message of the `catch`. These only report; the model returns an `Outcome` instead.
- File I/O and path handling. The files under `themes/` are a map from file name to parsed content or `Malformed`, and the generated file is an optional text.
- A failure to read the existing generated file (lines 97-101) is not modelled. The code treats it like an absent file. A failure of `writeFileSync` is not modelled either.
- `JSON.stringify` is the `serialise` parameter: any deterministic function of the document. The order of a document's top-level fields is not represented. For example, the code appends `light` last when it was absent. Within each map, key order is modelled.
- `JSON.parse` is done: documents arrive parsed. JavaScript's rule that integer-like keys come first, in numeric order, is not modelled. Neither are non-object JSON values (`null`, numbers, strings, arrays), whose truthiness and spreading differ: not in the map fields and not as a whole file. A theme file that parses to `null` would throw at line 165 and end the cycle, and one that parses to a number would be a silent no-op at lines 165-166. `Stored` only holds an object or `Malformed`; the bundled theme files are all objects.
- The values in `iconDefinitions` and in fields outside the six maps are opaque serialised text. The merges only copy them.
- `JsObjects.SpreadLookup`, `JsObjects.SpreadKeys`, `IconTheme.MergeThemesEntry`, `IconTheme.MergeThemesKeys`, `ThemeUpdate.LastContributorWins` and `ThemeUpdate.FoldKeepsEntry` assume that the source side has no repeated keys. `JSON.parse` guarantees this.
