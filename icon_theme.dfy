/**
 * Icon-theme documents and the two merges of `src/extension.js`:
 * `mergeThemes` ("overlay wins", recursive into the `light` and
 * `highContrast` variants) and `mergeThemeVariant` ("base wins", three maps
 * only). Documents are values, so "works on a deep copy and never mutates
 * its inputs" holds by construction.
 */
module IconTheme {
  import opened Wrappers
  import opened JsObjects

  /**
   * A mapping from a match pattern (or an icon id) to an icon id. The values
   * of `iconDefinitions` are JSON objects that the merges only copy; they
   * stand here as their serialised text.
   */
  type IconMap = Assoc<string>

  /**
   * An icon-theme document. A field that is absent is `None`; a present
   * object, even `{}`, is `Some`, because JavaScript treats every object as
   * true. `others` holds every other top-level field (name and serialised
   * value), which no merge reads.
   */
  datatype Theme = Theme(
    iconDefinitions: Option<IconMap>,
    fileExtensions: Option<IconMap>,
    fileNames: Option<IconMap>,
    folderNames: Option<IconMap>,
    folderNamesExpanded: Option<IconMap>,
    languageIds: Option<IconMap>,
    folder: Option<string>,
    folderExpanded: Option<string>,
    light: Option<Theme>,
    highContrast: Option<Theme>,
    others: Assoc<string>)

  /** The document `{}`. */
  const Empty := Theme(None, None, None, None, None, None, None, None, None, None, [])

  /** The six mapping fields that `mergeThemes` merges. */
  datatype MapField = IconDefinitions | FileExtensions | FileNames | FolderNames | FolderNamesExpanded | LanguageIds

  function Field(t: Theme, f: MapField): Option<IconMap> {
    match f
    case IconDefinitions => t.iconDefinitions
    case FileExtensions => t.fileExtensions
    case FileNames => t.fileNames
    case FolderNames => t.folderNames
    case FolderNamesExpanded => t.folderNamesExpanded
    case LanguageIds => t.languageIds
  }

  /** The three fields that `mergeThemeVariant` touches. */
  predicate VariantField(f: MapField) {
    f == FileExtensions || f == FileNames || f == LanguageIds
  }

  /** The nested sub-documents. */
  datatype Variant = Light | HighContrast

  /** `t.light || {}` and `t.highContrast || {}`. */
  function VariantOf(t: Theme, v: Variant): Theme {
    match v
    case Light => t.light.GetOr(Empty)
    case HighContrast => t.highContrast.GetOr(Empty)
  }

  /** The sub-document reached by following `p`, an absent variant read as `{}`. */
  function Sub(t: Theme, p: seq<Variant>): Theme
    decreases |p|
  {
    if p == [] then t else Sub(VariantOf(t, p[0]), p[1..])
  }

  /** `t[f][k]`, `undefined` (None) when the field or the key is missing. */
  function Entry(t: Theme, f: MapField, k: string): Option<string> {
    match Field(t, f)
    case None => None
    case Some(m) => Lookup(m, k)
  }

  /** The keys of `t[f]` in order, none when the field is absent. */
  function KeysOf(t: Theme, f: MapField): seq<string> {
    Keys(Field(t, f).GetOr([]))
  }

  /** What `JSON.parse` guarantees of every document: no mapping repeats a key, at any depth. */
  ghost predicate WellFormed(t: Theme)
    decreases t
  {
    && (forall f :: Field(t, f).Some? ==> Distinct(Keys(Field(t, f).value)))
    && (t.light.Some? ==> WellFormed(t.light.value))
    && (t.highContrast.Some? ==> WellFormed(t.highContrast.value))
  }

  /** `{...target, ...source}` on one field when `source` has it; otherwise `target`'s field as it is. */
  function OverlayWins(target: Option<IconMap>, source: Option<IconMap>): (r: Option<IconMap>)
    ensures r.Some? <==> target.Some? || source.Some?
    ensures source.None? ==> r == target
  {
    if source.Some? then Some(Spread(target.GetOr([]), source.value)) else target
  }

  /** `{...doc, ...variant}` on one field when `doc` has it; otherwise `variant`'s field as it is. */
  function BaseWins(variant: Option<IconMap>, doc: Option<IconMap>): (r: Option<IconMap>)
    ensures r.Some? <==> variant.Some? || doc.Some?
    ensures doc.None? ==> r == variant
  {
    if doc.Some? then Some(Spread(doc.value, variant.GetOr([]))) else variant
  }

  /**
   * `mergeThemes(target, source)`: a copy of `target` in which each mapping
   * field that `source` defines becomes `{...target[f], ...source[f]}`, and
   * each variant that `source` defines becomes the same merge of
   * `target`'s variant (or `{}`) with `source`'s.
   */
  function MergeThemes(target: Theme, source: Theme): (r: Theme)
    decreases source
    ensures r.folder == target.folder && r.folderExpanded == target.folderExpanded && r.others == target.others
    ensures r.light.Some? <==> target.light.Some? || source.light.Some?
    ensures r.highContrast.Some? <==> target.highContrast.Some? || source.highContrast.Some?
  {
    var light :=
      if source.light.Some? then Some(MergeThemes(target.light.GetOr(Empty), source.light.value))
      else target.light;
    var highContrast :=
      if source.highContrast.Some? then Some(MergeThemes(target.highContrast.GetOr(Empty), source.highContrast.value))
      else target.highContrast;
    target.(
      iconDefinitions := OverlayWins(target.iconDefinitions, source.iconDefinitions),
      fileExtensions := OverlayWins(target.fileExtensions, source.fileExtensions),
      fileNames := OverlayWins(target.fileNames, source.fileNames),
      folderNames := OverlayWins(target.folderNames, source.folderNames),
      folderNamesExpanded := OverlayWins(target.folderNamesExpanded, source.folderNamesExpanded),
      languageIds := OverlayWins(target.languageIds, source.languageIds),
      light := light,
      highContrast := highContrast)
  }

  /**
   * `mergeThemeVariant(variant, doc)`: a copy of `variant` in which
   * `fileExtensions`, `fileNames` and `languageIds` become
   * `{...doc[f], ...variant[f]}` when `doc` defines them.
   */
  function MergeThemeVariant(variant: Theme, doc: Theme): (r: Theme)
    ensures r.iconDefinitions == variant.iconDefinitions && r.folderNames == variant.folderNames
    ensures r.folderNamesExpanded == variant.folderNamesExpanded
    ensures r.folder == variant.folder && r.folderExpanded == variant.folderExpanded && r.others == variant.others
    ensures r.light == variant.light && r.highContrast == variant.highContrast
    ensures forall f | VariantField(f) :: Field(r, f).Some? <==> Field(variant, f).Some? || Field(doc, f).Some?
    ensures variant == Empty ==>
      r.fileExtensions == doc.fileExtensions && r.fileNames == doc.fileNames && r.languageIds == doc.languageIds
  {
    variant.(
      fileExtensions := BaseWins(variant.fileExtensions, doc.fileExtensions),
      fileNames := BaseWins(variant.fileNames, doc.fileNames),
      languageIds := BaseWins(variant.languageIds, doc.languageIds))
  }

  lemma EmptyWellFormed()
    ensures WellFormed(Empty)
  {
  }

  lemma MergeThemesField(target: Theme, source: Theme, f: MapField)
    ensures Field(MergeThemes(target, source), f) == OverlayWins(Field(target, f), Field(source, f))
  {
  }

  /** Merging in `{}` changes nothing. */
  lemma MergeEmpty(t: Theme)
    ensures MergeThemes(t, Empty) == t
  {
  }

  lemma MergeThemesVariantOf(target: Theme, source: Theme, v: Variant)
    ensures VariantOf(MergeThemes(target, source), v) == MergeThemes(VariantOf(target, v), VariantOf(source, v))
  {
  }

  /**
   * The recursion of `mergeThemes` seen from any depth: the sub-document of
   * the result along a path of variants is the merge of the two inputs'
   * sub-documents along it, absent variants read as `{}`.
   */
  lemma {:induction false} MergeThemesSub(target: Theme, source: Theme, p: seq<Variant>)
    ensures Sub(MergeThemes(target, source), p) == MergeThemes(Sub(target, p), Sub(source, p))
    ensures Sub(source, p) == Empty ==> Sub(MergeThemes(target, source), p) == Sub(target, p)
    decreases |p|
  {
    if p != [] {
      MergeThemesVariantOf(target, source, p[0]);
      MergeThemesSub(VariantOf(target, p[0]), VariantOf(source, p[0]), p[1..]);
    }
    MergeEmpty(Sub(target, p));
  }

  lemma {:induction false} SubWellFormed(t: Theme, p: seq<Variant>)
    requires WellFormed(t)
    ensures WellFormed(Sub(t, p))
    decreases |p|
  {
    if p != [] {
      EmptyWellFormed();
      SubWellFormed(VariantOf(t, p[0]), p[1..]);
    }
  }

  /**
   * Overlay wins, at every depth: an entry the source defines (in any of
   * the six mappings, at any variant path) is the result's entry; any other
   * entry is the target's, absent variants read as `{}`.
   */
  lemma MergeThemesEntry(target: Theme, source: Theme, p: seq<Variant>, f: MapField, k: string)
    requires WellFormed(source)
    ensures Entry(Sub(MergeThemes(target, source), p), f, k) ==
      if Entry(Sub(source, p), f, k).Some? then Entry(Sub(source, p), f, k) else Entry(Sub(target, p), f, k)
  {
    var t, s := Sub(target, p), Sub(source, p);
    MergeThemesSub(target, source, p);
    SubWellFormed(source, p);
    MergeThemesField(t, s, f);
    if Field(s, f).Some? {
      SpreadLookup(Field(t, f).GetOr([]), Field(s, f).value, k);
    }
  }

  /**
   * Key order at every depth: a merged mapping is defined iff either side
   * defines it, and lists the target's keys in their order followed by the
   * source's new keys in the source's order.
   */
  lemma MergeThemesKeys(target: Theme, source: Theme, p: seq<Variant>, f: MapField)
    requires WellFormed(source)
    ensures Field(Sub(MergeThemes(target, source), p), f).Some? <==>
      Field(Sub(target, p), f).Some? || Field(Sub(source, p), f).Some?
    ensures KeysOf(Sub(MergeThemes(target, source), p), f) ==
      KeysOf(Sub(target, p), f) + NewKeys(KeysOf(Sub(source, p), f), KeysOf(Sub(target, p), f))
  {
    var t, s := Sub(target, p), Sub(source, p);
    MergeThemesSub(target, source, p);
    SubWellFormed(source, p);
    MergeThemesField(t, s, f);
    if Field(s, f).Some? {
      SpreadKeys(Field(t, f).GetOr([]), Field(s, f).value);
    }
  }

  /** `folder`, `folderExpanded` and every other field come from the target, at every depth. */
  lemma MergeThemesScalars(target: Theme, source: Theme, p: seq<Variant>)
    ensures Sub(MergeThemes(target, source), p).folder == Sub(target, p).folder
    ensures Sub(MergeThemes(target, source), p).folderExpanded == Sub(target, p).folderExpanded
    ensures Sub(MergeThemes(target, source), p).others == Sub(target, p).others
  {
    MergeThemesSub(target, source, p);
  }

  /** The merge is closed over well-formed documents. */
  lemma {:induction false} MergeThemesWellFormed(target: Theme, source: Theme)
    requires WellFormed(target) && WellFormed(source)
    ensures WellFormed(MergeThemes(target, source))
    decreases source
  {
    var r := MergeThemes(target, source);
    forall f | Field(r, f).Some?
      ensures Distinct(Keys(Field(r, f).value))
    {
      MergeThemesField(target, source, f);
      if Field(source, f).Some? {
        SpreadDistinct(Field(target, f).GetOr([]), Field(source, f).value);
      }
    }
    EmptyWellFormed();
    if source.light.Some? {
      MergeThemesWellFormed(target.light.GetOr(Empty), source.light.value);
    }
    if source.highContrast.Some? {
      MergeThemesWellFormed(target.highContrast.GetOr(Empty), source.highContrast.value);
    }
  }

  /** Folding the same overlay in a second time changes nothing. */
  lemma {:induction false} MergeThemesIdempotent(target: Theme, source: Theme)
    requires WellFormed(source)
    ensures MergeThemes(MergeThemes(target, source), source) == MergeThemes(target, source)
    decreases source
  {
    var r := MergeThemes(target, source);
    forall f | Field(source, f).Some?
      ensures Spread(Field(r, f).value, Field(source, f).value) == Field(r, f).value
    {
      MergeThemesField(target, source, f);
      SpreadTwice(Field(target, f).GetOr([]), Field(source, f).value);
    }
    assert Field(source, IconDefinitions) == source.iconDefinitions;
    assert Field(source, FileExtensions) == source.fileExtensions;
    assert Field(source, FileNames) == source.fileNames;
    assert Field(source, FolderNames) == source.folderNames;
    assert Field(source, FolderNamesExpanded) == source.folderNamesExpanded;
    assert Field(source, LanguageIds) == source.languageIds;
    if source.light.Some? {
      MergeThemesIdempotent(target.light.GetOr(Empty), source.light.value);
    }
    if source.highContrast.Some? {
      MergeThemesIdempotent(target.highContrast.GetOr(Empty), source.highContrast.value);
    }
  }

  /**
   * Base wins: in the three variant fields an entry of `variant` is kept
   * over `doc`'s, `doc` fills in the rest, and the keys of `doc` come first;
   * every other field is `variant`'s.
   */
  lemma MergeThemeVariantEntry(variant: Theme, doc: Theme, f: MapField, k: string)
    requires WellFormed(variant)
    ensures VariantField(f) ==>
      Entry(MergeThemeVariant(variant, doc), f, k) ==
        if Entry(variant, f, k).Some? then Entry(variant, f, k) else Entry(doc, f, k)
    ensures VariantField(f) ==>
      KeysOf(MergeThemeVariant(variant, doc), f) == KeysOf(doc, f) + NewKeys(KeysOf(variant, f), KeysOf(doc, f))
    ensures !VariantField(f) ==> Field(MergeThemeVariant(variant, doc), f) == Field(variant, f)
  {
    if VariantField(f) && Field(doc, f).None? {
      NewKeysNone(KeysOf(variant, f));
    } else if VariantField(f) {
      var v := Field(variant, f).GetOr([]);
      assert Distinct(Keys(v));
      SpreadLookup(Field(doc, f).value, v, k);
      SpreadKeys(Field(doc, f).value, v);
    }
  }

  lemma {:induction false} NewKeysNone(ks: seq<string>)
    ensures NewKeys(ks, []) == ks
  {
    if ks != [] {
      NewKeysNone(ks[1..]);
    }
  }

  lemma MergeThemeVariantWellFormed(variant: Theme, doc: Theme)
    requires WellFormed(variant) && WellFormed(doc)
    ensures WellFormed(MergeThemeVariant(variant, doc))
  {
    var r := MergeThemeVariant(variant, doc);
    forall f | Field(r, f).Some?
      ensures Distinct(Keys(Field(r, f).value))
    {
      if VariantField(f) && Field(doc, f).Some? {
        SpreadDistinct(Field(doc, f).value, Field(variant, f).GetOr([]));
      }
    }
  }
}
