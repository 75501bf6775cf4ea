/**
 * The in-memory part of generateConfigFile (scripts/generate-config.ts):
 * merge, strip the server-only top-level keys, validate, and recompute the
 * palette from the resolved theme name and type.
 */
module ConfigGenerator {
  import opened Wrappers
  import opened Js
  import opened Types
  import opened RemoteConfig
  import opened ConfigMerge
  import opened ConfigValidation

  /** Top-level keys that belong to the remote store's records and must not be published. */
  const ServerOnlyFields: seq<string> :=
    ["_id", "userId", "storeId", "subdomain", "createdAt", "updatedAt", "siteType", "store"]

  function StripServerFields(c: SiteConfig): (r: SiteConfig)
    ensures forall f :: f in ServerOnlyFields ==> f !in r.otherKeys
    ensures forall k :: k in c.otherKeys && k !in ServerOnlyFields ==> k in r.otherKeys && r.otherKeys[k] == c.otherKeys[k]
    ensures r.otherKeys.Keys <= c.otherKeys.Keys
    ensures r == c.(otherKeys := r.otherKeys)
  {
    c.(otherKeys := c.otherKeys - set f | f in ServerOnlyFields)
  }

  /** `mergedConfig.theme.theme = getTheme(themeName, themeType)`. */
  function SetPalette(c: SiteConfig): (r: SiteConfig)
    ensures r.theme.theme == GetTheme(c.theme.themeName, c.theme.themeType)
    ensures r.(theme := c.theme) == c && r.theme.(theme := c.theme.theme) == c.theme
  {
    c.(theme := c.theme.(theme := GetTheme(c.theme.themeName, c.theme.themeType)))
  }

  /** What generateConfigFile would serialise, or the validation error that stops it. */
  function Resolve(remote: PartialConfig, defaults: SiteConfig): (r: Result<SiteConfig, ConfigError>)
    requires CanMerge(remote, defaults)
    ensures r.Success? ==> forall f :: f in ServerOnlyFields ==> f !in r.value.otherKeys
    ensures r.Success? ==> r.value.theme.theme == GetTheme(r.value.theme.themeName, r.value.theme.themeType)
  {
    var stripped := StripServerFields(ApplyFallbackData(remote, defaults));
    match ValidationError(stripped)
    case Some(e) => Failure(e)
    case None => Success(SetPalette(stripped))
  }

  /**
   * The generator's sequence as the source runs it: merge, delete the
   * server-only keys one by one, validate, then overwrite the palette.
   */
  method GenerateConfig(remote: PartialConfig, defaults: SiteConfig) returns (r: Result<SiteConfig, ConfigError>)
    requires CanMerge(remote, defaults)
    ensures r == Resolve(remote, defaults)
    ensures r.Failure? <==> !IsValidConfig(StripServerFields(ApplyFallbackData(remote, defaults)))
    ensures r.Success? ==> forall f :: f in ServerOnlyFields ==> f !in r.value.otherKeys
    ensures r.Success? ==> r.value.theme.theme == GetTheme(r.value.theme.themeName, r.value.theme.themeType)
  {
    var merged := ApplyFallbackData(remote, defaults);
    ghost var initial := merged;
    for i := 0 to |ServerOnlyFields|
      invariant merged == initial.(otherKeys := initial.otherKeys - set j | 0 <= j < i :: ServerOnlyFields[j])
    {
      merged := merged.(otherKeys := merged.otherKeys - {ServerOnlyFields[i]});
    }
    assert (set j | 0 <= j < |ServerOnlyFields| :: ServerOnlyFields[j]) == set f | f in ServerOnlyFields;
    assert merged == StripServerFields(initial);
    var err := ValidateConfig(merged);
    if err.Some? {
      r := Failure(err.value);
    } else {
      merged := merged.(theme := merged.theme.(theme := GetTheme(merged.theme.themeName, merged.theme.themeType)));
      r := Success(merged);
    }
    ResolveFailsIffInvalid(remote, defaults);
  }

  // ---------------------------------------------------------------------------
  // Properties of the pipeline
  // ---------------------------------------------------------------------------

  /**
   * The published palette is always the table entry for the resolved theme
   * name and type, whatever palette the remote sent.
   */
  lemma ResolvedPaletteFromTheme(remote: PartialConfig, defaults: SiteConfig, palette: Theme)
    requires CanMerge(remote, defaults)
    requires remote.theme.Some?
    requires Resolve(remote, defaults).Success?
    ensures CanMerge(remote.(theme := Some(remote.theme.value.(theme := Some(palette)))), defaults)
    ensures var r := Resolve(remote, defaults).value;
            r.theme.theme == GetTheme(r.theme.themeName, r.theme.themeType)
    ensures Resolve(remote.(theme := Some(remote.theme.value.(theme := Some(palette)))), defaults)
            == Resolve(remote, defaults)
  {
    var other := remote.(theme := Some(remote.theme.value.(theme := Some(palette))));
    var m1 := StripServerFields(ApplyFallbackData(remote, defaults));
    var m2 := StripServerFields(ApplyFallbackData(other, defaults));
    assert m2 == m1.(theme := m1.theme.(theme := palette));
    ValidationIgnoresPalette(m1, palette);
  }

  /** Validation never looks at the palette itself, only at the theme name and type. */
  lemma ValidationIgnoresPalette(c: SiteConfig, palette: Theme)
    ensures ValidationError(c.(theme := c.theme.(theme := palette))) == ValidationError(c)
  {
    var d := c.(theme := c.theme.(theme := palette));
    FindIndexSamePredicate(RequiredSections, (s: Section) => SectionMissing(c, s), (s: Section) => SectionMissing(d, s));
    assert SectionError(d) == SectionError(c);
    assert HoursError(d) == HoursError(c);
    assert TestimonialsError(d) == TestimonialsError(c);
  }

  /**
   * With defaults that have a name, a description and a theme name and type,
   * the only checks that can fail are those on hours entries and testimonials:
   * the merge always fills the rest.
   */
  lemma OnlyEntryChecksCanFail(remote: PartialConfig, defaults: SiteConfig)
    requires CanMerge(remote, defaults)
    requires defaults.name != "" && defaults.description != ""
    requires defaults.theme.themeName != "" && defaults.theme.themeType != ""
    ensures Resolve(remote, defaults).Failure? ==>
              var e := Resolve(remote, defaults).error;
              e.InvalidBusinessHours? || e.InvalidTestimonial? || e.InvalidRating?
  {
    var m := StripServerFields(ApplyFallbackData(remote, defaults));
    assert m.name != "" && m.description != "";
    assert m.theme.themeName != "" && m.theme.themeType != "";
    MissingSectionExactly(m);
    if ValidationError(m).Some? {
      assert SectionError(m).None?;
      assert ValidationError(m) == HoursError(m) || ValidationError(m) == TestimonialsError(m);
    }
  }

  /** FindIndex depends only on the values of the predicate on the sequence's elements. */
  lemma {:induction false} FindIndexSamePredicate<T>(s: seq<T>, p: T -> bool, q: T -> bool)
    requires forall j :: 0 <= j < |s| ==> p(s[j]) == q(s[j])
    ensures FindIndex(s, p) == FindIndex(s, q)
  {
    if |s| > 0 && !p(s[0]) {
      FindIndexSamePredicate(s[1..], p, q);
    }
  }

  /** A merge that passes validation is published with its palette recomputed. */
  lemma ResolveValid(remote: PartialConfig, defaults: SiteConfig)
    requires CanMerge(remote, defaults)
    requires IsValidConfig(StripServerFields(ApplyFallbackData(remote, defaults)))
    ensures Resolve(remote, defaults) == Success(SetPalette(StripServerFields(ApplyFallbackData(remote, defaults))))
  {
    ValidationErrorNoneIff(StripServerFields(ApplyFallbackData(remote, defaults)));
  }

  /** Resolution fails exactly when the stripped merge fails validation, and with validateConfig's error. */
  lemma ResolveFailsIffInvalid(remote: PartialConfig, defaults: SiteConfig)
    requires CanMerge(remote, defaults)
    ensures var m := StripServerFields(ApplyFallbackData(remote, defaults));
            && (Resolve(remote, defaults).Failure? <==> !IsValidConfig(m))
            && (Resolve(remote, defaults).Failure? ==> Some(Resolve(remote, defaults).error) == ValidationError(m))
  {
    ValidationErrorNoneIff(StripServerFields(ApplyFallbackData(remote, defaults)));
  }

  /**
   * A published configuration has none of the server-only keys, and apart
   * from them it is exactly the merge of remote and defaults with the palette
   * replaced by the table entry for the merged theme name and type.
   */
  lemma ResolvedIsStrippedMerge(remote: PartialConfig, defaults: SiteConfig)
    requires CanMerge(remote, defaults)
    requires Resolve(remote, defaults).Success?
    ensures var r := Resolve(remote, defaults).value;
            var m := ApplyFallbackData(remote, defaults);
            && (forall f :: f in ServerOnlyFields ==> f !in r.otherKeys)
            && (forall k :: k in m.otherKeys && k !in ServerOnlyFields ==> k in r.otherKeys && r.otherKeys[k] == m.otherKeys[k])
            && r.(otherKeys := m.otherKeys) == SetPalette(m)
            && r.theme == m.theme.(theme := GetTheme(m.theme.themeName, m.theme.themeType))
  {
  }

  /**
   * Stripping before validating, as the source does, gives the same outcome
   * as validating first: validation never looks at the undeclared keys.
   */
  lemma StripDoesNotAffectValidation(c: SiteConfig)
    ensures ValidationError(StripServerFields(c)) == ValidationError(c)
  {
    var d := StripServerFields(c);
    assert forall s :: SectionTruthy(d, s) == SectionTruthy(c, s);
    FindIndexSamePredicate(RequiredSections, (s: Section) => SectionMissing(c, s), (s: Section) => SectionMissing(d, s));
  }

  /**
   * The merge copies its top-level keys from the defaults, so with defaults
   * free of server-only keys the strip step removes nothing.
   */
  lemma StripIsNoOpForCleanDefaults(remote: PartialConfig, defaults: SiteConfig)
    requires CanMerge(remote, defaults)
    requires forall f :: f in ServerOnlyFields ==> f !in defaults.otherKeys
    ensures StripServerFields(ApplyFallbackData(remote, defaults)) == ApplyFallbackData(remote, defaults)
  {
    var m := ApplyFallbackData(remote, defaults);
    assert StripServerFields(m).otherKeys == m.otherKeys;
  }
}
