/**
 * The generator run against the real default configuration: what it
 * publishes without remote data, for the scenario of a remote theme and a
 * single hours entry, and which failures remain possible at all.
 */
module ResolverScenarios {
  import opened Wrappers
  import opened Js
  import opened Types
  import opened RemoteConfig
  import opened ConfigMerge
  import opened ConfigValidation
  import opened ConfigGenerator
  import opened SiteConfigDefaults

  /** Every default keyed list is non-empty, so any remote configuration can be merged into the defaults. */
  lemma DefaultsAcceptAnyRemote(remote: PartialConfig)
    ensures CanMerge(remote, DefaultConfig)
  {
  }

  /**
   * With no remote data the published configuration is the default one with
   * its palette corrected to rustic dark.
   */
  lemma ResolveWithoutRemote()
    ensures CanMerge(EmptyRemote, DefaultConfig)
    ensures Resolve(EmptyRemote, DefaultConfig)
            == Success(DefaultConfig.(theme := ThemeSettings("rustic", "dark", DefaultPalettes["rustic"].dark)))
    ensures DefaultPalettes["rustic"].dark == Theme("#fef3c7", "#451a03", "#f97316", "#1c1917", "#fef3c7")
  {
    var m := DefaultMergeWithoutRemote();
    HoursValid();
    ValidWithDefaultTestimonials(m);
    ResolveValid(EmptyRemote, DefaultConfig);
  }

  lemma DefaultMergeWithoutRemote() returns (m: SiteConfig)
    ensures CanMerge(EmptyRemote, DefaultConfig)
    ensures m == StripServerFields(ApplyFallbackData(EmptyRemote, DefaultConfig))
    ensures m == DefaultConfig.(theme := ThemeSettings("rustic", "dark", DefaultPalettes["rustic"].dark))
    ensures SetPalette(m) == m
    ensures m.name != "" && m.description != "" && m.theme.themeName != "" && m.theme.themeType != ""
    ensures m.hours == DefaultHours && m.homepage.testimonials.items == DefaultTestimonials
  {
    EmptyRemoteYieldsDefaults(DefaultConfig);
    StripIsNoOpForCleanDefaults(EmptyRemote, DefaultConfig);
    m := ApplyFallbackData(EmptyRemote, DefaultConfig);
  }

  const OceanMondayRemote: PartialConfig := EmptyRemote.(
    theme := Some(PartialThemeSettings(Some("ocean"), Some("dark"), None)),
    hours := Some([PartialHours(Some("Monday"), Some("10:00"), Some("22:00"), None)]))

  /**
   * A remote theme of ocean/dark and one Monday entry: the palette is
   * ocean/dark, and the hours list is that single Monday entry; the other six
   * default days are gone, because the keyed merge maps over the remote list.
   * Every other section is the default one.
   */
  lemma OceanMondayScenario()
    ensures CanMerge(OceanMondayRemote, DefaultConfig)
    ensures Resolve(OceanMondayRemote, DefaultConfig)
            == Success(DefaultConfig.(
                 hours := [BusinessHours("Monday", "10:00", "22:00", None)],
                 theme := ThemeSettings("ocean", "dark", DefaultPalettes["ocean"].dark)))
  {
    var m := OceanMondayMerge();
    ValidWithDefaultTestimonials(m);
    ResolveValid(OceanMondayRemote, DefaultConfig);
  }

  /** The stripped merge of the ocean/Monday remote, before the palette is reset. */
  lemma OceanMondayMerge() returns (m: SiteConfig)
    ensures CanMerge(OceanMondayRemote, DefaultConfig)
    ensures m == StripServerFields(ApplyFallbackData(OceanMondayRemote, DefaultConfig))
    ensures m == DefaultConfig.(
              hours := [BusinessHours("Monday", "10:00", "22:00", None)],
              theme := ThemeSettings("ocean", "dark", DefaultPalettes["rustic"].dark))
    ensures m.name != "" && m.description != "" && m.theme.themeName != "" && m.theme.themeType != ""
    ensures m.hours == [BusinessHours("Monday", "10:00", "22:00", None)]
    ensures m.homepage.testimonials.items == DefaultTestimonials
    ensures SetPalette(m) == DefaultConfig.(
              hours := [BusinessHours("Monday", "10:00", "22:00", None)],
              theme := ThemeSettings("ocean", "dark", DefaultPalettes["ocean"].dark))
  {
    var hours := [PartialHours(Some("Monday"), Some("10:00"), Some("22:00"), None)];
    assert FallbackItem(DefaultHours, HoursKey, Some("Monday")) == DefaultHours[0];
    assert MergeHours(hours, DefaultHours) == [BusinessHours("Monday", "10:00", "22:00", None)];
    StripIsNoOpForCleanDefaults(OceanMondayRemote, DefaultConfig);
    m := ApplyFallbackData(OceanMondayRemote, DefaultConfig);
  }

  /**
   * A remote entry whose day matches no default day (here "monday", lower
   * case) is completed from the first default entry and keeps its own day;
   * it is still the only entry.
   */
  lemma UnmatchedDayScenario(open: string, close: string)
    ensures var remote := EmptyRemote.(hours := Some([PartialHours(Some("monday"), Some(open), Some(close), None)]));
            && CanMerge(remote, DefaultConfig)
            && ApplyFallbackData(remote, DefaultConfig).hours == [BusinessHours("monday", open, close, None)]
  {
    var source := [PartialHours(Some("monday"), Some(open), Some(close), None)];
    assert forall j :: 0 <= j < |DefaultHours| ==> DefaultHours[j].day != "monday";
    HoursUnmatchedDayUsesFirst(source, DefaultHours, 0);
  }

  /**
   * The only checks that can fail, whatever a remote configuration holds, when
   * the defaults are the real ones, are the hours and testimonial checks: the
   * defaults always fill name, description and theme.
   */
  lemma DefaultsOnlyEntryChecksCanFail(remote: PartialConfig)
    ensures CanMerge(remote, DefaultConfig)
    ensures Resolve(remote, DefaultConfig).Failure? ==>
              var e := Resolve(remote, DefaultConfig).error;
              e.InvalidBusinessHours? || e.InvalidTestimonial? || e.InvalidRating?
  {
    OnlyEntryChecksCanFail(remote, DefaultConfig);
  }

  const EmptyTestimonialsRemote: PartialConfig := EmptyRemote.(homepage := Some(PartialHomepage(
    None, None, None, Some(PartialTestimonials(None, None, Some([]))), None, None)))

  /**
   * A present but empty remote testimonial list empties the published list,
   * and validation lets it through (it iterates over no testimonials).
   */
  lemma EmptyTestimonialsAccepted()
    ensures CanMerge(EmptyTestimonialsRemote, DefaultConfig)
    ensures Resolve(EmptyTestimonialsRemote, DefaultConfig).Success?
    ensures Resolve(EmptyTestimonialsRemote, DefaultConfig).value.homepage.testimonials.items == []
  {
    var m := EmptyTestimonialsMerge();
    ValidWithDefaultHours(m);
    ResolveValid(EmptyTestimonialsRemote, DefaultConfig);
  }

  /** The stripped merge of a remote whose only content is an empty testimonial list. */
  lemma EmptyTestimonialsMerge() returns (m: SiteConfig)
    ensures CanMerge(EmptyTestimonialsRemote, DefaultConfig)
    ensures m == StripServerFields(ApplyFallbackData(EmptyTestimonialsRemote, DefaultConfig))
    ensures m.name != "" && m.description != "" && m.theme.themeName != "" && m.theme.themeType != ""
    ensures m.hours == DefaultHours
    ensures m.homepage.testimonials.items == []
  {
    StripIsNoOpForCleanDefaults(EmptyTestimonialsRemote, DefaultConfig);
    m := ApplyFallbackData(EmptyTestimonialsRemote, DefaultConfig);
  }
}
