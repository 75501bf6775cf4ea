/**
 * The fallback merge of the configuration generator: how a partial remote
 * configuration is completed from the default one (applyFallbackData in
 * scripts/generate-config.ts).
 */
module ConfigMerge {
  import opened Wrappers
  import opened Js
  import opened Types
  import opened RemoteConfig

  // ---------------------------------------------------------------------------
  // Keyed list merge (mergeArrayItems)
  // ---------------------------------------------------------------------------

  /** No default item before index `j` carries key `k`. */
  ghost predicate NoEarlierKey<F, K>(fallback: seq<F>, key: F -> K, k: K, j: int)
    requires 0 <= j <= |fallback|
  {
    forall m :: 0 <= m < j ==> key(fallback[m]) != k
  }

  /**
   * The default item a remote item is completed from: the first default item
   * whose key equals the remote item's key, or the first default item when
   * none matches. A remote item without a key matches nothing.
   */
  function FallbackItem<F, K(==)>(fallback: seq<F>, key: F -> K, k: Option<K>): (f: F)
    requires |fallback| > 0
    ensures k.Some? ==>
              forall j :: 0 <= j < |fallback| && key(fallback[j]) == k.value && NoEarlierKey(fallback, key, k.value, j)
                ==> f == fallback[j]
    ensures k.None? || (forall j :: 0 <= j < |fallback| ==> key(fallback[j]) != k.value) ==> f == fallback[0]
  {
    if k.None? then fallback[0]
    else
      match FindIndex(fallback, (d: F) => key(d) == k.value)
      case Some(j) => fallback[j]
      case None => fallback[0]
  }

  /**
   * One merged item per remote item, in remote order: each remote item laid
   * over its fallback item. Default items are only ever used as fallbacks.
   */
  function MergeArrayItems<P, F, K(==)>(
    source: seq<P>, fallback: seq<F>, key: F -> K, remoteKey: P -> Option<K>, overlay: (F, P) -> F): (r: seq<F>)
    requires |source| > 0 ==> |fallback| > 0
    ensures |r| == |source|
    ensures forall i :: 0 <= i < |source| ==> r[i] == overlay(FallbackItem(fallback, key, remoteKey(source[i])), source[i])
  {
    seq(|source|, i requires 0 <= i < |source| => overlay(FallbackItem(fallback, key, remoteKey(source[i])), source[i]))
  }

  function HoursKey(h: BusinessHours): string { h.day }
  function PartialHoursKey(p: PartialHours): Option<string> { p.day }

  /**
   * `{ ...fallbackItem, ...item }` for a business-hours entry: every field the
   * remote entry gives wins, every field it omits is the fallback entry's.
   */
  function OverlayHours(f: BusinessHours, p: PartialHours): (r: BusinessHours)
    ensures p.day.Some? ==> r.day == p.day.value
    ensures p.day.None? ==> r.day == f.day
    ensures p.open.Some? ==> r.open == p.open.value
    ensures p.open.None? ==> r.open == f.open
    ensures p.close.Some? ==> r.close == p.close.value
    ensures p.close.None? ==> r.close == f.close
    ensures p.isClosed.Some? ==> r.isClosed == p.isClosed
    ensures p.isClosed.None? ==> r.isClosed == f.isClosed
    ensures p == PartialHours(Some(f.day), None, None, None) ==> r == f
  {
    BusinessHours(Spread(p.day, f.day), Spread(p.open, f.open), Spread(p.close, f.close), SpreadOptional(p.isClosed, f.isClosed))
  }

  /** The keyed merge of hours entries: one entry per remote entry, keeping a day the remote entry gives. */
  function MergeHours(source: seq<PartialHours>, fallback: seq<BusinessHours>): (r: seq<BusinessHours>)
    requires |source| > 0 ==> |fallback| > 0
    ensures |r| == |source|
    ensures forall i :: 0 <= i < |source| && source[i].day.Some? ==> r[i].day == source[i].day.value
  {
    MergeArrayItems(source, fallback, HoursKey, PartialHoursKey, OverlayHours)
  }

  function FeatureKey(f: Feature): string { f.id }
  function PartialFeatureKey(p: PartialFeature): Option<string> { p.id }

  /** `{ ...fallbackItem, ...item }` for a feature: given fields win, omitted ones are the fallback's. */
  function OverlayFeature(f: Feature, p: PartialFeature): (r: Feature)
    ensures p.id.Some? ==> r.id == p.id.value
    ensures p.id.None? ==> r.id == f.id
    ensures p.title.Some? ==> r.title == p.title.value
    ensures p.title.None? ==> r.title == f.title
    ensures p.description.Some? ==> r.description == p.description.value
    ensures p.description.None? ==> r.description == f.description
    ensures p.image.Some? ==> r.image == p.image.value
    ensures p.image.None? ==> r.image == f.image
    ensures p == PartialFeature(Some(f.id), None, None, None) ==> r == f
  {
    Feature(Spread(p.id, f.id), Spread(p.title, f.title), Spread(p.description, f.description), Spread(p.image, f.image))
  }

  /** The keyed merge of features: one feature per remote item, keeping an id the remote item gives. */
  function MergeFeatures(source: seq<PartialFeature>, fallback: seq<Feature>): (r: seq<Feature>)
    requires |source| > 0 ==> |fallback| > 0
    ensures |r| == |source|
    ensures forall i :: 0 <= i < |source| && source[i].id.Some? ==> r[i].id == source[i].id.value
  {
    MergeArrayItems(source, fallback, FeatureKey, PartialFeatureKey, OverlayFeature)
  }

  function TestimonialKey(t: Testimonial): string { t.id }
  function PartialTestimonialKey(p: PartialTestimonial): Option<string> { p.id }

  /** `{ ...fallbackItem, ...item }` for a testimonial: given fields win, omitted ones are the fallback's. */
  function OverlayTestimonial(f: Testimonial, p: PartialTestimonial): (r: Testimonial)
    ensures p.id.Some? ==> r.id == p.id.value
    ensures p.id.None? ==> r.id == f.id
    ensures p.author.Some? ==> r.author == p.author.value
    ensures p.author.None? ==> r.author == f.author
    ensures p.role.Some? ==> r.role == p.role
    ensures p.role.None? ==> r.role == f.role
    ensures p.content.Some? ==> r.content == p.content.value
    ensures p.content.None? ==> r.content == f.content
    ensures p.image.Some? ==> r.image == p.image
    ensures p.image.None? ==> r.image == f.image
    ensures p.rating.Some? ==> r.rating == p.rating.value
    ensures p.rating.None? ==> r.rating == f.rating
    ensures p == PartialTestimonial(Some(f.id), None, None, None, None, None) ==> r == f
  {
    Testimonial(
      Spread(p.id, f.id), Spread(p.author, f.author), SpreadOptional(p.role, f.role),
      Spread(p.content, f.content), SpreadOptional(p.image, f.image), Spread(p.rating, f.rating))
  }

  /** The keyed merge of testimonials: one testimonial per remote item, keeping an id the remote item gives. */
  function MergeTestimonials(source: seq<PartialTestimonial>, fallback: seq<Testimonial>): (r: seq<Testimonial>)
    requires |source| > 0 ==> |fallback| > 0
    ensures |r| == |source|
    ensures forall i :: 0 <= i < |source| && source[i].id.Some? ==> r[i].id == source[i].id.value
  {
    MergeArrayItems(source, fallback, TestimonialKey, PartialTestimonialKey, OverlayTestimonial)
  }

  // ---------------------------------------------------------------------------
  // Section overlays
  // ---------------------------------------------------------------------------

  /** `{ ...defaults.address, ...config.address }`. */
  function MergeAddress(d: Address, r: Option<PartialAddress>): (a: Address)
    ensures r.None? ==> a == d
    ensures r.Some? ==>
              && FieldOverlaid(a.street, r.value.street, d.street) && FieldOverlaid(a.city, r.value.city, d.city)
              && FieldOverlaid(a.state, r.value.state, d.state) && FieldOverlaid(a.zip, r.value.zip, d.zip)
              && FieldOverlaid(a.country, r.value.country, d.country)
  {
    match r
    case None => d
    case Some(p) =>
      Address(Spread(p.street, d.street), Spread(p.city, d.city), Spread(p.state, d.state),
              Spread(p.zip, d.zip), Spread(p.country, d.country))
  }

  /** `{ ...defaults.contact.form, ...config.contact?.form }`. */
  function MergeContactForm(d: ContactForm, r: Option<PartialContactForm>): (f: ContactForm)
    ensures r.None? ==> f == d
    ensures r.Some? ==>
              && FieldOverlaid(f.namePlaceholder, r.value.namePlaceholder, d.namePlaceholder)
              && FieldOverlaid(f.emailPlaceholder, r.value.emailPlaceholder, d.emailPlaceholder)
              && FieldOverlaid(f.phonePlaceholder, r.value.phonePlaceholder, d.phonePlaceholder)
              && FieldOverlaid(f.messagePlaceholder, r.value.messagePlaceholder, d.messagePlaceholder)
              && FieldOverlaid(f.submitButtonText, r.value.submitButtonText, d.submitButtonText)
  {
    match r
    case None => d
    case Some(p) =>
      ContactForm(
        Spread(p.namePlaceholder, d.namePlaceholder), Spread(p.emailPlaceholder, d.emailPlaceholder),
        Spread(p.phonePlaceholder, d.phonePlaceholder), Spread(p.messagePlaceholder, d.messagePlaceholder),
        Spread(p.submitButtonText, d.submitButtonText))
  }

  /** `{ ...defaults.contact.contactDetails, ...config.contact?.contactDetails }`. */
  function MergeContactDetails(d: ContactDetails, r: Option<PartialContactDetails>): (c: ContactDetails)
    ensures r.None? ==> c == d
    ensures r.Some? ==>
              && FieldOverlaid(c.address, r.value.address, d.address) && FieldOverlaid(c.email, r.value.email, d.email)
              && FieldOverlaid(c.phone, r.value.phone, d.phone) && FieldOverlaid(c.whatsapp, r.value.whatsapp, d.whatsapp)
  {
    match r
    case None => d
    case Some(p) =>
      ContactDetails(Spread(p.address, d.address), Spread(p.email, d.email), Spread(p.phone, d.phone),
                     Spread(p.whatsapp, d.whatsapp))
  }

  /** form and contactDetails are merged one level further down; the rest of contact is a plain overlay. */
  function MergeContact(d: Contact, r: Option<PartialContact>): (c: Contact)
    ensures r.None? ==> c == d
    ensures r.Some? ==>
              && FieldOverlaid(c.title, r.value.title, d.title) && FieldOverlaid(c.subtitle, r.value.subtitle, d.subtitle)
              && FieldOverlaid(c.mapUrl, r.value.mapUrl, d.mapUrl)
              && (r.value.form.None? ==> c.form == d.form)
              && (r.value.contactDetails.None? ==> c.contactDetails == d.contactDetails)
  {
    match r
    case None => d
    case Some(p) =>
      Contact(Spread(p.title, d.title), Spread(p.subtitle, d.subtitle),
              MergeContactForm(d.form, p.form), MergeContactDetails(d.contactDetails, p.contactDetails),
              Spread(p.mapUrl, d.mapUrl))
  }

  /** Object spread of two records of links is map union with the remote side winning. */
  function MergeSocial(d: SocialLinks, r: Option<SocialLinks>): (s: SocialLinks)
    ensures r.None? ==> s == d
    ensures r.Some? ==> s.Keys == d.Keys + r.value.Keys
    ensures r.Some? ==> forall k :: k in s ==> s[k] == if k in r.value then r.value[k] else d[k]
  {
    match r
    case None => d
    case Some(s) => d + s
  }

  /** A present list of occasions or policies replaces the default one, even when empty (arrays are truthy). */
  function MergeReservation(d: Reservation, r: Option<PartialReservation>): (v: Reservation)
    ensures r.None? ==> v == d
    ensures r.Some? ==>
              && FieldOverlaid(v.enabled, r.value.enabled, d.enabled) && FieldOverlaid(v.provider, r.value.provider, d.provider)
              && FieldOverlaid(v.url, r.value.url, d.url) && FieldOverlaid(v.title, r.value.title, d.title)
              && FieldOverlaid(v.subtitle, r.value.subtitle, d.subtitle)
              && FieldOverlaid(v.submitButtonText, r.value.submitButtonText, d.submitButtonText)
              && FieldOverlaid(v.occasions, r.value.occasions, d.occasions)
              && FieldOverlaid(v.policies, r.value.policies, d.policies)
  {
    match r
    case None => d
    case Some(p) =>
      Reservation(
        Spread(p.enabled, d.enabled), Spread(p.provider, d.provider), Spread(p.url, d.url),
        Spread(p.title, d.title), Spread(p.subtitle, d.subtitle), Spread(p.submitButtonText, d.submitButtonText),
        p.occasions.GetOr(d.occasions), p.policies.GetOr(d.policies))
  }

  /**
   * Name and type fall back with `||`. The palette is the remote one if it is
   * given, else it is looked up from the DEFAULT name and type, because the
   * result's theme has not been replaced yet when the lookup runs.
   */
  function MergeTheme(d: ThemeSettings, r: Option<PartialThemeSettings>): (t: ThemeSettings)
    ensures r.Some? && r.value.themeName.Some? && r.value.themeName.value != "" ==> t.themeName == r.value.themeName.value
    ensures r.None? || r.value.themeName.None? || r.value.themeName.value == "" ==> t.themeName == d.themeName
    ensures r.Some? && r.value.themeType.Some? && r.value.themeType.value != "" ==> t.themeType == r.value.themeType.value
    ensures r.None? || r.value.themeType.None? || r.value.themeType.value == "" ==> t.themeType == d.themeType
    ensures r.Some? && r.value.theme.Some? ==> t.theme == r.value.theme.value
    ensures r.None? || r.value.theme.None? ==> t.theme == GetTheme(d.themeName, d.themeType)
  {
    var p := r.GetOr(PartialThemeSettings(None, None, None));
    ThemeSettings(
      OrElse(p.themeName, d.themeName),
      OrElse(p.themeType, d.themeType),
      p.theme.GetOr(GetTheme(d.themeName, d.themeType)))
  }

  function MergeLink(d: CtaLink, r: Option<PartialLink>): (l: CtaLink)
    ensures r.None? ==> l == d
    ensures r.Some? ==> FieldOverlaid(l.text, r.value.text, d.text) && FieldOverlaid(l.link, r.value.link, d.link)
  {
    match r
    case None => d
    case Some(p) => CtaLink(Spread(p.text, d.text), Spread(p.link, d.link))
  }

  /** The hero is overlaid, and so is each of its two links, one level down. */
  function MergeHero(d: Hero, r: Option<PartialHero>): (h: Hero)
    ensures r.None? ==> h == d
    ensures r.Some? ==>
              && FieldOverlaid(h.heading, r.value.heading, d.heading)
              && FieldOverlaid(h.subheading, r.value.subheading, d.subheading)
              && FieldOverlaid(h.backgroundImage, r.value.backgroundImage, d.backgroundImage)
              && (r.value.cta.None? ==> h.cta == d.cta)
  {
    match r
    case None => d
    case Some(p) =>
      var cta := p.cta.GetOr(PartialHeroCta(None, None));
      Hero(Spread(p.heading, d.heading), Spread(p.subheading, d.subheading),
           Spread(p.backgroundImage, d.backgroundImage),
           HeroCta(MergeLink(d.cta.primary, cta.primary), MergeLink(d.cta.secondary, cta.secondary)))
  }

  function MergeAbout(d: About, r: Option<PartialAbout>): (a: About)
    ensures r.None? ==> a == d
    ensures r.Some? ==>
              && FieldOverlaid(a.title, r.value.title, d.title)
              && FieldOverlaid(a.description, r.value.description, d.description)
              && FieldOverlaid(a.image, r.value.image, d.image) && FieldOverlaid(a.stats, r.value.stats, d.stats)
  {
    match r
    case None => d
    case Some(p) =>
      About(Spread(p.title, d.title), Spread(p.description, d.description), Spread(p.image, d.image),
            p.stats.GetOr(d.stats))
  }

  function MergeFeaturesSection(d: FeaturesSection, r: Option<PartialFeatures>): (f: FeaturesSection)
    requires r.Some? && r.value.items.Some? && |r.value.items.value| > 0 ==> |d.items| > 0
    ensures r.None? ==> f == d
    ensures r.Some? ==>
              && FieldOverlaid(f.title, r.value.title, d.title) && FieldOverlaid(f.subtitle, r.value.subtitle, d.subtitle)
              && (r.value.items.None? ==> f.items == d.items)
              && (r.value.items.Some? ==> |f.items| == |r.value.items.value|)
  {
    match r
    case None => d
    case Some(p) =>
      FeaturesSection(Spread(p.title, d.title), Spread(p.subtitle, d.subtitle),
                      if p.items.Some? then MergeFeatures(p.items.value, d.items) else d.items)
  }

  function MergeTestimonialsSection(d: TestimonialsSection, r: Option<PartialTestimonials>): (t: TestimonialsSection)
    requires r.Some? && r.value.items.Some? && |r.value.items.value| > 0 ==> |d.items| > 0
    ensures r.None? ==> t == d
    ensures r.Some? ==>
              && FieldOverlaid(t.title, r.value.title, d.title) && FieldOverlaid(t.subtitle, r.value.subtitle, d.subtitle)
              && (r.value.items.None? ==> t.items == d.items)
              && (r.value.items.Some? ==> |t.items| == |r.value.items.value|)
  {
    match r
    case None => d
    case Some(p) =>
      TestimonialsSection(Spread(p.title, d.title), Spread(p.subtitle, d.subtitle),
                          if p.items.Some? then MergeTestimonials(p.items.value, d.items) else d.items)
  }

  /**
   * A remote gallery image keeps only url, caption and alt; the caption
   * defaults to "" and the alt text to the caption.
   */
  function NormalizeImage(img: GalleryImage): (r: GalleryImage)
    ensures r.url == img.url
    ensures r.caption.Some? && r.alt.Some?
    ensures img.caption.Some? ==> r.caption == img.caption
    ensures img.caption.None? ==> r.caption == Some("")
    ensures img.alt.Some? && img.alt.value != "" ==> r.alt == img.alt
    ensures img.alt.None? || img.alt.value == "" ==> r.alt == r.caption
  {
    GalleryImage(img.url, Some(OrElse(img.caption, "")), Some(OrElse(img.alt, OrElse(img.caption, ""))))
  }

  function NormalizeCategories(cats: seq<GalleryCategory>): (r: seq<GalleryCategory>)
    ensures |r| == |cats|
    ensures forall i :: 0 <= i < |cats| ==> r[i].name == cats[i].name && |r[i].images| == |cats[i].images|
    ensures forall i, k :: 0 <= i < |cats| && 0 <= k < |cats[i].images| ==> r[i].images[k] == NormalizeImage(cats[i].images[k])
  {
    seq(|cats|, i requires 0 <= i < |cats| =>
      GalleryCategory(cats[i].name, seq(|cats[i].images|, k requires 0 <= k < |cats[i].images| => NormalizeImage(cats[i].images[k]))))
  }

  /** Remote categories, when given, replace the default ones wholesale. */
  function MergeGallery(d: Gallery, r: Option<PartialGallery>): (g: Gallery)
    ensures r.None? || r.value.categories.None? ==> g == d
    ensures r.Some? && r.value.categories.Some? ==>
              && |g.categories| == |r.value.categories.value|
              && forall i :: 0 <= i < |g.categories| ==> g.categories[i].name == r.value.categories.value[i].name
  {
    if r.Some? && r.value.categories.Some? then Gallery(NormalizeCategories(r.value.categories.value)) else d
  }

  function MergeCallToAction(d: CallToAction, r: Option<PartialCallToAction>): (c: CallToAction)
    ensures r.None? ==> c == d
    ensures r.Some? ==>
              && FieldOverlaid(c.title, r.value.title, d.title) && FieldOverlaid(c.subtitle, r.value.subtitle, d.subtitle)
              && FieldOverlaid(c.buttonText, r.value.buttonText, d.buttonText)
              && FieldOverlaid(c.buttonLink, r.value.buttonLink, d.buttonLink)
              && FieldOverlaid(c.backgroundImage, r.value.backgroundImage, d.backgroundImage)
  {
    match r
    case None => d
    case Some(p) =>
      CallToAction(Spread(p.title, d.title), Spread(p.subtitle, d.subtitle), Spread(p.buttonText, d.buttonText),
                   Spread(p.buttonLink, d.buttonLink), Spread(p.backgroundImage, d.backgroundImage))
  }

  function RemoteFeatureItems(config: PartialConfig): Option<seq<PartialFeature>> {
    if config.homepage.Some? && config.homepage.value.features.Some? then config.homepage.value.features.value.items
    else None
  }

  function RemoteTestimonialItems(config: PartialConfig): Option<seq<PartialTestimonial>> {
    if config.homepage.Some? && config.homepage.value.testimonials.Some? then config.homepage.value.testimonials.value.items
    else None
  }

  /**
   * Every non-empty remote keyed list has a default list to fall back on. (With
   * an empty default list the source would build items from the remote fields
   * alone, which the typed records cannot hold.)
   */
  predicate CanMerge(config: PartialConfig, defaults: SiteConfig) {
    && (config.hours.Some? && |config.hours.value| > 0 ==> |defaults.hours| > 0)
    && (RemoteFeatureItems(config).Some? && |RemoteFeatureItems(config).value| > 0
        ==> |defaults.homepage.features.items| > 0)
    && (RemoteTestimonialItems(config).Some? && |RemoteTestimonialItems(config).value| > 0
        ==> |defaults.homepage.testimonials.items| > 0)
  }

  /** Every homepage section merged with its own rule; a remote homepage with no sections keeps the default one. */
  function MergeHomepage(d: Homepage, p: PartialHomepage): (h: Homepage)
    requires p.features.Some? && p.features.value.items.Some? && |p.features.value.items.value| > 0 ==> |d.features.items| > 0
    requires p.testimonials.Some? && p.testimonials.value.items.Some? && |p.testimonials.value.items.value| > 0
             ==> |d.testimonials.items| > 0
    ensures p == PartialHomepage(None, None, None, None, None, None) ==> h == d
    ensures p.hero.None? ==> h.hero == d.hero
    ensures p.about.None? ==> h.about == d.about
    ensures p.features.None? ==> h.features == d.features
    ensures p.testimonials.None? ==> h.testimonials == d.testimonials
    ensures p.gallery.None? ==> h.gallery == d.gallery
    ensures p.cta.None? ==> h.cta == d.cta
  {
    Homepage(
      MergeHero(d.hero, p.hero),
      MergeAbout(d.about, p.about),
      MergeFeaturesSection(d.features, p.features),
      MergeTestimonialsSection(d.testimonials, p.testimonials),
      MergeGallery(d.gallery, p.gallery),
      MergeCallToAction(d.cta, p.cta))
  }

  /**
   * The complete configuration: the default one with every section replaced
   * by its merge with the remote one. The result is a copy of the defaults, so
   * its undeclared top-level keys are the defaults' and never the remote's.
   */
  function ApplyFallbackData(config: PartialConfig, defaults: SiteConfig): (result: SiteConfig)
    requires CanMerge(config, defaults)
    ensures result.otherKeys == defaults.otherKeys
    ensures result.theme.themeName == OrElse(if config.theme.Some? then config.theme.value.themeName else None, defaults.theme.themeName)
    ensures result.theme.themeType == OrElse(if config.theme.Some? then config.theme.value.themeType else None, defaults.theme.themeType)
  {
    SiteConfig(
      OrElse(config.name, defaults.name),
      OrElse(config.description, defaults.description),
      MergeAddress(defaults.address, config.address),
      MergeContact(defaults.contact, config.contact),
      MergeSocial(defaults.social, config.social),
      if config.hours.Some? && |config.hours.value| > 0 then MergeHours(config.hours.value, defaults.hours)
      else defaults.hours,
      MergeReservation(defaults.reservation, config.reservation),
      MergeTheme(defaults.theme, config.theme),
      if config.homepage.Some? then MergeHomepage(defaults.homepage, config.homepage.value) else defaults.homepage,
      defaults.otherKeys)
  }

  // ---------------------------------------------------------------------------
  // Properties of the keyed list merge
  // ---------------------------------------------------------------------------

  /**
   * The merged hours list has exactly one entry per remote entry, in remote
   * order, and each entry's day is the remote day (or, for a remote entry
   * without a day, the first default day).
   */
  lemma HoursMergeKeys(source: seq<PartialHours>, fallback: seq<BusinessHours>)
    requires |source| > 0 ==> |fallback| > 0
    ensures |MergeHours(source, fallback)| == |source|
    ensures forall i :: 0 <= i < |source| ==> MergeHours(source, fallback)[i].day == source[i].day.GetOr(fallback[0].day)
  {
    var r := MergeHours(source, fallback);
    forall i | 0 <= i < |source|
      ensures r[i].day == source[i].day.GetOr(fallback[0].day)
    {
      var f := FallbackItem(fallback, HoursKey, PartialHoursKey(source[i]));
      assert r[i] == OverlayHours(f, source[i]);
    }
  }

  /** A default day that no remote entry names does not survive the merge. */
  lemma HoursMergeDropsUnnamedDays(source: seq<PartialHours>, fallback: seq<BusinessHours>, day: string)
    requires |source| > 0 ==> |fallback| > 0
    requires forall i :: 0 <= i < |source| ==> source[i].day.Some? && source[i].day.value != day
    ensures forall h :: h in MergeHours(source, fallback) ==> h.day != day
  {
    HoursMergeKeys(source, fallback);
  }

  /** A remote entry that gives only a day is completed from the first default entry for that day. */
  lemma HoursKeyOnlyEntryCompleted(source: seq<PartialHours>, fallback: seq<BusinessHours>, i: nat, j: nat)
    requires i < |source| && j < |fallback|
    requires source[i] == PartialHours(Some(fallback[j].day), None, None, None)
    requires NoEarlierKey(fallback, HoursKey, fallback[j].day, j)
    ensures MergeHours(source, fallback)[i] == fallback[j]
  {
    assert HoursKey(fallback[j]) == fallback[j].day;
  }

  /** A remote entry whose day matches no default entry takes its missing fields from the first default entry. */
  lemma HoursUnmatchedDayUsesFirst(source: seq<PartialHours>, fallback: seq<BusinessHours>, i: nat)
    requires i < |source| && |fallback| > 0
    requires source[i].day.Some?
    requires forall j :: 0 <= j < |fallback| ==> fallback[j].day != source[i].day.value
    ensures MergeHours(source, fallback)[i]
            == BusinessHours(source[i].day.value, source[i].open.GetOr(fallback[0].open),
                             source[i].close.GetOr(fallback[0].close),
                             if source[i].isClosed.Some? then source[i].isClosed else fallback[0].isClosed)
  {
    assert forall j :: 0 <= j < |fallback| ==> HoursKey(fallback[j]) != source[i].day.value;
  }

  /**
   * A remote entry whose day is a default day is laid over the first default
   * entry for that day: the times and closed flag it gives win, the ones it
   * omits are that entry's.
   */
  lemma HoursMatchedDayOverlay(source: seq<PartialHours>, fallback: seq<BusinessHours>, i: nat, j: nat)
    requires i < |source| && j < |fallback|
    requires source[i].day == Some(fallback[j].day)
    requires NoEarlierKey(fallback, HoursKey, fallback[j].day, j)
    ensures MergeHours(source, fallback)[i]
            == BusinessHours(fallback[j].day, source[i].open.GetOr(fallback[j].open),
                             source[i].close.GetOr(fallback[j].close),
                             if source[i].isClosed.Some? then source[i].isClosed else fallback[j].isClosed)
  {
    assert HoursKey(fallback[j]) == fallback[j].day;
  }

  /** A remote feature that gives only an id is completed from the first default feature with that id. */
  lemma FeatureKeyOnlyItemCompleted(source: seq<PartialFeature>, fallback: seq<Feature>, i: nat, j: nat)
    requires i < |source| && j < |fallback|
    requires source[i] == PartialFeature(Some(fallback[j].id), None, None, None)
    requires NoEarlierKey(fallback, FeatureKey, fallback[j].id, j)
    ensures MergeFeatures(source, fallback)[i] == fallback[j]
  {
    assert FeatureKey(fallback[j]) == fallback[j].id;
  }

  /** A remote feature whose id matches no default feature takes its missing fields from the first default feature. */
  lemma FeatureUnmatchedIdUsesFirst(source: seq<PartialFeature>, fallback: seq<Feature>, i: nat)
    requires i < |source| && |fallback| > 0
    requires source[i].id.Some?
    requires forall j :: 0 <= j < |fallback| ==> fallback[j].id != source[i].id.value
    ensures MergeFeatures(source, fallback)[i]
            == Feature(source[i].id.value, source[i].title.GetOr(fallback[0].title),
                       source[i].description.GetOr(fallback[0].description), source[i].image.GetOr(fallback[0].image))
  {
    assert forall j :: 0 <= j < |fallback| ==> FeatureKey(fallback[j]) != source[i].id.value;
  }

  /** A remote feature whose id is a default id is laid over the first default feature with that id. */
  lemma FeatureMatchedIdOverlay(source: seq<PartialFeature>, fallback: seq<Feature>, i: nat, j: nat)
    requires i < |source| && j < |fallback|
    requires source[i].id == Some(fallback[j].id)
    requires NoEarlierKey(fallback, FeatureKey, fallback[j].id, j)
    ensures MergeFeatures(source, fallback)[i]
            == Feature(fallback[j].id, source[i].title.GetOr(fallback[j].title),
                       source[i].description.GetOr(fallback[j].description), source[i].image.GetOr(fallback[j].image))
  {
    assert FeatureKey(fallback[j]) == fallback[j].id;
  }

  /** A remote testimonial that gives only an id is completed from the first default testimonial with that id. */
  lemma TestimonialKeyOnlyItemCompleted(source: seq<PartialTestimonial>, fallback: seq<Testimonial>, i: nat, j: nat)
    requires i < |source| && j < |fallback|
    requires source[i] == PartialTestimonial(Some(fallback[j].id), None, None, None, None, None)
    requires NoEarlierKey(fallback, TestimonialKey, fallback[j].id, j)
    ensures MergeTestimonials(source, fallback)[i] == fallback[j]
  {
    assert TestimonialKey(fallback[j]) == fallback[j].id;
  }

  /** A remote testimonial whose id matches no default one takes its missing fields from the first default one. */
  lemma TestimonialUnmatchedIdUsesFirst(source: seq<PartialTestimonial>, fallback: seq<Testimonial>, i: nat)
    requires i < |source| && |fallback| > 0
    requires source[i].id.Some?
    requires forall j :: 0 <= j < |fallback| ==> fallback[j].id != source[i].id.value
    ensures MergeTestimonials(source, fallback)[i]
            == Testimonial(source[i].id.value, source[i].author.GetOr(fallback[0].author),
                           if source[i].role.Some? then source[i].role else fallback[0].role,
                           source[i].content.GetOr(fallback[0].content),
                           if source[i].image.Some? then source[i].image else fallback[0].image,
                           source[i].rating.GetOr(fallback[0].rating))
  {
    assert forall j :: 0 <= j < |fallback| ==> TestimonialKey(fallback[j]) != source[i].id.value;
  }

  /** A remote testimonial whose id is a default id is laid over the first default testimonial with that id. */
  lemma TestimonialMatchedIdOverlay(source: seq<PartialTestimonial>, fallback: seq<Testimonial>, i: nat, j: nat)
    requires i < |source| && j < |fallback|
    requires source[i].id == Some(fallback[j].id)
    requires NoEarlierKey(fallback, TestimonialKey, fallback[j].id, j)
    ensures MergeTestimonials(source, fallback)[i]
            == Testimonial(fallback[j].id, source[i].author.GetOr(fallback[j].author),
                           if source[i].role.Some? then source[i].role else fallback[j].role,
                           source[i].content.GetOr(fallback[j].content),
                           if source[i].image.Some? then source[i].image else fallback[j].image,
                           source[i].rating.GetOr(fallback[j].rating))
  {
    assert TestimonialKey(fallback[j]) == fallback[j].id;
  }

  // ---------------------------------------------------------------------------
  // Properties of the whole merge
  // ---------------------------------------------------------------------------

  /** name and description: the remote value when it is a non-empty string, else the default. */
  lemma ScalarFallbacks(config: PartialConfig, defaults: SiteConfig)
    requires CanMerge(config, defaults)
    ensures config.name.Some? && config.name.value != "" ==> ApplyFallbackData(config, defaults).name == config.name.value
    ensures config.name.None? || config.name.value == "" ==> ApplyFallbackData(config, defaults).name == defaults.name
    ensures config.description.Some? && config.description.value != ""
            ==> ApplyFallbackData(config, defaults).description == config.description.value
    ensures config.description.None? || config.description.value == ""
            ==> ApplyFallbackData(config, defaults).description == defaults.description
  {
  }

  /**
   * Field-wise overlays: a field the remote section gives wins (even when
   * empty), a field it omits keeps the default; social links are the union of
   * both records with the remote URL winning on a shared platform.
   */
  lemma SectionOverlays(config: PartialConfig, defaults: SiteConfig)
    requires CanMerge(config, defaults)
    ensures var r := ApplyFallbackData(config, defaults);
            config.address.Some? ==>
              && r.address.street == config.address.value.street.GetOr(defaults.address.street)
              && r.address.city == config.address.value.city.GetOr(defaults.address.city)
              && r.address.state == config.address.value.state.GetOr(defaults.address.state)
              && r.address.zip == config.address.value.zip.GetOr(defaults.address.zip)
              && r.address.country == config.address.value.country.GetOr(defaults.address.country)
    ensures var r := ApplyFallbackData(config, defaults);
            config.address.None? ==> r.address == defaults.address
    ensures var r := ApplyFallbackData(config, defaults);
            config.contact.Some? && config.contact.value.contactDetails.Some? ==>
              r.contact.contactDetails.whatsapp
              == config.contact.value.contactDetails.value.whatsapp.GetOr(defaults.contact.contactDetails.whatsapp)
    ensures var r := ApplyFallbackData(config, defaults);
            config.contact.None? ==> r.contact == defaults.contact
    ensures var r := ApplyFallbackData(config, defaults);
            r.social.Keys == defaults.social.Keys + (if config.social.Some? then config.social.value.Keys else {})
    ensures var r := ApplyFallbackData(config, defaults);
            forall k :: k in r.social ==>
              r.social[k] == if config.social.Some? && k in config.social.value then config.social.value[k]
                             else defaults.social[k]
  {
  }

  /**
   * Contact: title, subtitle and mapUrl are overlaid directly; the form and
   * the contact details are overlaid one level further down, so a remote
   * contact section without them keeps the default ones whole.
   */
  lemma ContactOverlay(config: PartialConfig, defaults: SiteConfig)
    requires CanMerge(config, defaults)
    ensures var r := ApplyFallbackData(config, defaults).contact;
            var d := defaults.contact;
            config.contact.Some? ==>
              var p := config.contact.value;
              && r.title == p.title.GetOr(d.title)
              && r.subtitle == p.subtitle.GetOr(d.subtitle)
              && r.mapUrl == p.mapUrl.GetOr(d.mapUrl)
              && (p.form.None? ==> r.form == d.form)
              && (p.form.Some? ==>
                    r.form == ContactForm(
                      p.form.value.namePlaceholder.GetOr(d.form.namePlaceholder),
                      p.form.value.emailPlaceholder.GetOr(d.form.emailPlaceholder),
                      p.form.value.phonePlaceholder.GetOr(d.form.phonePlaceholder),
                      p.form.value.messagePlaceholder.GetOr(d.form.messagePlaceholder),
                      p.form.value.submitButtonText.GetOr(d.form.submitButtonText)))
              && (p.contactDetails.None? ==> r.contactDetails == d.contactDetails)
              && (p.contactDetails.Some? ==>
                    r.contactDetails == ContactDetails(
                      p.contactDetails.value.address.GetOr(d.contactDetails.address),
                      p.contactDetails.value.email.GetOr(d.contactDetails.email),
                      p.contactDetails.value.phone.GetOr(d.contactDetails.phone),
                      p.contactDetails.value.whatsapp.GetOr(d.contactDetails.whatsapp)))
  {
  }

  /** Reservation: every scalar field the remote section gives wins; the two lists are taken whole when given. */
  lemma ReservationOverlay(config: PartialConfig, defaults: SiteConfig)
    requires CanMerge(config, defaults)
    ensures config.reservation.None? ==> ApplyFallbackData(config, defaults).reservation == defaults.reservation
    ensures var r := ApplyFallbackData(config, defaults).reservation;
            var d := defaults.reservation;
            config.reservation.Some? ==>
              var p := config.reservation.value;
              r == Reservation(
                p.enabled.GetOr(d.enabled), p.provider.GetOr(d.provider), p.url.GetOr(d.url),
                p.title.GetOr(d.title), p.subtitle.GetOr(d.subtitle), p.submitButtonText.GetOr(d.submitButtonText),
                p.occasions.GetOr(d.occasions), p.policies.GetOr(d.policies))
  {
  }

  /**
   * Hero: heading, subheading and background image are overlaid; each of the
   * two call-to-action links is overlaid on its default link, and a link the
   * remote hero does not reach (no hero, no cta, or no such link) stays the
   * default one.
   */
  lemma HeroOverlay(config: PartialConfig, defaults: SiteConfig)
    requires CanMerge(config, defaults)
    ensures var d := defaults.homepage.hero;
            config.homepage.Some? ==>
              var r := ApplyFallbackData(config, defaults).homepage.hero;
              var h := config.homepage.value.hero;
              && (h.None? ==> r == d)
              && (h.Some? ==>
                    && r.heading == h.value.heading.GetOr(d.heading)
                    && r.subheading == h.value.subheading.GetOr(d.subheading)
                    && r.backgroundImage == h.value.backgroundImage.GetOr(d.backgroundImage))
    ensures var d := defaults.homepage.hero.cta.primary;
            config.homepage.Some? ==>
              var r := ApplyFallbackData(config, defaults).homepage.hero.cta.primary;
              var h := config.homepage.value.hero;
              if h.Some? && h.value.cta.Some? && h.value.cta.value.primary.Some?
              then r == CtaLink(h.value.cta.value.primary.value.text.GetOr(d.text),
                                h.value.cta.value.primary.value.link.GetOr(d.link))
              else r == d
    ensures var d := defaults.homepage.hero.cta.secondary;
            config.homepage.Some? ==>
              var r := ApplyFallbackData(config, defaults).homepage.hero.cta.secondary;
              var h := config.homepage.value.hero;
              if h.Some? && h.value.cta.Some? && h.value.cta.value.secondary.Some?
              then r == CtaLink(h.value.cta.value.secondary.value.text.GetOr(d.text),
                                h.value.cta.value.secondary.value.link.GetOr(d.link))
              else r == d
  {
  }

  /** About and the closing call to action: every field the remote section gives wins, stats taken whole. */
  lemma AboutAndCtaOverlay(config: PartialConfig, defaults: SiteConfig)
    requires CanMerge(config, defaults)
    ensures var d := defaults.homepage.about;
            config.homepage.Some? ==>
              var r := ApplyFallbackData(config, defaults).homepage.about;
              var a := config.homepage.value.about;
              && (a.None? ==> r == d)
              && (a.Some? ==>
                    r == About(a.value.title.GetOr(d.title), a.value.description.GetOr(d.description),
                               a.value.image.GetOr(d.image), a.value.stats.GetOr(d.stats)))
    ensures var d := defaults.homepage.cta;
            config.homepage.Some? ==>
              var r := ApplyFallbackData(config, defaults).homepage.cta;
              var c := config.homepage.value.cta;
              && (c.None? ==> r == d)
              && (c.Some? ==>
                    r == CallToAction(c.value.title.GetOr(d.title), c.value.subtitle.GetOr(d.subtitle),
                                      c.value.buttonText.GetOr(d.buttonText), c.value.buttonLink.GetOr(d.buttonLink),
                                      c.value.backgroundImage.GetOr(d.backgroundImage)))
  {
  }

  /**
   * Features: the section's title and subtitle are overlaid, and a present
   * remote list (even an empty one) is replaced by its keyed merge with the
   * default items; without one the default items stay.
   */
  lemma FeaturesSectionOverlay(config: PartialConfig, defaults: SiteConfig)
    requires CanMerge(config, defaults)
    ensures var d := defaults.homepage.features;
            config.homepage.Some? ==>
              var r := ApplyFallbackData(config, defaults).homepage.features;
              var f := config.homepage.value.features;
              && (f.None? ==> r == d)
              && (f.Some? ==>
                    && r.title == f.value.title.GetOr(d.title)
                    && r.subtitle == f.value.subtitle.GetOr(d.subtitle)
                    && (f.value.items.None? ==> r.items == d.items))
    ensures RemoteFeatureItems(config).Some? ==>
              ApplyFallbackData(config, defaults).homepage.features.items
              == MergeFeatures(RemoteFeatureItems(config).value, defaults.homepage.features.items)
  {
  }

  /** Testimonials: the same rule as for features, keyed by id. */
  lemma TestimonialsSectionOverlay(config: PartialConfig, defaults: SiteConfig)
    requires CanMerge(config, defaults)
    ensures var d := defaults.homepage.testimonials;
            config.homepage.Some? ==>
              var r := ApplyFallbackData(config, defaults).homepage.testimonials;
              var t := config.homepage.value.testimonials;
              && (t.None? ==> r == d)
              && (t.Some? ==>
                    && r.title == t.value.title.GetOr(d.title)
                    && r.subtitle == t.value.subtitle.GetOr(d.subtitle)
                    && (t.value.items.None? ==> r.items == d.items))
    ensures RemoteTestimonialItems(config).Some? ==>
              ApplyFallbackData(config, defaults).homepage.testimonials.items
              == MergeTestimonials(RemoteTestimonialItems(config).value, defaults.homepage.testimonials.items)
  {
  }

  /** Hours are replaced only by a non-empty remote list, and then by one merged entry per remote entry. */
  lemma HoursRule(config: PartialConfig, defaults: SiteConfig)
    requires CanMerge(config, defaults)
    ensures config.hours.None? || config.hours == Some([]) ==> ApplyFallbackData(config, defaults).hours == defaults.hours
    ensures config.hours.Some? && |config.hours.value| > 0
            ==> ApplyFallbackData(config, defaults).hours == MergeHours(config.hours.value, defaults.hours)
                && |ApplyFallbackData(config, defaults).hours| == |config.hours.value|
  {
    if config.hours.Some? && |config.hours.value| > 0 {
      HoursMergeKeys(config.hours.value, defaults.hours);
    }
  }

  /**
   * Every other remote list replaces the default one as soon as it is
   * present, including when it is empty: an empty array is truthy.
   */
  lemma PresentListsReplace(config: PartialConfig, defaults: SiteConfig)
    requires CanMerge(config, defaults)
    ensures var r := ApplyFallbackData(config, defaults);
            RemoteFeatureItems(config).Some? ==> |r.homepage.features.items| == |RemoteFeatureItems(config).value|
    ensures var r := ApplyFallbackData(config, defaults);
            RemoteTestimonialItems(config).Some?
            ==> |r.homepage.testimonials.items| == |RemoteTestimonialItems(config).value|
    ensures var r := ApplyFallbackData(config, defaults);
            config.reservation.Some? && config.reservation.value.occasions.Some?
            ==> r.reservation.occasions == config.reservation.value.occasions.value
    ensures var r := ApplyFallbackData(config, defaults);
            config.reservation.Some? && config.reservation.value.policies.Some?
            ==> r.reservation.policies == config.reservation.value.policies.value
    ensures var r := ApplyFallbackData(config, defaults);
            config.homepage.Some? && config.homepage.value.about.Some? && config.homepage.value.about.value.stats.Some?
            ==> r.homepage.about.stats == config.homepage.value.about.value.stats.value
  {
  }

  /** Without a remote homepage the default homepage is kept whole. */
  lemma NoHomepageKeepsDefault(config: PartialConfig, defaults: SiteConfig)
    requires CanMerge(config, defaults)
    requires config.homepage.None?
    ensures ApplyFallbackData(config, defaults).homepage == defaults.homepage
  {
  }

  /**
   * Remote gallery categories replace the default ones: same names in the
   * same order, each image normalised, so that every image ends up with a
   * caption and an alt text. A remote homepage without categories keeps the
   * default gallery.
   */
  lemma GalleryReplaced(config: PartialConfig, defaults: SiteConfig)
    requires CanMerge(config, defaults)
    ensures config.homepage.Some? && (config.homepage.value.gallery.None? || config.homepage.value.gallery.value.categories.None?)
            ==> ApplyFallbackData(config, defaults).homepage.gallery == defaults.homepage.gallery
    ensures config.homepage.Some? && config.homepage.value.gallery.Some? && config.homepage.value.gallery.value.categories.Some? ==>
            var cats := config.homepage.value.gallery.value.categories.value;
            var r := ApplyFallbackData(config, defaults).homepage.gallery.categories;
            && r == NormalizeCategories(cats)
            && |r| == |cats|
            && (forall i :: 0 <= i < |cats| ==> r[i].name == cats[i].name)
            && (forall i, k :: 0 <= i < |cats| && 0 <= k < |cats[i].images| ==>
                  r[i].images[k] == NormalizeImage(cats[i].images[k]))
            && (forall i, k :: 0 <= i < |r| && 0 <= k < |r[i].images| ==>
                  r[i].images[k].caption.Some? && r[i].images[k].alt.Some?)
  {
  }

  /**
   * The palette after the merge is the remote palette if one was sent, and
   * otherwise the one for the DEFAULT theme name and type, whatever name and
   * type the remote asked for.
   */
  lemma IntermediatePalette(config: PartialConfig, defaults: SiteConfig)
    requires CanMerge(config, defaults)
    ensures config.theme.Some? && config.theme.value.theme.Some?
            ==> ApplyFallbackData(config, defaults).theme.theme == config.theme.value.theme.value
    ensures config.theme.None? || config.theme.value.theme.None?
            ==> ApplyFallbackData(config, defaults).theme.theme
                == GetTheme(defaults.theme.themeName, defaults.theme.themeType)
  {
  }

  /** Undeclared top-level keys of the remote record (its `_id`, `storeId`, ...) have no effect on the merge. */
  lemma RemoteTopLevelKeysIgnored(config: PartialConfig, defaults: SiteConfig, keys: map<string, JsonValue>)
    requires CanMerge(config, defaults)
    ensures CanMerge(config.(otherKeys := keys), defaults)
    ensures ApplyFallbackData(config.(otherKeys := keys), defaults) == ApplyFallbackData(config, defaults)
  {
  }

  /** An empty remote configuration yields the defaults, with the palette looked up from their theme name and type. */
  lemma EmptyRemoteYieldsDefaults(defaults: SiteConfig)
    ensures CanMerge(EmptyRemote, defaults)
    ensures ApplyFallbackData(EmptyRemote, defaults)
            == defaults.(theme := defaults.theme.(theme := GetTheme(defaults.theme.themeName, defaults.theme.themeType)))
  {
  }
}
