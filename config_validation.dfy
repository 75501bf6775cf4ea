/**
 * Validation of the merged configuration (validateConfig and
 * validateTestimonial in scripts/generate-config.ts). The first failing check
 * decides the error, in the order the source runs them.
 */
module ConfigValidation {
  import opened Wrappers
  import opened Js
  import opened Types

  datatype ConfigError =
    | MissingSection(section: string)
    | InvalidBusinessHours(hours: BusinessHours)
    | InvalidTestimonial(testimonial: Testimonial)
    | InvalidRating(author: string)
    | InvalidTheme

  /** The top-level sections validateConfig requires, each known by its key in the record. */
  datatype Section =
    | NameSection | DescriptionSection | AddressSection | ContactSection
    | HoursSection | ReservationSection | HomepageSection | ThemeSection

  function SectionKey(s: Section): string {
    match s
    case NameSection => "name"
    case DescriptionSection => "description"
    case AddressSection => "address"
    case ContactSection => "contact"
    case HoursSection => "hours"
    case ReservationSection => "reservation"
    case HomepageSection => "homepage"
    case ThemeSection => "theme"
  }

  const RequiredSections: seq<Section> :=
    [NameSection, DescriptionSection, AddressSection, ContactSection,
     HoursSection, ReservationSection, HomepageSection, ThemeSection]

  /**
   * `config[section]` is truthy. Strings are truthy when non-empty; the other
   * required sections are objects or arrays, which always are, even when empty.
   */
  predicate SectionTruthy(c: SiteConfig, section: Section) {
    match section
    case NameSection => c.name != ""
    case DescriptionSection => c.description != ""
    case _ => true
  }

  predicate SectionMissing(c: SiteConfig, section: Section) {
    !SectionTruthy(c, section)
  }

  predicate HoursEntryInvalid(h: BusinessHours) {
    h.day == "" || h.open == "" || h.close == ""
  }

  /** The error validateTestimonial throws for one testimonial, if any: fields first, then the rating. */
  function TestimonialError(t: Testimonial): (e: Option<ConfigError>)
    ensures e == None <==> t.id != "" && t.author != "" && t.content != ""
                           && t.rating.JNumber? && 1.0 <= t.rating.n <= 5.0
    ensures e.Some? ==> e.value == InvalidTestimonial(t) || e.value == InvalidRating(t.author)
    ensures t.id == "" || t.author == "" || t.content == "" ==> e == Some(InvalidTestimonial(t))
    ensures t.id != "" && t.author != "" && t.content != "" && e.Some? ==> e == Some(InvalidRating(t.author))
  {
    if t.id == "" || t.author == "" || t.content == "" then Some(InvalidTestimonial(t))
    else if !t.rating.JNumber? || t.rating.n < 1.0 || t.rating.n > 5.0 then Some(InvalidRating(t.author))
    else None
  }

  predicate TestimonialInvalid(t: Testimonial) {
    TestimonialError(t).Some?
  }

  /** The error of the section loop: the first required section that is falsy. */
  function SectionError(c: SiteConfig): Option<ConfigError> {
    match FindIndex(RequiredSections, (s: Section) => SectionMissing(c, s))
    case Some(i) => Some(MissingSection(SectionKey(RequiredSections[i])))
    case None => None
  }

  /** The error of the hours loop: the first incomplete entry. */
  function HoursError(c: SiteConfig): Option<ConfigError> {
    match FindIndex(c.hours, HoursEntryInvalid)
    case Some(i) => Some(InvalidBusinessHours(c.hours[i]))
    case None => None
  }

  /** The error of the testimonial loop: that of the first invalid testimonial. */
  function TestimonialsError(c: SiteConfig): Option<ConfigError> {
    match FindIndex(c.homepage.testimonials.items, TestimonialInvalid)
    case Some(i) => TestimonialError(c.homepage.testimonials.items[i])
    case None => None
  }

  /** The error validateConfig throws for `c`, or None when it returns normally. */
  function ValidationError(c: SiteConfig): (e: Option<ConfigError>)
    ensures c.name == "" ==> e == Some(MissingSection("name"))
    ensures e.Some? && e.value.InvalidBusinessHours? ==> e.value.hours in c.hours && HoursEntryInvalid(e.value.hours)
    ensures e.Some? && e.value.InvalidTestimonial? ==> e.value.testimonial in c.homepage.testimonials.items
    ensures e.Some? && e.value.InvalidTheme? ==> c.theme.themeName == "" || c.theme.themeType == ""
  {
    if SectionError(c).Some? then SectionError(c)
    else if HoursError(c).Some? then HoursError(c)
    else if TestimonialsError(c).Some? then TestimonialsError(c)
    else if c.theme.themeName == "" || c.theme.themeType == "" then Some(InvalidTheme)
    else None
  }

  /** Validity stated directly, check by check. */
  ghost predicate IsValidConfig(c: SiteConfig) {
    && (forall s :: s in RequiredSections ==> SectionTruthy(c, s))
    && (forall h :: h in c.hours ==> h.day != "" && h.open != "" && h.close != "")
    && (forall t :: t in c.homepage.testimonials.items ==>
          && t.id != "" && t.author != "" && t.content != ""
          && t.rating.JNumber? && 1.0 <= t.rating.n <= 5.0)
    && c.theme.themeName != "" && c.theme.themeType != ""
  }

  /** validateConfig passes exactly on the configurations that meet every check. */
  lemma ValidationErrorNoneIff(c: SiteConfig)
    ensures ValidationError(c).None? <==> IsValidConfig(c)
  {
    var sections := FindIndex(RequiredSections, (s: Section) => SectionMissing(c, s));
    var hours := FindIndex(c.hours, HoursEntryInvalid);
    var items := c.homepage.testimonials.items;
    var testimonials := FindIndex(items, TestimonialInvalid);
    if sections.Some? {
      assert !SectionTruthy(c, RequiredSections[sections.value]);
    } else if hours.Some? {
      assert c.hours[hours.value] in c.hours;
    } else if testimonials.Some? {
      assert items[testimonials.value] in items;
    } else {
      assert forall s :: s in RequiredSections ==> SectionTruthy(c, s) by {
        forall s | s in RequiredSections ensures SectionTruthy(c, s) {
          var j :| 0 <= j < |RequiredSections| && RequiredSections[j] == s;
          assert !SectionMissing(c, RequiredSections[j]);
        }
      }
      assert forall h :: h in c.hours ==> !HoursEntryInvalid(h) by {
        forall h | h in c.hours ensures !HoursEntryInvalid(h) {
          var j :| 0 <= j < |c.hours| && c.hours[j] == h;
        }
      }
      assert forall t :: t in items ==> !TestimonialInvalid(t) by {
        forall t | t in items ensures !TestimonialInvalid(t) {
          var j :| 0 <= j < |items| && items[j] == t;
        }
      }
    }
  }

  /**
   * Only the two string sections can be missing: objects and arrays are
   * always truthy, so an empty hours list, say, passes the section check.
   */
  lemma MissingSectionExactly(c: SiteConfig)
    ensures (ValidationError(c).Some? && ValidationError(c).value.MissingSection?) <==> (c.name == "" || c.description == "")
    ensures c.name == "" ==> ValidationError(c) == Some(MissingSection("name"))
    ensures c.name != "" && c.description == "" ==> ValidationError(c) == Some(MissingSection("description"))
  {
    var p := (s: Section) => SectionMissing(c, s);
    var r := FindIndex(RequiredSections, p);
    if c.name == "" {
      assert p(RequiredSections[0]);
    } else if c.description == "" {
      assert !p(RequiredSections[0]) && p(RequiredSections[1]);
    } else {
      forall j | 0 <= j < |RequiredSections| ensures !p(RequiredSections[j]) {
      }
    }
  }

  /** The rating check is a range check only: a fractional rating inside 1..5 passes. */
  lemma FractionalRatingAccepted(t: Testimonial)
    requires t.id != "" && t.author != "" && t.content != ""
    requires t.rating == JNumber(4.5)
    ensures TestimonialError(t).None?
  {
  }

  /** A rating that is not a JSON number fails, even when it reads like one. */
  lemma StringRatingRejected(t: Testimonial)
    requires t.id != "" && t.author != "" && t.content != ""
    requires t.rating == JString("5")
    ensures TestimonialError(t) == Some(InvalidRating(t.author))
  {
  }

  /** Every required section passes the section loop. */
  ghost predicate SectionsPass(c: SiteConfig) {
    forall j :: 0 <= j < |RequiredSections| ==> SectionTruthy(c, RequiredSections[j])
  }

  /** Every hours entry passes the hours loop. */
  ghost predicate HoursPass(c: SiteConfig) {
    forall j :: 0 <= j < |c.hours| ==> !HoursEntryInvalid(c.hours[j])
  }

  /** Every testimonial passes the testimonial loop. */
  ghost predicate TestimonialsPass(c: SiteConfig) {
    forall j :: 0 <= j < |c.homepage.testimonials.items| ==> !TestimonialInvalid(c.homepage.testimonials.items[j])
  }

  /** The section loop stopping at section `i`. */
  lemma SectionLoopStops(c: SiteConfig, i: nat)
    requires i < |RequiredSections| && !SectionTruthy(c, RequiredSections[i])
    requires forall j :: 0 <= j < i ==> SectionTruthy(c, RequiredSections[j])
    ensures ValidationError(c) == Some(MissingSection(SectionKey(RequiredSections[i])))
  {
    FindIndexAt(RequiredSections, (s: Section) => SectionMissing(c, s), i);
  }

  /** The hours loop stopping at entry `i`, after every section passed. */
  lemma HoursLoopStops(c: SiteConfig, i: nat)
    requires SectionsPass(c)
    requires i < |c.hours| && HoursEntryInvalid(c.hours[i])
    requires forall j :: 0 <= j < i ==> !HoursEntryInvalid(c.hours[j])
    ensures ValidationError(c) == Some(InvalidBusinessHours(c.hours[i]))
  {
    FindIndexAt(c.hours, HoursEntryInvalid, i);
  }

  /** The testimonial loop stopping at item `i`, after the sections and hours passed. */
  lemma TestimonialLoopStops(c: SiteConfig, i: nat)
    requires SectionsPass(c) && HoursPass(c)
    requires i < |c.homepage.testimonials.items| && TestimonialInvalid(c.homepage.testimonials.items[i])
    requires forall j :: 0 <= j < i ==> !TestimonialInvalid(c.homepage.testimonials.items[j])
    ensures ValidationError(c) == TestimonialError(c.homepage.testimonials.items[i])
  {
    FindIndexAt(c.homepage.testimonials.items, TestimonialInvalid, i);
  }

  /** All three loops passed: only the theme check is left. */
  lemma LoopsPass(c: SiteConfig)
    requires SectionsPass(c) && HoursPass(c) && TestimonialsPass(c)
    ensures ValidationError(c)
            == if c.theme.themeName == "" || c.theme.themeType == "" then Some(InvalidTheme) else None
  {
  }

  /**
   * The loop of validateConfig: the required sections in order, then every
   * hours entry, then every testimonial, then the theme; the first failure
   * is the error.
   */
  method ValidateConfig(c: SiteConfig) returns (err: Option<ConfigError>)
    ensures err == ValidationError(c)
  {
    for i := 0 to |RequiredSections|
      invariant forall j :: 0 <= j < i ==> SectionTruthy(c, RequiredSections[j])
    {
      if !SectionTruthy(c, RequiredSections[i]) {
        SectionLoopStops(c, i);
        return Some(MissingSection(SectionKey(RequiredSections[i])));
      }
    }
    assert SectionsPass(c);
    for i := 0 to |c.hours|
      invariant forall j :: 0 <= j < i ==> !HoursEntryInvalid(c.hours[j])
    {
      if HoursEntryInvalid(c.hours[i]) {
        HoursLoopStops(c, i);
        return Some(InvalidBusinessHours(c.hours[i]));
      }
    }
    assert HoursPass(c);
    var items := c.homepage.testimonials.items;
    for i := 0 to |items|
      invariant forall j :: 0 <= j < i ==> !TestimonialInvalid(items[j])
    {
      var e := TestimonialError(items[i]);
      if e.Some? {
        TestimonialLoopStops(c, i);
        return e;
      }
    }
    assert TestimonialsPass(c);
    LoopsPass(c);
    if c.theme.themeName == "" || c.theme.themeType == "" {
      return Some(InvalidTheme);
    }
    return None;
  }
}
