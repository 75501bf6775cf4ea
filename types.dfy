/**
 * The record shapes of the site configuration and the colour palette table
 * with its lookup (lib/types/index.tsx).
 */
module Types {
  import opened Wrappers
  import opened Js

  datatype Address = Address(street: string, city: string, state: string, zip: string, country: string)

  datatype ContactForm = ContactForm(
    namePlaceholder: string,
    emailPlaceholder: string,
    phonePlaceholder: string,
    messagePlaceholder: string,
    submitButtonText: string)

  datatype ContactDetails = ContactDetails(address: string, email: string, phone: string, whatsapp: string)

  datatype Contact = Contact(
    title: string,
    subtitle: string,
    form: ContactForm,
    contactDetails: ContactDetails,
    mapUrl: string)

  /** Platform name to URL; every key is optional and JSON may add keys the type does not declare. */
  type SocialLinks = map<string, string>

  datatype BusinessHours = BusinessHours(day: string, open: string, close: string, isClosed: Option<bool>)

  datatype Reservation = Reservation(
    enabled: bool,
    provider: string,
    url: string,
    title: string,
    subtitle: string,
    submitButtonText: string,
    occasions: seq<string>,
    policies: seq<string>)

  datatype Feature = Feature(id: string, title: string, description: string, image: string)

  /** The rating is kept as the JSON value it arrives as: validation checks that it is a number at all. */
  datatype Testimonial = Testimonial(
    id: string,
    author: string,
    role: Option<string>,
    content: string,
    image: Option<string>,
    rating: JsonValue)

  datatype GalleryImage = GalleryImage(url: string, caption: Option<string>, alt: Option<string>)

  datatype GalleryCategory = GalleryCategory(name: string, images: seq<GalleryImage>)

  datatype CtaLink = CtaLink(text: string, link: string)

  datatype HeroCta = HeroCta(primary: CtaLink, secondary: CtaLink)

  datatype Hero = Hero(heading: string, subheading: string, backgroundImage: string, cta: HeroCta)

  /** `label` is a reserved word in Dafny, hence `statLabel`. */
  datatype Stat = Stat(statLabel: string, value: string)

  datatype About = About(title: string, description: string, image: string, stats: seq<Stat>)

  datatype FeaturesSection = FeaturesSection(title: string, subtitle: string, items: seq<Feature>)

  datatype TestimonialsSection = TestimonialsSection(title: string, subtitle: string, items: seq<Testimonial>)

  datatype Gallery = Gallery(categories: seq<GalleryCategory>)

  datatype CallToAction = CallToAction(
    title: string,
    subtitle: string,
    buttonText: string,
    buttonLink: string,
    backgroundImage: string)

  datatype Homepage = Homepage(
    hero: Hero,
    about: About,
    features: FeaturesSection,
    testimonials: TestimonialsSection,
    gallery: Gallery,
    cta: CallToAction)

  datatype Theme = Theme(primary: string, secondary: string, accent: string, background: string, text: string)

  /** themeType is declared as "light" | "dark", but nothing stops a remote configuration from sending another string. */
  datatype ThemeSettings = ThemeSettings(themeName: string, themeType: string, theme: Theme)

  /**
   * The whole site configuration. `otherKeys` holds the top-level keys the
   * type does not declare (a JavaScript object can carry any).
   */
  datatype SiteConfig = SiteConfig(
    name: string,
    description: string,
    address: Address,
    contact: Contact,
    social: SocialLinks,
    hours: seq<BusinessHours>,
    reservation: Reservation,
    theme: ThemeSettings,
    homepage: Homepage,
    otherKeys: map<string, JsonValue>)

  datatype ColorPalette = ColorPalette(light: Theme, dark: Theme)

  /** The seven named palette families, each with a light and a dark variant. */
  const DefaultPalettes: map<string, ColorPalette> := map[
    "classic" := ColorPalette(
      Theme("#1c1917", "#f8fafc", "#ca8a04", "#ffffff", "#334155"),
      Theme("#f8fafc", "#1c1917", "#eab308", "#0f172a", "#e2e8f0")),
    "modern" := ColorPalette(
      Theme("#0f172a", "#f1f5f9", "#0ea5e9", "#ffffff", "#334155"),
      Theme("#f1f5f9", "#0f172a", "#38bdf8", "#020617", "#e2e8f0")),
    "rustic" := ColorPalette(
      Theme("#451a03", "#ffe2d5", "#ea580c", "#ffffff", "#422006"),
      Theme("#fef3c7", "#451a03", "#f97316", "#1c1917", "#fef3c7")),
    "minimal" := ColorPalette(
      Theme("#2d3436", "#f5f6fa", "#00b894", "#ffffff", "#2d3436"),
      Theme("#f5f6fa", "#2d3436", "#00b894", "#1e272e", "#f5f6fa")),
    "retro" := ColorPalette(
      Theme("#1a1a1a", "#f4f4f4", "#d4af37", "#ffffff", "#333333"),
      Theme("#f4f4f4", "#1a1a1a", "#d4af37", "#121212", "#e0e0e0")),
    "nature" := ColorPalette(
      Theme("#2f5233", "#f0f7f0", "#88b06a", "#ffffff", "#1a331d"),
      Theme("#88b06a", "#1a331d", "#d4e6c4", "#0f1f12", "#f0f7f0")),
    "ocean" := ColorPalette(
      Theme("#1e3d59", "#f5f8fa", "#17a2b8", "#ffffff", "#2c3e50"),
      Theme("#17a2b8", "#1e3d59", "#48dbfb", "#102a43", "#f5f8fa"))
  ]

  /** A palette that is one of the fourteen entries of the table. */
  ghost predicate IsTableEntry(t: Theme) {
    exists name :: name in DefaultPalettes && (t == DefaultPalettes[name].light || t == DefaultPalettes[name].dark)
  }

  /**
   * Palette lookup: the table entry for a known family and a known variant;
   * any other request gets the classic light palette.
   */
  function GetTheme(themeName: string, themeType: string): (t: Theme)
    ensures IsTableEntry(t)
  {
    if themeName in DefaultPalettes && themeType == "light" then DefaultPalettes[themeName].light
    else if themeName in DefaultPalettes && themeType == "dark" then DefaultPalettes[themeName].dark
    else DefaultPalettes["classic"].light
  }

  lemma PaletteFamilies()
    ensures DefaultPalettes.Keys == {"classic", "modern", "rustic", "minimal", "retro", "nature", "ocean"}
  {
  }

  lemma GetThemeKnown(themeName: string, themeType: string)
    requires themeName in DefaultPalettes
    requires themeType == "light" || themeType == "dark"
    ensures GetTheme(themeName, themeType)
            == if themeType == "light" then DefaultPalettes[themeName].light else DefaultPalettes[themeName].dark
  {
  }

  lemma GetThemeUnknownName(themeName: string, themeType: string)
    requires themeName !in DefaultPalettes
    ensures GetTheme(themeName, themeType) == Theme("#1c1917", "#f8fafc", "#ca8a04", "#ffffff", "#334155")
  {
  }

  /** A known family with a type other than "light" or "dark" also gives the classic light colours. */
  lemma GetThemeUnknownType(themeName: string, themeType: string)
    requires themeName in DefaultPalettes && themeType != "light" && themeType != "dark"
    ensures GetTheme(themeName, themeType) == Theme("#1c1917", "#f8fafc", "#ca8a04", "#ffffff", "#334155")
  {
  }

  lemma GetThemeRusticDark()
    ensures GetTheme("rustic", "dark") == Theme("#fef3c7", "#451a03", "#f97316", "#1c1917", "#fef3c7")
  {
  }

  /**
   * A palette from explicit colours. JavaScript default parameters apply only
   * to an argument that is absent, so an empty string is kept as it is.
   */
  function GenerateCustomPalette(
    primary: string,
    secondary: string,
    accent: string,
    background: Option<string>,
    text: Option<string>): (t: Theme)
    ensures t.primary == primary && t.secondary == secondary && t.accent == accent
    ensures background.None? ==> t.background == "#ffffff"
    ensures background.Some? ==> t.background == background.value
    ensures text.None? ==> t.text == "#333333"
    ensures text.Some? ==> t.text == text.value
  {
    Theme(primary, secondary, accent, background.GetOr("#ffffff"), text.GetOr("#333333"))
  }
}
