/**
 * The partial site configuration fetched from the remote source. Any field
 * may be missing; a list the resolver takes over whole keeps its declared
 * item type, while the items of keyed lists (hours, features, testimonials)
 * may themselves be partial.
 */
module RemoteConfig {
  import opened Wrappers
  import opened Js
  import opened Types

  datatype PartialAddress = PartialAddress(
    street: Option<string>,
    city: Option<string>,
    state: Option<string>,
    zip: Option<string>,
    country: Option<string>)

  datatype PartialContactForm = PartialContactForm(
    namePlaceholder: Option<string>,
    emailPlaceholder: Option<string>,
    phonePlaceholder: Option<string>,
    messagePlaceholder: Option<string>,
    submitButtonText: Option<string>)

  datatype PartialContactDetails = PartialContactDetails(
    address: Option<string>,
    email: Option<string>,
    phone: Option<string>,
    whatsapp: Option<string>)

  datatype PartialContact = PartialContact(
    title: Option<string>,
    subtitle: Option<string>,
    form: Option<PartialContactForm>,
    contactDetails: Option<PartialContactDetails>,
    mapUrl: Option<string>)

  datatype PartialHours = PartialHours(
    day: Option<string>,
    open: Option<string>,
    close: Option<string>,
    isClosed: Option<bool>)

  datatype PartialReservation = PartialReservation(
    enabled: Option<bool>,
    provider: Option<string>,
    url: Option<string>,
    title: Option<string>,
    subtitle: Option<string>,
    submitButtonText: Option<string>,
    occasions: Option<seq<string>>,
    policies: Option<seq<string>>)

  datatype PartialThemeSettings = PartialThemeSettings(
    themeName: Option<string>,
    themeType: Option<string>,
    theme: Option<Theme>)

  datatype PartialLink = PartialLink(text: Option<string>, link: Option<string>)

  datatype PartialHeroCta = PartialHeroCta(primary: Option<PartialLink>, secondary: Option<PartialLink>)

  datatype PartialHero = PartialHero(
    heading: Option<string>,
    subheading: Option<string>,
    backgroundImage: Option<string>,
    cta: Option<PartialHeroCta>)

  datatype PartialAbout = PartialAbout(
    title: Option<string>,
    description: Option<string>,
    image: Option<string>,
    stats: Option<seq<Stat>>)

  datatype PartialFeature = PartialFeature(
    id: Option<string>,
    title: Option<string>,
    description: Option<string>,
    image: Option<string>)

  datatype PartialFeatures = PartialFeatures(
    title: Option<string>,
    subtitle: Option<string>,
    items: Option<seq<PartialFeature>>)

  datatype PartialTestimonial = PartialTestimonial(
    id: Option<string>,
    author: Option<string>,
    role: Option<string>,
    content: Option<string>,
    image: Option<string>,
    rating: Option<JsonValue>)

  datatype PartialTestimonials = PartialTestimonials(
    title: Option<string>,
    subtitle: Option<string>,
    items: Option<seq<PartialTestimonial>>)

  datatype PartialGallery = PartialGallery(categories: Option<seq<GalleryCategory>>)

  datatype PartialCallToAction = PartialCallToAction(
    title: Option<string>,
    subtitle: Option<string>,
    buttonText: Option<string>,
    buttonLink: Option<string>,
    backgroundImage: Option<string>)

  datatype PartialHomepage = PartialHomepage(
    hero: Option<PartialHero>,
    about: Option<PartialAbout>,
    features: Option<PartialFeatures>,
    testimonials: Option<PartialTestimonials>,
    gallery: Option<PartialGallery>,
    cta: Option<PartialCallToAction>)

  /** `otherKeys` carries whatever else the remote record holds at the top level (its `_id`, `storeId`, ...). */
  datatype PartialConfig = PartialConfig(
    name: Option<string>,
    description: Option<string>,
    address: Option<PartialAddress>,
    contact: Option<PartialContact>,
    social: Option<SocialLinks>,
    hours: Option<seq<PartialHours>>,
    reservation: Option<PartialReservation>,
    theme: Option<PartialThemeSettings>,
    homepage: Option<PartialHomepage>,
    otherKeys: map<string, JsonValue>)

  /** A remote configuration that supplies nothing. */
  const EmptyRemote := PartialConfig(None, None, None, None, None, None, None, None, None, map[])
}
