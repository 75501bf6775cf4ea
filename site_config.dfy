/** The default site configuration (config/siteConfig.ts), the fallback input of the generator. */
module SiteConfigDefaults {
  import opened Wrappers
  import opened Js
  import opened Types
  import opened ConfigValidation

  const DefaultHours: seq<BusinessHours> := [
    BusinessHours("Monday", "17:00", "23:00", None),
    BusinessHours("Tuesday", "17:00", "23:00", None),
    BusinessHours("Wednesday", "17:00", "23:00", None),
    BusinessHours("Thursday", "17:00", "23:00", None),
    BusinessHours("Friday", "17:00", "00:00", None),
    BusinessHours("Saturday", "17:00", "00:00", None),
    BusinessHours("Sunday", "17:00", "22:00", None)
  ]

  const DefaultFeatures: seq<Feature> := [
    Feature("1", "Farm to Table", "We source our ingredients directly from local farms and suppliers.", "/farm.jpg"),
    Feature("2", "Expert Chefs", "Our culinary team brings years of experience from around the world.", "/chef.jpg"),
    Feature("3", "Perfect Ambiance", "Elegant dining space designed for comfort and style.", "/ambiance.jpg")
  ]

  const DefaultTestimonials: seq<Testimonial> := [
    Testimonial("1", "Emily Johnson", Some("Food Critic"),
      "An unforgettable dining experience. The attention to detail in every dish is remarkable.",
      Some("/test1.jpg"), JNumber(5.0)),
    Testimonial("2", "Michael Smith", Some("Restaurant Reviewer"),
      "The atmosphere was perfect, and the flavors were absolutely delightful. Highly recommended!",
      Some("/test3.jpg"), JNumber(4.0)),
    Testimonial("3", "Sophie Lee", Some("Travel Blogger"),
      "A must-visit spot for anyone who loves fine dining. The service was exceptional.",
      Some("/test2.jpg"), JNumber(5.0)),
    Testimonial("4", "James Brown", Some("Food Enthusiast"),
      "Every bite was pure perfection. I will definitely return for more. The flavors were outstanding!",
      Some("/test4.jpg"), JNumber(4.0)),
    Testimonial("5", "Olivia White", Some("Chef"),
      "As a chef myself, I can truly appreciate the technique and creativity that went into these dishes.",
      Some("/test6.jpg"), JNumber(5.0)),
    Testimonial("6", "Daniel Green", Some("Food Photographer"),
      "The presentation of the dishes is truly a work of art. I couldn't stop taking pictures!",
      Some("/test5.jpg"), JNumber(4.0))
  ]

  const DefaultGalleryCategories: seq<GalleryCategory> := [
    GalleryCategory("Main Course", [
      GalleryImage("/pasta.jpg", Some("Signature Pasta Dish"), Some("Freshly made pasta with seasonal ingredients")),
      GalleryImage("/salmon.jpg", Some("Grilled Salmon"), Some("Perfectly grilled salmon with vegetables")),
      GalleryImage("/pizza.jpg", Some("Vegetarian Pizza"), Some("Stone-baked vegetarian pizza")),
      GalleryImage("/beef.jpg", Some("Beef Wellington"), Some("Classic Beef Wellington with mushroom duxelles"))
    ]),
    GalleryCategory("Appetizers", [
      GalleryImage("/salad.jpg", Some("Classic Caesar Salad"), Some("Fresh Caesar salad with homemade dressing")),
      GalleryImage("/bruschetta.jpg", Some("Tomato Bruschetta"), Some("Traditional Italian bruschetta"))
    ]),
    GalleryCategory("Desserts", [
      GalleryImage("/choco.jpg", Some("Chocolate Lava Cake"), Some("Warm chocolate lava cake with vanilla ice cream")),
      GalleryImage("/mango.jpg", Some("Mango Sorbet"), Some("Refreshing mango sorbet")),
      GalleryImage("/fruit.jpg", Some("Fruit Tart"), Some("Seasonal fruit tart with custard"))
    ])
  ]

  const DefaultHomepage: Homepage := Homepage(
    Hero("Experience Culinary Excellence", "Where every flavor tells a story", "/hero.jpg",
         HeroCta(CtaLink("Reserve a Table", "/reservations"), CtaLink("View Menu", "/menu"))),
    About("Our Story",
          "Founded in 2010, we've been serving exceptional cuisine that combines traditional recipes with modern "
          + "innovation. Our passionate team of chefs creates unforgettable dining experiences using only the finest "
          + "locally-sourced ingredients.",
          "/about.jpg",
          [Stat("Years of Experience", "15+"), Stat("Signature Dishes", "30+"),
           Stat("Happy Customers", "50k+"), Stat("Awards Won", "12")]),
    FeaturesSection("Why Choose Us", "Discover what makes us special", DefaultFeatures),
    TestimonialsSection("What Our Guests Say", "Real experiences from our valued customers", DefaultTestimonials),
    Gallery(DefaultGalleryCategories),
    CallToAction("Ready to Experience Our Cuisine?",
                 "Book your table now and enjoy an unforgettable dining experience",
                 "Make a Reservation", "/reservations", "/ambiance.jpg"))

  /** Note that the palette is the rustic LIGHT one while themeType says "dark". */
  const DefaultConfig: SiteConfig := SiteConfig(
    "Oasis",
    "Experience culinary excellence in a modern atmosphere",
    Address("123 Gourmet Street", "Foodville", "CA", "90210", "USA"),
    Contact(
      "Let's Connect",
      "Reach out to us for inquiries, collaborations, or just to say hello!",
      ContactForm("Your Name", "Your Email", "Phone Number", "Your Message", "Send Message"),
      ContactDetails(
        "382/2, FLAT 103 OPPOSITE TO IRON BIRD ELEVATORS, 2ND MAIN 4TH CROSS, BALAJI LAYOUT, BANGALORE-560094",
        "info@rainbowinteriors.com", "+91 98765 43210", "+91 98765 43210"),
      ""),
    map["facebook" := "https://facebook.com/finedining", "instagram" := "https://instagram.com/finedining",
        "twitter" := "https://twitter.com/finedining", "yelp" := "https://yelp.com/finedining"],
    DefaultHours,
    Reservation(true, "opentable", "https://www.opentable.com/restaurant", "Make a Reservation",
                "Book your table for an unforgettable dining experience", "Confirm Reservation",
                ["Birthday", "Anniversary", "Business Dinner", "Date Night", "Family Gathering",
                 "Special Occasion", "Other"],
                ["Reservations are held for 15 minutes past the scheduled time",
                 "For parties of 6 or more, please call us directly",
                 "A credit card is required for parties of 8 or more",
                 "Special requests are subject to availability",
                 "24-hour cancellation notice is required",
                 "Children's high chairs and booster seats are available upon request"]),
    ThemeSettings("rustic", "dark", GetTheme("rustic", "light")),
    DefaultHomepage,
    map[])

  /** The default configuration passes validateConfig. */
  lemma DefaultConfigIsValid()
    ensures IsValidConfig(DefaultConfig)
    ensures ValidationError(DefaultConfig).None?
  {
    var c := DefaultConfig;
    assert c.name == "Oasis";
    assert c.hours == DefaultHours;
    assert c.homepage.testimonials.items == DefaultTestimonials;
    assert c.theme.themeName == "rustic" && c.theme.themeType == "dark";
    SectionsTruthy(c);
    HoursValid();
    TestimonialsValid();
    assert IsValidConfig(c);
    ValidationErrorNoneIff(c);
  }

  /**
   * Any configuration with non-empty names, complete hours entries and the
   * default testimonials passes validation.
   */
  lemma ValidWithDefaultTestimonials(c: SiteConfig)
    requires c.name != "" && c.description != ""
    requires forall h :: h in c.hours ==> h.day != "" && h.open != "" && h.close != ""
    requires c.homepage.testimonials.items == DefaultTestimonials
    requires c.theme.themeName != "" && c.theme.themeType != ""
    ensures IsValidConfig(c)
  {
    SectionsTruthy(c);
    TestimonialsValid();
  }

  /**
   * Any configuration with non-empty names, the default hours and complete
   * testimonials passes validation.
   */
  lemma ValidWithDefaultHours(c: SiteConfig)
    requires c.name != "" && c.description != ""
    requires c.hours == DefaultHours
    requires forall t :: t in c.homepage.testimonials.items ==>
      && t.id != "" && t.author != "" && t.content != ""
      && t.rating.JNumber? && 1.0 <= t.rating.n <= 5.0
    requires c.theme.themeName != "" && c.theme.themeType != ""
    ensures IsValidConfig(c)
  {
    SectionsTruthy(c);
    HoursValid();
  }

  lemma SectionsTruthy(c: SiteConfig)
    requires c.name != "" && c.description != ""
    ensures forall s :: s in RequiredSections ==> SectionTruthy(c, s)
  {
  }

  lemma HoursValid()
    ensures forall h :: h in DefaultHours ==> h.day != "" && h.open != "" && h.close != ""
  {
  }

  lemma TestimonialsValid()
    ensures forall t :: t in DefaultTestimonials ==>
      && t.id != "" && t.author != "" && t.content != ""
      && t.rating.JNumber? && 1.0 <= t.rating.n <= 5.0
  {
  }

  /** Seven entries, Monday to Sunday in order, distinct days, every opening and closing time given. */
  lemma DefaultHoursShape()
    ensures |DefaultConfig.hours| == 7
    ensures seq(7, i requires 0 <= i < 7 => DefaultConfig.hours[i].day)
            == ["Monday", "Tuesday", "Wednesday", "Thursday", "Friday", "Saturday", "Sunday"]
    ensures forall i, j :: 0 <= i < j < 7 ==> DefaultConfig.hours[i].day != DefaultConfig.hours[j].day
    ensures forall h :: h in DefaultConfig.hours ==> h.open != "" && h.close != ""
  {
  }

  /** Testimonial ids "1" to "6", distinct, every rating 4 or 5. */
  lemma DefaultTestimonialsShape()
    ensures var items := DefaultConfig.homepage.testimonials.items;
            && seq(|items|, i requires 0 <= i < |items| => items[i].id) == ["1", "2", "3", "4", "5", "6"]
            && (forall i, j :: 0 <= i < j < |items| ==> items[i].id != items[j].id)
            && (forall t :: t in items ==> t.rating == JNumber(4.0) || t.rating == JNumber(5.0))
  {
  }

  /** Feature ids "1" to "3", distinct. */
  lemma DefaultFeaturesShape()
    ensures var items := DefaultConfig.homepage.features.items;
            && seq(|items|, i requires 0 <= i < |items| => items[i].id) == ["1", "2", "3"]
            && (forall i, j :: 0 <= i < j < |items| ==> items[i].id != items[j].id)
  {
  }

  /** The stored palette does not match the stored theme type. */
  lemma DefaultPaletteMismatch()
    ensures DefaultConfig.theme.themeName == "rustic" && DefaultConfig.theme.themeType == "dark"
    ensures DefaultConfig.theme.theme == DefaultPalettes["rustic"].light
    ensures DefaultConfig.theme.theme != GetTheme(DefaultConfig.theme.themeName, DefaultConfig.theme.themeType)
  {
  }

  /** Every default gallery image has both a caption and an alt text. */
  lemma DefaultGalleryComplete()
    ensures forall c, img :: c in DefaultConfig.homepage.gallery.categories && img in c.images
              ==> img.caption.Some? && img.alt.Some?
  {
    var cats := DefaultGalleryCategories;
    assert DefaultConfig.homepage.gallery.categories == cats;
    forall c, img | c in cats && img in c.images
      ensures img.caption.Some? && img.alt.Some?
    {
      assert c == cats[0] || c == cats[1] || c == cats[2];
    }
  }
}
