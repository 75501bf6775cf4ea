# Oasis restaurant site: configuration resolver and section logic in Dafny

The Oasis site is a Next.js restaurant website. Its content comes from one
configuration record: the business details, opening hours, reservation
settings, colour theme and homepage sections. A build script,
`scripts/generate-config.ts`, produces that record. It takes the partial
configuration a remote store returns and does four things:

1. It completes the remote configuration from the built-in default
   (`applyFallbackData`).
2. It deletes the store's own bookkeeping keys.
3. It validates the result (`validateConfig`).
4. It recomputes the colour palette from the theme name and type (`getTheme`).

The pages then read the generated record. This project models three of
those pages' sections:

- the testimonial carousel, with its index, autoplay and star row;
- the gallery's category filter and preview state;
- the footer's WhatsApp sign-up form and its social-link row.

Modules:

- `Wrappers`: `Option` and `Result`.
- `Js`: the JavaScript idioms the source relies on, on explicit types:
  - `||` on strings (`OrElse`);
  - object spread over one field (`Spread`, `SpreadOptional`);
  - `Array.prototype.find` (`FindIndex`);
  - truthiness of JSON values (`Truthy`).
- `Types`: the records of `lib/types/index.tsx`, the fourteen-entry palette
  table, `getTheme` and `generateCustomPalette`.
- `RemoteConfig`: the partial record a remote store may send. Every field is
  optional, and keyed list items are partial.
- `ConfigMerge`: `applyFallbackData` and its keyed list merge
  `mergeArrayItems`.
- `ConfigValidation`:
  - `validateTestimonial` and `validateConfig`, both as a function giving the
    first error thrown and as the method with the source's loops;
  - the direct statement of validity, `IsValidConfig`.
- `ConfigGenerator`: the in-memory part of `generateConfigFile`, which
  merges, strips, validates and resets the palette.
- `SiteConfigDefaults`: `defaultConfig` of `config/siteConfig.ts` and its
  properties.
- `ResolverScenarios`: the generator run against the real defaults.
- `TestimonialCarousel`, `GallerySection`, `FooterSection`: the three page
  sections.

Fields that JavaScript may leave out are `Option`s. A JSON value whose type
the source tests at run time is a `JsonValue`, as the testimonial rating is.
Top-level keys that the type does not declare (`_id`, `storeId`, …) are kept
in an `otherKeys` map. The eight required sections of `validateConfig` are
the datatype `ConfigValidation.Section`, and `SectionKey` gives each one's key
in the record. The `label` field of a statistic is named `statLabel`,
because `label` is a Dafny keyword.

Some behaviours of the code are easy to miss; the model follows the code:

- The hours merge maps over the REMOTE list. A remote list naming only Monday
  therefore publishes only Monday, and the six other default days are dropped
  (`ConfigMerge.HoursMergeDropsUnnamedDays`,
  `ResolverScenarios.OceanMondayScenario`).
- `getTheme` with an unknown family gives the classic LIGHT palette, even when
  dark was asked for (`Types.GetThemeUnknownName`).
- The rating check has no whole-number test. A rating of 4.5 passes
  (`ConfigValidation.FractionalRatingAccepted`).
- The server-only keys are deleted BEFORE validation, not after it. This
  makes no difference to the outcome
  (`ConfigGenerator.StripDoesNotAffectValidation`).
- The merge starts from a copy of the defaults. A section the remote omits is
  therefore always filled in, so with the real defaults the "missing section"
  error can never occur (`ResolverScenarios.DefaultsOnlyEntryChecksCanFail`).
- The intermediate palette chosen during the merge uses the DEFAULT theme
  name and type, not the remote ones (`ConfigMerge.IntermediatePalette`). The
  final recomputation then corrects it
  (`ConfigGenerator.ResolvedPaletteFromTheme`).
- A present but empty remote testimonial list passes validation
  (`ResolverScenarios.EmptyTestimonialsAccepted`). The carousel, however,
  indexes `items[0]` and takes a remainder modulo the list's length. The
  carousel class therefore requires a non-empty list.

## Model

| member | source | states |
|---|---|---|
| Js.OrElse | scripts/generate-config.ts:85-86 | the or-operator on strings: the remote string when it is present and non-empty, otherwise the fallback |
| Js.FindIndex | scripts/generate-config.ts:78-79 | `find` stops at the first element satisfying the predicate; none is found exactly when no element satisfies it |
| Js.FindIndexAt | scripts/generate-config.ts:78-79 | an index where the predicate holds, with every earlier element failing it, is the index `find` returns |
| Types.GetTheme | lib/types/index.tsx:307-315 | the palette is always one of the fourteen table entries |
| Types.PaletteFamilies | lib/types/index.tsx:180-293 | the table has exactly the families classic, modern, rustic, minimal, retro, nature and ocean |
| Types.GetThemeKnown | lib/types/index.tsx:307-315 | a known family with "light" or "dark" gives that table entry |
| Types.GetThemeUnknownName | lib/types/index.tsx:307-315 | an unknown family gives the classic light colours, whatever type is asked for |
| Types.GetThemeUnknownType | lib/types/index.tsx:307-315 | a known family with a type other than "light" or "dark" also gives the classic light colours |
| Types.GetThemeRusticDark | lib/types/index.tsx:221-227 | the rustic dark palette's five colours |
| Types.GenerateCustomPalette | lib/types/index.tsx:294-306 | the three given colours are kept; background defaults to #ffffff and text to #333333 only when the argument is absent |
| ConfigMerge.FallbackItem | scripts/generate-config.ts:78-79 | the default item a remote item is completed from: the first default item with the same key, or the first default item when none has that key or the remote item has no key |
| ConfigMerge.MergeArrayItems | scripts/generate-config.ts:72-82 | one merged item per remote item, in remote order, each the remote item laid over its fallback item |
| ConfigMerge.OverlayHours | scripts/generate-config.ts:80 | each of day, open, close and isClosed is the remote entry's when it gives one and the fallback entry's when it omits it; an entry giving only the fallback's day yields that entry |
| ConfigMerge.OverlayFeature | scripts/generate-config.ts:80 | each of id, title, description and image is the remote item's when it gives one and the fallback item's when it omits it |
| ConfigMerge.OverlayTestimonial | scripts/generate-config.ts:80 | each of id, author, role, content, image and rating is the remote item's when it gives one and the fallback item's when it omits it |
| ConfigMerge.MergeHours | scripts/generate-config.ts:115-116 | one merged entry per remote entry, keeping each day the remote gives |
| ConfigMerge.MergeFeatures | scripts/generate-config.ts:169-175 | one merged feature per remote item, keeping each id the remote gives |
| ConfigMerge.MergeTestimonials | scripts/generate-config.ts:195-201 | one merged testimonial per remote item, keeping each id the remote gives |
| ConfigMerge.MergeAddress | scripts/generate-config.ts:89-92 | each address field is the remote one when given and the default one when omitted; no remote address keeps the default |
| ConfigMerge.MergeContactForm | scripts/generate-config.ts:98-101 | each form field is the remote one when given and the default one when omitted |
| ConfigMerge.MergeContactDetails | scripts/generate-config.ts:102-105 | each contact detail is the remote one when given and the default one when omitted |
| ConfigMerge.MergeContact | scripts/generate-config.ts:95-106 | title, subtitle and mapUrl follow the overlay; an omitted form or contact details keeps the default one whole |
| ConfigMerge.MergeSocial | scripts/generate-config.ts:109-112 | the links are the union of both records, the remote URL winning on a shared network |
| ConfigMerge.MergeReservation | scripts/generate-config.ts:120-127 | every reservation field, the two lists included, is the remote one when given and the default one when omitted |
| ConfigMerge.MergeTheme | scripts/generate-config.ts:130-136 | name and type are the remote ones when non-empty and the defaults otherwise; the palette is the remote one, else the table entry for the DEFAULT name and type |
| ConfigMerge.MergeLink | scripts/generate-config.ts:146-153 | link text and target are the remote ones when given and the default ones when omitted |
| ConfigMerge.MergeHero | scripts/generate-config.ts:142-155 | heading, subheading and background follow the overlay; a remote hero without cta keeps both default links |
| ConfigMerge.MergeAbout | scripts/generate-config.ts:158-163 | title, description, image and stats are the remote ones when given and the defaults otherwise |
| ConfigMerge.MergeFeaturesSection | scripts/generate-config.ts:166-176 | title and subtitle follow the overlay; an absent item list keeps the default items, a present one gives one item per remote item |
| ConfigMerge.MergeTestimonialsSection | scripts/generate-config.ts:192-202 | the same for the testimonials section |
| ConfigMerge.MergeGallery | scripts/generate-config.ts:205-216 | without remote categories the default gallery stays; with them, one category per remote category with its name |
| ConfigMerge.MergeCallToAction | scripts/generate-config.ts:219-222 | each call-to-action field is the remote one when given and the default one when omitted |
| ConfigMerge.MergeHomepage | scripts/generate-config.ts:139-224 | every section the remote homepage omits keeps the default one, so a remote homepage with no sections keeps the default homepage |
| ConfigMerge.NormalizeImage | scripts/generate-config.ts:209-213 | a remote image keeps its url; its caption defaults to ""; its alt text is its own non-empty alt, else the caption |
| ConfigMerge.NormalizeCategories | scripts/generate-config.ts:207-214 | remote categories keep their names, their order and their number of images, and every image is normalised |
| ConfigMerge.ApplyFallbackData | scripts/generate-config.ts:65-227 | the merged record's undeclared top-level keys are the defaults'; the theme name and type fall back with the or-operator |
| ConfigMerge.HoursMergeKeys | scripts/generate-config.ts:72-82 | the merged hours have one entry per remote entry, each with the remote day (or the first default day when the remote entry has none) |
| ConfigMerge.HoursMergeDropsUnnamedDays | scripts/generate-config.ts:115-117 | a default day that no remote entry names is absent from the merged hours |
| ConfigMerge.HoursKeyOnlyEntryCompleted | scripts/generate-config.ts:78-80 | a remote entry giving only a day is replaced by the first default entry for that day |
| ConfigMerge.HoursMatchedDayOverlay | scripts/generate-config.ts:77-80 | an entry naming a default day is laid over the first default entry for that day: the times and closed flag it gives win, the others are that entry's |
| ConfigMerge.HoursUnmatchedDayUsesFirst | scripts/generate-config.ts:78-80 | an entry with an unknown day keeps that day and takes its missing fields from the first default entry |
| ConfigMerge.FeatureKeyOnlyItemCompleted | scripts/generate-config.ts:169-175 | a remote feature giving only an id is the first default feature with that id |
| ConfigMerge.FeatureMatchedIdOverlay | scripts/generate-config.ts:77-80 | a feature with a default id is laid over the first default feature with that id, field by field |
| ConfigMerge.FeatureUnmatchedIdUsesFirst | scripts/generate-config.ts:169-175 | a feature with an unknown id takes its missing fields from the first default feature |
| ConfigMerge.TestimonialKeyOnlyItemCompleted | scripts/generate-config.ts:195-201 | a remote testimonial giving only an id is the first default testimonial with that id |
| ConfigMerge.TestimonialUnmatchedIdUsesFirst | scripts/generate-config.ts:195-201 | a testimonial with an unknown id takes its missing fields from the first default testimonial |
| ConfigMerge.TestimonialMatchedIdOverlay | scripts/generate-config.ts:77-80 | a testimonial with a default id is laid over the first default testimonial with that id, field by field, rating included |
| ConfigMerge.ScalarFallbacks | scripts/generate-config.ts:85-86 | name and description are the remote ones exactly when those are non-empty strings, else the defaults |
| ConfigMerge.SectionOverlays | scripts/generate-config.ts:88-112 | the address is a field-wise overlay, as is the WhatsApp number, and an absent address or contact keeps the default; social links are the union of both records with the remote URL winning |
| ConfigMerge.ContactOverlay | scripts/generate-config.ts:94-106 | contact title, subtitle and mapUrl are overlaid; the form and the contact details are overlaid field by field one level down, and kept whole when the remote omits them |
| ConfigMerge.ReservationOverlay | scripts/generate-config.ts:119-127 | every reservation field the remote gives wins, the lists taken whole; an absent section keeps the default |
| ConfigMerge.HeroOverlay | scripts/generate-config.ts:142-155 | hero heading, subheading and background are overlaid; each cta link is overlaid on its default link, which stays when the remote does not reach it |
| ConfigMerge.AboutAndCtaOverlay | scripts/generate-config.ts:157-163 | about and the closing call to action are field-wise overlays, and an absent one keeps the default |
| ConfigMerge.FeaturesSectionOverlay | scripts/generate-config.ts:165-176 | feature title and subtitle are overlaid; a present remote list becomes its keyed merge with the default items, an absent one keeps them |
| ConfigMerge.TestimonialsSectionOverlay | scripts/generate-config.ts:191-202 | the same for testimonials |
| ConfigMerge.HoursRule | scripts/generate-config.ts:114-117 | hours are replaced only by a non-empty remote list, and then by the keyed merge with one entry per remote entry |
| ConfigMerge.PresentListsReplace | scripts/generate-config.ts:119-127 | feature and testimonial items, occasions, policies and statistics are replaced as soon as the remote list is present, even when it is empty |
| ConfigMerge.NoHomepageKeepsDefault | scripts/generate-config.ts:138-139 | without a remote homepage the default homepage is kept whole |
| ConfigMerge.GalleryReplaced | scripts/generate-config.ts:204-216 | remote categories replace the defaults, as the normalised categories: same names in order, every image normalised and so with a caption and an alt text; without remote categories the default gallery stays |
| ConfigMerge.IntermediatePalette | scripts/generate-config.ts:129-136 | the merged palette is the remote palette if sent, else the one for the DEFAULT theme name and type |
| ConfigMerge.RemoteTopLevelKeysIgnored | scripts/generate-config.ts:69 | the remote record's undeclared top-level keys do not affect the merge |
| ConfigMerge.EmptyRemoteYieldsDefaults | scripts/generate-config.ts:65-227 | an empty remote record yields the defaults, with the palette looked up from their theme |
| ConfigValidation.TestimonialError | scripts/generate-config.ts:51-63 | no error exactly when id, author and content are non-empty and the rating is a number from 1 to 5; the field error is raised before the rating error |
| ConfigValidation.ValidationErrorNoneIff | scripts/generate-config.ts:229-264 | validateConfig passes exactly when every required section is truthy, every hours entry is complete, every testimonial is valid and the theme has a name and a type |
| ConfigValidation.ValidationError | scripts/generate-config.ts:229-264 | an empty name is the first error reported; a reported hours entry or testimonial is one of the record's own, and a theme error means an empty theme name or type |
| ConfigValidation.MissingSectionExactly | scripts/generate-config.ts:230-245 | a missing-section error occurs exactly when name or description is empty, and it names the first such section |
| ConfigValidation.FractionalRatingAccepted | scripts/generate-config.ts:56-62 | a rating of 4.5 passes |
| ConfigValidation.StringRatingRejected | scripts/generate-config.ts:56-62 | a rating sent as the string "5" is rejected with the rating error |
| ConfigValidation.SectionLoopStops | scripts/generate-config.ts:241-245 | the section loop reports the first falsy required section by its key |
| ConfigValidation.HoursLoopStops | scripts/generate-config.ts:248-252 | after the sections pass, the first incomplete hours entry is the error |
| ConfigValidation.TestimonialLoopStops | scripts/generate-config.ts:258 | after sections and hours pass, the first invalid testimonial's own error is the error |
| ConfigValidation.LoopsPass | scripts/generate-config.ts:260-263 | once all three loops pass, only a missing theme name or type can fail |
| ConfigValidation.ValidateConfig | scripts/generate-config.ts:229-264 | the loops over sections, hours and testimonials, then the theme check, return the first error in that order (`ValidationError`, which `ValidationErrorNoneIff` ties to validity) |
| ConfigGenerator.StripServerFields | scripts/generate-config.ts:279-292 | none of the eight server-only keys remains; every other key and every section is unchanged |
| ConfigGenerator.SetPalette | scripts/generate-config.ts:303-306 | the palette becomes the table entry for the record's theme name and type, and nothing else changes |
| ConfigGenerator.Resolve | scripts/generate-config.ts:276-306 | a published record has none of the server-only keys, and its palette is the table entry for its own theme name and type |
| ConfigGenerator.GenerateConfig | scripts/generate-config.ts:266-306 | merge, delete keys one by one, validate, reset the palette: fails exactly on an invalid merge, and a success holds no server key and the palette of its own theme name and type |
| ConfigGenerator.ResolvedPaletteFromTheme | scripts/generate-config.ts:302-306 | the published palette is the table palette for the published name and type, so a remote palette has no effect on the output |
| ConfigGenerator.ValidationIgnoresPalette | scripts/generate-config.ts:229-264 | changing the palette colours does not change validateConfig's outcome |
| ConfigGenerator.OnlyEntryChecksCanFail | scripts/generate-config.ts:85-86 | with defaults that have a name, a description and a theme, generation can only fail on an hours entry or a testimonial |
| ConfigGenerator.FindIndexSamePredicate | scripts/generate-config.ts:241-245 | the section scan depends only on the predicate's values on the sections |
| ConfigGenerator.ResolveValid | scripts/generate-config.ts:294-306 | a merge that passes validation is published with its palette recomputed |
| ConfigGenerator.ResolveFailsIffInvalid | scripts/generate-config.ts:294-300 | generation fails exactly when the stripped merge is invalid, with validateConfig's error |
| ConfigGenerator.ResolvedIsStrippedMerge | scripts/generate-config.ts:276-306 | the output is the merge, minus the server-only keys, with the palette replaced by the table entry for the merged theme name and type |
| ConfigGenerator.StripDoesNotAffectValidation | scripts/generate-config.ts:290-296 | deleting the server-only keys does not change validateConfig's outcome |
| ConfigGenerator.StripIsNoOpForCleanDefaults | scripts/generate-config.ts:69 | with defaults free of server-only keys, the strip step removes nothing |
| SiteConfigDefaults.DefaultConfigIsValid | config/siteConfig.ts:3-269 | the default configuration passes validateConfig |
| SiteConfigDefaults.ValidWithDefaultTestimonials | config/siteConfig.ts:135-193 | a configuration with names, complete hours and the default testimonials passes validation |
| SiteConfigDefaults.ValidWithDefaultHours | config/siteConfig.ts:40-48 | a configuration with names, the default hours and complete testimonials passes validation |
| SiteConfigDefaults.SectionsTruthy | config/siteConfig.ts:4-5 | with a non-empty name and description, every required section is truthy |
| SiteConfigDefaults.HoursValid | config/siteConfig.ts:40-48 | every default hours entry is complete |
| SiteConfigDefaults.TestimonialsValid | config/siteConfig.ts:135-193 | every default testimonial is complete and rated from 1 to 5 |
| SiteConfigDefaults.DefaultHoursShape | config/siteConfig.ts:40-48 | seven entries, Monday to Sunday in order, distinct days, all times given |
| SiteConfigDefaults.DefaultTestimonialsShape | config/siteConfig.ts:135-193 | testimonial ids "1" to "6", distinct, ratings 4 or 5 |
| SiteConfigDefaults.DefaultFeaturesShape | config/siteConfig.ts:108-133 | feature ids "1" to "3", distinct |
| SiteConfigDefaults.DefaultPaletteMismatch | config/siteConfig.ts:75-79 | the stored palette is rustic LIGHT while the stored type is dark, so it differs from getTheme's answer |
| SiteConfigDefaults.DefaultGalleryComplete | config/siteConfig.ts:196-258 | every default gallery image has a caption and an alt text |
| ResolverScenarios.DefaultsAcceptAnyRemote | config/siteConfig.ts:40-193 | the default keyed lists are non-empty, so any remote record can be merged |
| ResolverScenarios.ResolveWithoutRemote | scripts/generate-config.ts:266-306 | without remote data the output is the default configuration with the rustic dark palette |
| ResolverScenarios.DefaultMergeWithoutRemote | scripts/generate-config.ts:65-136 | merging nothing into the defaults changes only the palette, to rustic dark |
| ResolverScenarios.OceanMondayScenario | scripts/generate-config.ts:114-136 | a remote ocean/dark theme with one Monday entry publishes only that Monday and the ocean dark palette |
| ResolverScenarios.OceanMondayMerge | scripts/generate-config.ts:114-136 | the merge of that remote before the palette reset carries the rustic dark palette |
| ResolverScenarios.UnmatchedDayScenario | scripts/generate-config.ts:78-80 | a remote "monday" (lower case) matches no default day and is the only published entry |
| ResolverScenarios.DefaultsOnlyEntryChecksCanFail | scripts/generate-config.ts:229-264 | with the real defaults, only the hours and testimonial checks can fail |
| ResolverScenarios.EmptyTestimonialsAccepted | scripts/generate-config.ts:192-202 | an empty remote testimonial list is published empty and passes validation |
| ResolverScenarios.EmptyTestimonialsMerge | scripts/generate-config.ts:192-202 | the merge of that remote keeps the default hours and has no testimonials |
| TestimonialCarousel.Next | components/sections/Testimonial.tsx:195-197 | the next index stays below n, moving one on and wrapping from the last to 0 |
| TestimonialCarousel.Prev | components/sections/Testimonial.tsx:171-175 | the previous index stays below n, moving one back and wrapping from 0 to the last |
| TestimonialCarousel.PrevUndoesNext | components/sections/Testimonial.tsx:171-197 | previous after next returns to the same testimonial |
| TestimonialCarousel.NextUndoesPrev | components/sections/Testimonial.tsx:171-197 | next after previous returns to the same testimonial |
| TestimonialCarousel.Advance | components/sections/Testimonial.tsx:22-30 | after k ticks the index is below n (or, after none, the start) |
| TestimonialCarousel.AdvanceWithinRound | components/sections/Testimonial.tsx:22-30 | k ticks within one round move k places on, wrapping once |
| TestimonialCarousel.FullRoundReturns | components/sections/Testimonial.tsx:22-30 | n ticks return to the starting testimonial |
| TestimonialCarousel.EveryTestimonialShown | components/sections/Testimonial.tsx:22-30 | autoplay reaches every testimonial within n ticks from any start |
| TestimonialCarousel.StarFills | components/sections/Testimonial.tsx:121-131 | exactly five stars are drawn |
| TestimonialCarousel.StarsFilledPrefix | components/sections/Testimonial.tsx:121-131 | the filled stars come first, and their number is the rating rounded up, capped at 0 and 5 |
| TestimonialCarousel.WholeRatingFillsThatMany | components/sections/Testimonial.tsx:121-131 | a whole rating k from 0 to 5 fills k stars |
| TestimonialCarousel.Carousel.constructor | components/sections/Testimonial.tsx:19-20 | starts at the first testimonial with autoplay on |
| TestimonialCarousel.Carousel.Current | components/sections/Testimonial.tsx:116 | the testimonial shown is the one at the current index, and it is one of the items |
| TestimonialCarousel.Carousel.ShowNext | components/sections/Testimonial.tsx:195-197 | the index becomes Next of the old one, autoplay is unchanged, and the index stays valid |
| TestimonialCarousel.Carousel.ShowPrevious | components/sections/Testimonial.tsx:171-175 | the index becomes Prev of the old one, autoplay is unchanged, and the index stays valid |
| TestimonialCarousel.Carousel.Tick | components/sections/Testimonial.tsx:22-30 | the index advances like next only while autoplay is on |
| TestimonialCarousel.Carousel.MouseEnter | components/sections/Testimonial.tsx:79 | autoplay is switched off and the index is unchanged |
| TestimonialCarousel.Carousel.MouseLeave | components/sections/Testimonial.tsx:80 | autoplay is switched on and the index is unchanged |
| GallerySection.CategoryNames | components/sections/Gallery.tsx:27-30 | "All" followed by every category name in order, one longer than the category list |
| GallerySection.AllImages | components/sections/Gallery.tsx:35 | the "All" view is at least as long as any single category's images |
| GallerySection.FilteredImages | components/sections/Gallery.tsx:33-38 | "All" shows every category's images; any other non-empty view is the images of a category with that name; a name no category carries shows nothing |
| GallerySection.AllImagesMembership | components/sections/Gallery.tsx:33-35 | an image is in the "All" view exactly when some category holds it |
| GallerySection.AllImagesAppend | components/sections/Gallery.tsx:35 | the "All" view of two runs of categories is their views concatenated, in category order |
| GallerySection.AllImagesCount | components/sections/Gallery.tsx:35 | the "All" view shows as many images as the categories hold together |
| GallerySection.NamedCategoryShowsFirstMatch | components/sections/Gallery.tsx:36-38 | a named category shows the images of the first category with that name |
| GallerySection.UnknownCategoryShowsNothing | components/sections/Gallery.tsx:36-38 | a name no category carries shows no images |
| GallerySection.FilteredImagesFromCategories | components/sections/Gallery.tsx:33-38 | every image shown belongs to some category |
| GallerySection.CategoryNamedAllShadowed | components/sections/Gallery.tsx:33-35 | a category named "All" can never be shown on its own |
| GallerySection.DisplayAlt | components/sections/Gallery.tsx:108 | the alt text shown is never empty: the image's own non-empty alt, else "Restaurant dish" |
| GallerySection.DisplayAltAfterGeneration | components/sections/Gallery.tsx:154 | for a generated image, the alt shown is its alt, else its caption, else "Restaurant dish" |
| GallerySection.GalleryView.constructor | components/sections/Gallery.tsx:22-24 | starts on "All", showing every image, with no preview and no hovered card |
| GallerySection.GalleryView.SelectCategory | components/sections/Gallery.tsx:76 | the active category changes and the grid shows its filtered images; preview and hover are untouched |
| GallerySection.GalleryView.OpenImage | components/sections/Gallery.tsx:103 | the preview opens on the clicked card's image |
| GallerySection.GalleryView.ClosePreview | components/sections/Gallery.tsx:132-144 | the preview closes and the category is unchanged |
| GallerySection.GalleryView.HoverCard | components/sections/Gallery.tsx:100 | the hovered card is recorded |
| GallerySection.GalleryView.UnhoverCard | components/sections/Gallery.tsx:101 | no card is hovered |
| FooterSection.MatchRepeatSpec | components/layout/Footer.tsx:43 | the `{10,15}$` tail matches exactly when the rest is made of class characters and brings the count to between 10 and 15 |
| FooterSection.MatchRepeat | components/layout/Footer.tsx:43 | a match of the bounded repetition brings the count to between 10 and 15 |
| FooterSection.PhoneRegexTest | components/layout/Footer.tsx:43-44 | an accepted number has 10 to 16 characters, and 16 only with a leading '+' |
| FooterSection.PhoneRegexTestAccepts | components/layout/Footer.tsx:43-44 | the regular expression accepts exactly an optional '+' followed by 10 to 15 digits, whitespace, hyphens or parentheses |
| FooterSection.PlusOnlyInFront | components/layout/Footer.tsx:43 | a leading '+' is only ever taken by `\+?`, so acceptance reduces to the rest being a phone body |
| FooterSection.InternationalNumberAccepted | components/layout/Footer.tsx:43-44 | "+91 98765 43210" is accepted |
| FooterSection.NoDigitsAccepted | components/layout/Footer.tsx:43-44 | ten parentheses, or ten spaces, are accepted: no digit is required |
| FooterSection.WrongLengthRejected | components/layout/Footer.tsx:43-44 | nine characters and sixteen characters are rejected |
| FooterSection.DoublePlusRejected | components/layout/Footer.tsx:43-44 | a second '+' is rejected |
| FooterSection.LetterRejected | components/layout/Footer.tsx:43-44 | a letter is rejected |
| FooterSection.ToastFor | components/layout/Footer.tsx:49-63 | success toast exactly for a truthy success; otherwise the server message or "An error occurred"; an exception gives "Failed to subscribe. Please try again later." |
| FooterSection.ServerMessageShown | components/layout/Footer.tsx:58 | a refusal shows the server's non-empty message, else "An error occurred" |
| FooterSection.NewsletterForm.constructor | components/layout/Footer.tsx:28-29 | the phone field and the message start empty |
| FooterSection.NewsletterForm.EditPhone | components/layout/Footer.tsx:28 | typing sets the phone field and nothing else |
| FooterSection.NewsletterForm.HandleWhatsAppSignup | components/layout/Footer.tsx:38-64 | the message is cleared. A rejected number sets "Please enter a valid phone number" and sends nothing. An accepted number is sent; success clears the field and failure keeps it |
| FooterSection.RenderedSocialLinks | components/layout/Footer.tsx:151-153 | exactly the links with an icon (facebook, instagram, twitter, youtube) and a non-empty URL are drawn, with their own URLs |
| FooterSection.YelpAndXNeverRendered | components/layout/Footer.tsx:19-24 | Yelp and X links are never drawn |
| FooterSection.OtherNetworksIgnored | components/layout/Footer.tsx:19-24 | links for networks without an icon do not change what is drawn |

## Left out

- Fetching the remote configuration (`fetchConfig`), reading the defaults
  module, the timestamp, and writing the generated file: these are I/O. The
  remote record is a parameter, and the output is the returned `Result`.
- JSON `null` values in the remote record. `{...d, ...r}` would copy a null
  over a default, and the typed records cannot hold one. A field is either
  present with a value of its type, or absent.
- A remote record whose fields have the wrong JSON type (for example a
  number where a string is declared) is not modelled. Only the testimonial
  rating, whose type the source tests, is an open `JsonValue`.
- `ApplyFallbackData`: it requires `CanMerge`. With an EMPTY default keyed
  list and a non-empty remote one, the source builds items from the remote
  fields alone (`fallback[0]` is undefined). The typed records cannot hold
  such an item. With the real defaults this never happens
  (`ResolverScenarios.DefaultsAcceptAnyRemote`).
- A remote gallery category without an `images` array: the source raises a
  TypeError there. The model's categories always carry a list.
- `ConfigMerge.ApplyFallbackData`, `ConfigMerge.OverlayHours`,
  `ConfigMerge.OverlayFeature`, `ConfigMerge.OverlayTestimonial` and the
  section merges: keys the types do not declare inside a section or a list
  item (an `_id` on a remote hours entry, say) are carried into the output by
  the source's spreads and survive the strip, which removes top-level keys
  only. The records have no place for them, so the model drops them; only
  undeclared TOP-LEVEL keys are kept (`otherKeys`).
- `Types.GetTheme`: it does not model JavaScript's inherited property names
  (`toString`, `__proto__`, …) used as a theme name or type. For those, the
  lookup in the source reaches the object prototype.
- `FooterSection.RenderedSocialLinks`: the icon lookup `socialIcons[key]` in
  `components/layout/Footer.tsx` also finds inherited properties such as
  `constructor` or `toString`. These are truthy, so a remote social link
  under such a key with a non-empty URL would be drawn. The model draws only
  the four keys with an icon.
- `defaultConfig` is written out as a constant in `SiteConfigDefaults`. Image
  paths and long texts are copied as they are, and `specialMenu` is not
  modelled: the merge and the validation have it commented out.
- The carousel's timer: `setInterval`'s five-second period, and the restart
  of the timer when autoplay or the list length changes. One `Tick` is one
  elapsed period. The carousel's list is fixed for the object's lifetime.
- `TestimonialCarousel.Carousel.constructor`: it requires a non-empty list.
  The source indexes `items[0]` and divides by the length without a guard;
  an empty list breaks the page.
- The star row takes the rating as a number. The page only receives ratings
  that validation accepted, and validation accepts only numbers.
- Animations, styling, the hero slider and the menu, contact and reservation
  pages are not part of this model.
- `FooterSection.NewsletterForm.HandleWhatsAppSignup`: it treats the request
  as one step whose outcome is a parameter. It does not model edits made to
  the phone field while the request is in flight. It does not model the
  `isSubmitting` and `error` state of `useContactForm`, whose code is not
  part of this model.
- Toasts are returned rather than displayed.
- `SubmitOutcome.Responded` carries the `message` as an optional string. A
  non-string message is not modelled.
- The footer's social links are a map, so the order in which they are drawn
  (`Object.entries` order) is not modelled.
- The phone check works on Unicode code points, while JavaScript's regular
  expression (without the `u` flag) works on UTF-16 code units. This changes
  nothing: no character outside the Basic Multilingual Plane is in the class,
  so such a string is rejected either way.
