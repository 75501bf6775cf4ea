/**
 * The gallery section: the category buttons, the images shown for the active
 * category, the alt text each image is shown with, and the section's state
 * (active category, image open in the preview, card under the pointer).
 */
module GallerySection {
  import opened Wrappers
  import opened Js
  import opened Types
  import opened ConfigMerge

  /** The label of the button that shows every category's images. */
  const AllLabel := "All"

  /** The alt text used when an image has none. */
  const DefaultAlt := "Restaurant dish"

  /** The category buttons: "All", then every configured category's name in order. */
  function CategoryNames(cats: seq<GalleryCategory>): (names: seq<string>)
    ensures |names| == |cats| + 1
    ensures names[0] == AllLabel
    ensures forall i :: 0 <= i < |cats| ==> names[i + 1] == cats[i].name
  {
    [AllLabel] + seq(|cats|, i requires 0 <= i < |cats| => cats[i].name)
  }

  /** Every category's images, category after category. */
  function AllImages(cats: seq<GalleryCategory>): (r: seq<GalleryImage>)
    ensures forall i :: 0 <= i < |cats| ==> |cats[i].images| <= |r|
  {
    if |cats| == 0 then [] else cats[0].images + AllImages(cats[1..])
  }

  /** An image is among all images exactly when some category holds it. */
  lemma {:induction false} AllImagesMembership(cats: seq<GalleryCategory>, img: GalleryImage)
    ensures img in AllImages(cats) <==> exists c :: c in cats && img in c.images
  {
    if |cats| > 0 {
      AllImagesMembership(cats[1..], img);
      assert forall c :: c in cats <==> c == cats[0] || c in cats[1..];
    }
  }

  /** Taking all images of two runs of categories is taking all images of each, one after the other. */
  lemma {:induction false} AllImagesAppend(a: seq<GalleryCategory>, b: seq<GalleryCategory>)
    ensures AllImages(a + b) == AllImages(a) + AllImages(b)
  {
    if |a| == 0 {
      assert a + b == b;
    } else {
      assert (a + b)[1..] == a[1..] + b;
      AllImagesAppend(a[1..], b);
    }
  }

  /** How many images the "All" view shows: the sum over the categories. */
  function ImageCount(cats: seq<GalleryCategory>): nat
  {
    if |cats| == 0 then 0 else |cats[0].images| + ImageCount(cats[1..])
  }

  /** The "All" view shows exactly as many images as the categories hold together. */
  lemma {:induction false} AllImagesCount(cats: seq<GalleryCategory>)
    ensures |AllImages(cats)| == ImageCount(cats)
  {
    if |cats| > 0 {
      AllImagesCount(cats[1..]);
    }
  }

  /** The images shown for the active category. */
  function FilteredImages(cats: seq<GalleryCategory>, active: string): (r: seq<GalleryImage>)
    ensures active == AllLabel ==> r == AllImages(cats)
    ensures active != AllLabel && r != [] ==> exists i :: 0 <= i < |cats| && cats[i].name == active && r == cats[i].images
    ensures active != AllLabel && (forall i :: 0 <= i < |cats| ==> cats[i].name != active) ==> r == []
  {
    if active == AllLabel then AllImages(cats)
    else
      match FindIndex(cats, (c: GalleryCategory) => c.name == active)
      case Some(i) => cats[i].images
      case None => []
  }

  /** A named category shows the images of the first category carrying that name. */
  lemma NamedCategoryShowsFirstMatch(cats: seq<GalleryCategory>, i: nat)
    requires i < |cats| && cats[i].name != AllLabel
    requires forall j :: 0 <= j < i ==> cats[j].name != cats[i].name
    ensures FilteredImages(cats, cats[i].name) == cats[i].images
  {
    var p := (c: GalleryCategory) => c.name == cats[i].name;
    assert p(cats[i]);
  }

  /** A name that no category carries shows nothing. */
  lemma UnknownCategoryShowsNothing(cats: seq<GalleryCategory>, active: string)
    requires active != AllLabel
    requires forall c :: c in cats ==> c.name != active
    ensures FilteredImages(cats, active) == []
  {
    var p := (c: GalleryCategory) => c.name == active;
    assert forall j :: 0 <= j < |cats| ==> !p(cats[j]);
  }

  /** Whatever the active category, every image shown belongs to some category. */
  lemma FilteredImagesFromCategories(cats: seq<GalleryCategory>, active: string, img: GalleryImage)
    requires img in FilteredImages(cats, active)
    ensures exists c :: c in cats && img in c.images
  {
    if active == AllLabel {
      AllImagesMembership(cats, img);
    } else {
      var i := FindIndex(cats, (c: GalleryCategory) => c.name == active).value;
      assert cats[i] in cats;
    }
  }

  /**
   * A category that is itself named "All" can never be shown on its own: its
   * button shows every category's images instead.
   */
  lemma CategoryNamedAllShadowed(cats: seq<GalleryCategory>, i: nat)
    requires i < |cats| && cats[i].name == AllLabel
    ensures FilteredImages(cats, cats[i].name) == AllImages(cats)
  {
  }

  /** The alt text an image is shown with, in the grid and in the preview: never empty. */
  function DisplayAlt(img: GalleryImage): (alt: string)
    ensures alt != ""
    ensures img.alt.Some? && img.alt.value != "" ==> alt == img.alt.value
    ensures img.alt.None? || img.alt.value == "" ==> alt == DefaultAlt
  {
    OrElse(img.alt, DefaultAlt)
  }

  /**
   * For an image that went through the generator, the alt text shown is its
   * own alt text, else its caption, else "Restaurant dish".
   */
  lemma DisplayAltAfterGeneration(img: GalleryImage)
    ensures var shown := DisplayAlt(NormalizeImage(img));
            && (img.alt.Some? && img.alt.value != "" ==> shown == img.alt.value)
            && ((img.alt.None? || img.alt.value == "") && img.caption.Some? && img.caption.value != ""
                ==> shown == img.caption.value)
            && ((img.alt.None? || img.alt.value == "") && (img.caption.None? || img.caption.value == "")
                ==> shown == DefaultAlt)
  {
  }

  /** The gallery's state. */
  class GalleryView {
    const categories: seq<GalleryCategory>
    var activeCategory: string
    var selectedImage: Option<GalleryImage>
    var hovered: Option<nat>

    /** The images currently on the grid. */
    function Shown(): seq<GalleryImage>
      reads this
    {
      FilteredImages(categories, activeCategory)
    }

    /** Whether the preview dialog is open: exactly when an image is selected. */
    predicate PreviewOpen()
      reads this
    {
      selectedImage.Some?
    }

    /** Starts on "All" with no preview open and no card under the pointer. */
    constructor(categories: seq<GalleryCategory>)
      ensures this.categories == categories
      ensures activeCategory == AllLabel && selectedImage == None && hovered == None
      ensures Shown() == AllImages(categories)
    {
      this.categories := categories;
      activeCategory := AllLabel;
      selectedImage := None;
      hovered := None;
    }

    /** A category button pressed; the preview and hover state are untouched. */
    method SelectCategory(name: string)
      modifies this
      ensures activeCategory == name
      ensures selectedImage == old(selectedImage) && hovered == old(hovered)
      ensures Shown() == FilteredImages(categories, name)
    {
      activeCategory := name;
    }

    /** A card clicked: the preview opens on that card's image. */
    method OpenImage(index: nat)
      requires index < |Shown()|
      modifies this
      ensures selectedImage == Some(old(Shown())[index])
      ensures PreviewOpen()
      ensures activeCategory == old(activeCategory) && hovered == old(hovered)
    {
      selectedImage := Some(FilteredImages(categories, activeCategory)[index]);
    }

    /** The preview's close button or the dialog closing. */
    method ClosePreview()
      modifies this
      ensures selectedImage == None && !PreviewOpen()
      ensures activeCategory == old(activeCategory) && hovered == old(hovered)
    {
      selectedImage := None;
    }

    /** The pointer entering the card at `index`. */
    method HoverCard(index: nat)
      modifies this
      ensures hovered == Some(index)
      ensures activeCategory == old(activeCategory) && selectedImage == old(selectedImage)
    {
      hovered := Some(index);
    }

    /** The pointer leaving a card. */
    method UnhoverCard()
      modifies this
      ensures hovered == None
      ensures activeCategory == old(activeCategory) && selectedImage == old(selectedImage)
    {
      hovered := None;
    }
  }
}
