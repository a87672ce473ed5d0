/** The portfolio page of portfolio.js: from `galleries.json` it renders one
    section per 'photo-gallery' entry, with a grid of linked thumbnails and
    one mobile column rule per rendered section. */
module Portfolio {

  const GalleryType := "photo-gallery"

  /** An entry of `galleries.json`'s `images`. */
  datatype Photo = Photo(path: string, thumbnailPath: string, alt: string)

  /** `displaySettings`: values are interpolated into CSS as written. */
  datatype Display = Display(gridColumns: string, gap: string, mobileColumns: string)

  /** An entry of `galleries.json`'s `sections`. */
  datatype Entry = Entry(kind: string, id: string, title: string, description: string,
                         display: Display, images: seq<Photo>)

  /** The page texts the caller passes in. */
  datatype Content = Content(pageTitle: string, portfolioHeading: string)

  /** `<div class="gallery-item"><a href data-lightbox data-title><img src alt>` */
  datatype Item = Item(href: string, lightbox: string, dataTitle: string, src: string, alt: string)

  /** `<section id class="gallery-section"><h2><p><div class="gallery-grid">` with
      the grid's inline `grid-template-columns` and `gap`. */
  datatype Gallery = Gallery(id: string, title: string, description: string,
                             columns: string, gap: string, items: seq<Item>)

  /** A `<style>` appended to the head: below 768px, the grid under `scope`
      uses `columns`. */
  datatype MobileRule = MobileRule(scope: string, columns: string)

  /** What the page shows: the document title, the heading, the sections in
      `#galleries-container` and the rules added to the head. */
  datatype Page = Page(docTitle: string, heading: string, galleries: seq<Gallery>, rules: seq<MobileRule>)

  function Repeat(n: string): string
  {
    "repeat(" + n + ", 1fr)"
  }

  predicate IsGallery(e: Entry)
  {
    e.kind == GalleryType
  }

  /** The entries that are rendered, in input order. */
  function Rendered(entries: seq<Entry>): (r: seq<Entry>)
    ensures forall i :: 0 <= i < |r| ==> IsGallery(r[i])
    ensures |r| <= |entries|
  {
    if entries == [] then []
    else
      var last := entries[|entries| - 1];
      Rendered(entries[..|entries| - 1]) + (if IsGallery(last) then [last] else [])
  }

  function ItemOf(p: Photo, id: string): Item
  {
    Item(p.path, id, p.alt, p.thumbnailPath, p.alt)
  }

  function ItemsOf(photos: seq<Photo>, id: string): (r: seq<Item>)
    ensures |r| == |photos|
  {
    seq(|photos|, j requires 0 <= j < |photos| => ItemOf(photos[j], id))
  }

  function GalleryOf(e: Entry): Gallery
  {
    Gallery(e.id, e.title, e.description, Repeat(e.display.gridColumns), e.display.gap, ItemsOf(e.images, e.id))
  }

  function RuleOf(e: Entry): MobileRule
  {
    MobileRule("#" + e.id + " .gallery-grid", Repeat(e.display.mobileColumns))
  }

  function Galleries(es: seq<Entry>): (r: seq<Gallery>)
    ensures |r| == |es|
  {
    seq(|es|, i requires 0 <= i < |es| => GalleryOf(es[i]))
  }

  function Rules(es: seq<Entry>): (r: seq<MobileRule>)
    ensures |r| == |es|
  {
    seq(|es|, i requires 0 <= i < |es| => RuleOf(es[i]))
  }

  /** An entry is rendered exactly when its type is 'photo-gallery'. */
  lemma {:induction false} RenderedExactly(entries: seq<Entry>, e: Entry)
    ensures e in Rendered(entries) <==> e in entries && IsGallery(e)
  {
    if entries != [] {
      var init := entries[..|entries| - 1];
      RenderedExactly(init, e);
      assert entries == init + [entries[|entries| - 1]];
    }
  }

  /** Rendering keeps input order: the filter distributes over
      concatenation. */
  lemma {:induction false} RenderedKeepsOrder(a: seq<Entry>, b: seq<Entry>)
    ensures Rendered(a + b) == Rendered(a) + Rendered(b)
    decreases |b|
  {
    if b == [] {
      assert a + b == a;
    } else {
      var init := b[..|b| - 1];
      RenderedKeepsOrder(a, init);
      assert (a + b)[..|a + b| - 1] == a + init;
    }
  }

  /** Each rendered section has exactly one mobile rule, in the same
      position, scoped to that section's id; each photo yields one item in
      order, linked to the full image and grouped under the section id. */
  lemma PageShape(es: seq<Entry>)
    ensures |Rules(es)| == |Galleries(es)|
    ensures forall i :: 0 <= i < |es| ==>
              Rules(es)[i].scope == "#" + Galleries(es)[i].id + " .gallery-grid"
    ensures forall i, j :: 0 <= i < |es| && 0 <= j < |es[i].images| ==>
              |Galleries(es)[i].items| == |es[i].images| &&
              Galleries(es)[i].items[j].href == es[i].images[j].path &&
              Galleries(es)[i].items[j].lightbox == es[i].id &&
              Galleries(es)[i].items[j].src == es[i].images[j].thumbnailPath
  {
  }

  lemma PrefixStep(entries: seq<Entry>, i: nat)
    requires i < |entries|
    ensures Rendered(entries[..i + 1]) == Rendered(entries[..i]) + (if IsGallery(entries[i]) then [entries[i]] else [])
  {
    assert entries[..i + 1][..i] == entries[..i];
  }

  lemma SnocRendered(es: seq<Entry>, e: Entry)
    ensures Galleries(es + [e]) == Galleries(es) + [GalleryOf(e)]
    ensures Rules(es + [e]) == Rules(es) + [RuleOf(e)]
  {
  }

  /** `initPortfolioPage`, after `galleries.json` has been read: the title
      and heading from `content`, then the `sections.forEach`. The container
      is not emptied first: the new sections are appended after whatever
      `container` already holds. */
  method InitPortfolioPage(content: Content, container: seq<Gallery>, entries: seq<Entry>) returns (page: Page)
    ensures page.docTitle == content.pageTitle && page.heading == content.portfolioHeading
    ensures page.galleries == container + Galleries(Rendered(entries))
    ensures page.rules == Rules(Rendered(entries))
  {
    var galleries: seq<Gallery> := container;
    var rules: seq<MobileRule> := [];
    var i := 0;
    while i < |entries|
      invariant 0 <= i <= |entries|
      invariant galleries == container + Galleries(Rendered(entries[..i]))
      invariant rules == Rules(Rendered(entries[..i]))
    {
      var e := entries[i];
      PrefixStep(entries, i);
      if e.kind == GalleryType {
        SnocRendered(Rendered(entries[..i]), e);
        rules := rules + [MobileRule("#" + e.id + " .gallery-grid", Repeat(e.display.mobileColumns))];
        var items := BuildItems(e.images, e.id);
        assert items == ItemsOf(e.images, e.id);
        galleries := galleries + [Gallery(e.id, e.title, e.description, Repeat(e.display.gridColumns), e.display.gap, items)];
      }
      i := i + 1;
    }
    assert entries[..|entries|] == entries;
    page := Page(content.pageTitle, content.portfolioHeading, galleries, rules);
  }

  /** `section.images.forEach`: one item per photo, in order. */
  method BuildItems(photos: seq<Photo>, id: string) returns (items: seq<Item>)
    ensures |items| == |photos|
    ensures forall j :: 0 <= j < |photos| ==>
              items[j] == Item(photos[j].path, id, photos[j].alt, photos[j].thumbnailPath, photos[j].alt)
  {
    items := [];
    var j := 0;
    while j < |photos|
      invariant 0 <= j <= |photos|
      invariant |items| == j
      invariant forall k :: 0 <= k < j ==>
                  items[k] == Item(photos[k].path, id, photos[k].alt, photos[k].thumbnailPath, photos[k].alt)
    {
      var p := photos[j];
      items := items + [Item(p.path, id, p.alt, p.thumbnailPath, p.alt)];
      j := j + 1;
    }
  }
}
