/** The older gallery builder of mainold.js: from `images.json` it appends a
    nav link and a section per non-empty category, an anchor per image, and
    copies the first 'weddings' images into the homepage preview grid until
    that grid holds three children. */
module LegacyGalleries {
  import opened Text
  import opened Catalog

  /** The category whose images are previewed, the preview's lightbox group,
      and the child count at which the preview stops growing. */
  const PreviewKey := "weddings"
  const PreviewGroup := "preview"
  const PreviewCap := 3

  /** `<li><a href="#key">Key</a></li>` */
  datatype NavLink = NavLink(href: string, text: string)

  /** `<img data-src alt class>` */
  datatype Img = Img(dataSrc: string, alt: string, orientation: string)

  /** `<a href data-lightbox data-title>` around its image. */
  datatype Link = Link(href: string, lightbox: string, dataTitle: string, img: Img)

  /** `<section id class="gallery-section"><h2>..</h2><div class="gallery-grid">` */
  datatype Section = Section(id: string, heading: string, grid: seq<Link>)

  /** `image.width > image.height ? 'landscape' : 'portrait'`; a comparison
      with a missing side is false. */
  function Orientation(image: Image): string
  {
    if image.width.Some? && image.height.Some? && image.width.value > image.height.value
    then "landscape" else "portrait"
  }

  /** The anchor of an image; `alt` and `data-title` are assigned without a
      fallback, so a missing field is written as "undefined". */
  function LinkOf(image: Image, key: string): Link
  {
    Link(image.url, key, JsString(image.description), Img(image.url, JsString(image.title), Orientation(image)))
  }

  function LinksOf(images: seq<Image>, key: string): (r: seq<Link>)
    ensures |r| == |images|
  {
    seq(|images|, j requires 0 <= j < |images| => LinkOf(images[j], key))
  }

  /** `images.length > 0`: an object has no length and is skipped too. */
  predicate Listed(e: Entry)
  {
    e.value.List? && |e.value.items| > 0
  }

  /** The categories that get a link and a section, in key order. */
  function Shown(data: Catalog): (r: Catalog)
    ensures forall i :: 0 <= i < |r| ==> Listed(r[i])
    ensures |r| <= |data|
  {
    if data == [] then []
    else
      var last := data[|data| - 1];
      Shown(data[..|data| - 1]) + (if Listed(last) then [last] else [])
  }

  function NavLinkOf(e: Entry): NavLink
  {
    NavLink("#" + e.key, Capitalize(e.key))
  }

  function SectionOf(e: Entry): Section
    requires e.value.List?
  {
    Section(e.key, Capitalize(e.key), LinksOf(e.value.items, e.key))
  }

  function NavLinks(es: Catalog): (r: seq<NavLink>)
    ensures |r| == |es|
  {
    seq(|es|, i requires 0 <= i < |es| => NavLinkOf(es[i]))
  }

  function Sections(es: Catalog): (r: seq<Section>)
    requires forall i :: 0 <= i < |es| ==> es[i].value.List?
    ensures |r| == |es|
  {
    seq(|es|, i requires 0 <= i < |es| => SectionOf(es[i]))
  }

  /** A preview copy: the anchor cloned with its image, regrouped. */
  function PreviewOf(l: Link): Link
  {
    l.(lightbox := PreviewGroup)
  }

  function Previews(images: seq<Image>): (r: seq<Link>)
    ensures |r| == |images|
  {
    seq(|images|, j requires 0 <= j < |images| => PreviewOf(LinkOf(images[j], PreviewKey)))
  }

  /** Every image the preview would take, in order, were there no cap. */
  function WeddingLinks(data: Catalog): (r: seq<Link>)
    ensures forall j :: 0 <= j < |r| ==> r[j].lightbox == PreviewGroup
  {
    if data == [] then []
    else
      var last := data[|data| - 1];
      WeddingLinks(data[..|data| - 1]) +
        (if Listed(last) && last.key == PreviewKey then Previews(last.value.items) else [])
  }

  /** The first k elements (all of them when there are fewer). */
  function Take<T>(s: seq<T>, k: nat): (r: seq<T>)
    ensures |r| <= k && |r| <= |s|
    ensures |r| < k ==> r == s
  {
    if |s| <= k then s else s[..k]
  }

  /** How many copies a preview grid with `existing` children still takes. */
  function Room(existing: nat): nat
  {
    if existing < PreviewCap then PreviewCap - existing else 0
  }

  lemma TakeSnoc<T>(s: seq<T>, x: T, k: nat)
    ensures Take(s + [x], k) == if |Take(s, k)| < k then Take(s, k) + [x] else Take(s, k)
  {
    if |Take(s, k)| >= k {
      assert (s + [x])[..k] == s[..k];
    }
  }

  lemma ShownSnoc(data: Catalog, e: Entry)
    ensures Shown(data + [e]) == Shown(data) + (if Listed(e) then [e] else [])
  {
    assert (data + [e])[..|data|] == data;
  }

  /** A category gets a link and a section exactly when it is a non-empty
      array; the others are skipped. */
  lemma {:induction false} ShownExactly(data: Catalog, e: Entry)
    ensures e in Shown(data) <==> e in data && Listed(e)
  {
    if data != [] {
      var init := data[..|data| - 1];
      ShownExactly(init, e);
      assert data == init + [data[|data| - 1]];
    }
  }

  /** Filtering keeps key order: it distributes over concatenation. */
  lemma {:induction false} ShownKeepsOrder(a: Catalog, b: Catalog)
    ensures Shown(a + b) == Shown(a) + Shown(b)
    decreases |b|
  {
    if b == [] {
      assert a + b == a;
    } else {
      var init, last := b[..|b| - 1], b[|b| - 1];
      ShownKeepsOrder(a, init);
      assert a + b == (a + init) + [last];
      ShownSnoc(a + init, last);
      ShownSnoc(init, last);
    }
  }

  /** Only 'weddings' images are previewed: with distinct keys the candidates
      are exactly the previews of that category's images, if it is listed. */
  lemma {:induction false} WeddingsOnly(data: Catalog)
    requires DistinctKeys(data)
    ensures (forall i :: 0 <= i < |data| ==> !(data[i].key == PreviewKey && Listed(data[i]))) ==>
              WeddingLinks(data) == []
    ensures forall i :: 0 <= i < |data| && data[i].key == PreviewKey && Listed(data[i]) ==>
              WeddingLinks(data) == Previews(data[i].value.items)
  {
    if data != [] {
      var init := data[..|data| - 1];
      var last := data[|data| - 1];
      WeddingsOnly(init);
      forall i | 0 <= i < |data| && data[i].key == PreviewKey && Listed(data[i])
        ensures WeddingLinks(data) == Previews(data[i].value.items)
      {
        if i < |data| - 1 {
          assert init[i] == data[i];
          assert last.key != PreviewKey;
        } else {
          assert forall t :: 0 <= t < |init| ==> init[t].key != PreviewKey;
        }
      }
    }
  }

  /** The preview never grows past three children (a grid that already had
      more is left alone), takes the weddings images in order, and regroups
      each copy under 'preview'. */
  lemma PreviewCapped(data: Catalog, existing: nat)
    ensures existing + |Take(WeddingLinks(data), Room(existing))| <=
              if existing < PreviewCap then PreviewCap else existing
    ensures Take(WeddingLinks(data), Room(existing)) ==
              WeddingLinks(data)[..|Take(WeddingLinks(data), Room(existing))|]
    ensures forall j :: 0 <= j < |Take(WeddingLinks(data), Room(existing))| ==>
              Take(WeddingLinks(data), Room(existing))[j].lightbox == PreviewGroup
  {
  }

  /** Landscape exactly when both sides are known and the width is the
      larger; a square is portrait. */
  lemma OrientationRule(image: Image)
    ensures Orientation(image) == "landscape" <==>
              image.width.Some? && image.height.Some? && image.width.value > image.height.value
    ensures image.width.Some? && image.width == image.height ==> Orientation(image) == "portrait"
  {
  }

  /** The fetch handler's `Object.keys(data).forEach`: nav links whenever
      the link list exists; sections, anchors and preview copies only when
      the galleries container exists (the preview also needs its grid,
      which starts with `existing` children). */
  method BuildGalleries(data: Catalog, hasLinks: bool, hasGalleries: bool, preview: Option<nat>)
    returns (links: seq<NavLink>, sections: seq<Section>, copies: seq<Link>)
    ensures links == if hasLinks then NavLinks(Shown(data)) else []
    ensures sections == if hasGalleries then Sections(Shown(data)) else []
    ensures copies == if hasGalleries && preview.Some? then Take(WeddingLinks(data), Room(preview.value)) else []
  {
    var room := if preview.Some? then Room(preview.value) else 0;
    links, sections, copies := [], [], [];
    var i := 0;
    assert Shown(data[..0]) == [] && WeddingLinks(data[..0]) == [];
    while i < |data|
      invariant 0 <= i <= |data|
      invariant links == if hasLinks then NavLinks(Shown(data[..i])) else []
      invariant sections == if hasGalleries then Sections(Shown(data[..i])) else []
      invariant copies == if hasGalleries && preview.Some? then Take(WeddingLinks(data[..i]), room) else []
    {
      PrefixStep(data, i);
      links, sections, copies := AddCategory(data[i], hasLinks, hasGalleries, preview, room,
                                             Shown(data[..i]), WeddingLinks(data[..i]), links, sections, copies);
      i := i + 1;
    }
    assert data[..|data|] == data;
  }

  lemma PrefixStep(data: Catalog, i: nat)
    requires i < |data|
    ensures Shown(data[..i + 1]) == Shown(data[..i]) + (if Listed(data[i]) then [data[i]] else [])
    ensures WeddingLinks(data[..i + 1]) == WeddingLinks(data[..i]) +
              (if Listed(data[i]) && data[i].key == PreviewKey then Previews(data[i].value.items) else [])
  {
    assert data[..i + 1][..i] == data[..i];
  }

  lemma SnocShown(es: Catalog, e: Entry)
    requires forall i :: 0 <= i < |es| ==> es[i].value.List?
    requires e.value.List?
    ensures NavLinks(es + [e]) == NavLinks(es) + [NavLinkOf(e)]
    ensures Sections(es + [e]) == Sections(es) + [SectionOf(e)]
  {
  }

  /** One category of the `Object.keys(data).forEach`, given what the
      categories before it produced. */
  method AddCategory(e: Entry, hasLinks: bool, hasGalleries: bool, preview: Option<nat>, room: nat,
                     ghost shown: Catalog, ghost before: seq<Link>,
                     links0: seq<NavLink>, sections0: seq<Section>, copies0: seq<Link>)
    returns (links: seq<NavLink>, sections: seq<Section>, copies: seq<Link>)
    requires forall i :: 0 <= i < |shown| ==> shown[i].value.List?
    requires room == if preview.Some? then Room(preview.value) else 0
    requires links0 == if hasLinks then NavLinks(shown) else []
    requires sections0 == if hasGalleries then Sections(shown) else []
    requires copies0 == if hasGalleries && preview.Some? then Take(before, room) else []
    ensures links == if hasLinks then NavLinks(shown + (if Listed(e) then [e] else [])) else []
    ensures sections == if hasGalleries then Sections(shown + (if Listed(e) then [e] else [])) else []
    ensures copies == if hasGalleries && preview.Some? then
                        Take(before + (if Listed(e) && e.key == PreviewKey then Previews(e.value.items) else []), room)
                      else []
  {
    links, sections, copies := links0, sections0, copies0;
    if !Listed(e) {
      assert shown + [] == shown && before + [] == before;
      return;
    }
    SnocShown(shown, e);
    if hasLinks {
      links := links + [NavLinkOf(e)];
    }
    if hasGalleries {
      var grid;
      grid, copies := BuildSection(e, copies, preview, room, before);
      sections := sections + [Section(e.key, Capitalize(e.key), grid)];
    }
  }

  /** The `images.forEach` of one listed category: its anchors in order,
      and a preview copy of each while the grid has room. */
  method BuildSection(e: Entry, copies0: seq<Link>, preview: Option<nat>, room: nat, ghost before: seq<Link>)
    returns (grid: seq<Link>, copies: seq<Link>)
    requires Listed(e)
    requires room == if preview.Some? then Room(preview.value) else 0
    requires copies0 == if preview.Some? then Take(before, room) else []
    ensures grid == LinksOf(e.value.items, e.key)
    ensures copies == if preview.Some? then
                        Take(before + (if e.key == PreviewKey then Previews(e.value.items) else []), room)
                      else []
  {
    var images := e.value.items;
    grid, copies := [], copies0;
    var j := 0;
    while j < |images|
      invariant 0 <= j <= |images|
      invariant grid == LinksOf(images[..j], e.key)
      invariant copies == if preview.Some? then
                            Take(before + (if e.key == PreviewKey then Previews(images[..j]) else []), room)
                          else []
    {
      var link := LinkOf(images[j], e.key);
      assert LinksOf(images[..j + 1], e.key) == grid + [link];
      if e.key == PreviewKey {
        assert Previews(images[..j + 1]) == Previews(images[..j]) + [PreviewOf(link)];
        assert before + Previews(images[..j + 1]) == (before + Previews(images[..j])) + [PreviewOf(link)];
        if preview.Some? {
          TakeSnoc(before + Previews(images[..j]), PreviewOf(link), room);
          if preview.value + |copies| < PreviewCap {
            copies := copies + [PreviewOf(link)];
          }
        }
      }
      grid := grid + [link];
      j := j + 1;
    }
    assert images[..|images|] == images;
  }
}
