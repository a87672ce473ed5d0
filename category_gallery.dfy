/** The Dutch portfolio page of gallery.js: `renderCategory` picks between a
    grid of subcategory cards and a grid of images, `currentCategory`
    remembers the category the back button returns to, and the nav buttons
    and the dropdown (with its leading 'all' option) are kept in step. */
module CategoryGallery {
  import opened Text
  import opened Catalog

  /** The card background used when a subcategory has no `hero_image`. */
  const CardPlaceholder := "https://placehold.co/800x600/eeeeee/333333?text=Afbeelding+komt+eraan"

  /** What `updateTitles` appends to a title to make the document title. */
  const TitleSuffix := " | Dieter Vanlangenaker Photography"

  /** The dropdown's first option. */
  const AllValue := "all"
  const AllText := "Selecteer een categorie"

  /** `<img class="sub-gallery-image" src alt>` */
  datatype Picture = Picture(src: string, alt: string)

  /** A `.sub-gallery-card`: its background style, heading and text, and what
      its click handler renders (the subcategory's title and images). */
  datatype Card = Card(background: string, title: string, description: string, images: seq<Image>)

  /** The children of `.portfolio-content`. `Other` is whatever the page
      held before the first render. */
  datatype Content = Other | Loading | Pictures(pictures: seq<Picture>) | Cards(cards: seq<Card>)

  datatype Button = Button(text: string, key: string)
  datatype Choice = Choice(value: string, text: string)

  /** What the handlers change: the container, the back button and the nav
      (shown or hidden), the page heading, the document title,
      `currentCategory`, the `active` class of each button, the dropdown's
      value, and the cards whose delayed render is still pending (oldest
      first). */
  datatype View = View(
    content: Content,
    backShown: bool,
    navShown: bool,
    heading: string,
    docTitle: string,
    current: Option<string>,
    active: seq<bool>,
    selectValue: string,
    pending: seq<Card>)

  function PictureOf(image: Image): Picture
  {
    Picture(image.url, OrElse(image.title, ""))
  }

  function PicturesOf(images: seq<Image>): (r: seq<Picture>)
    ensures |r| == |images|
  {
    seq(|images|, i requires 0 <= i < |images| => PictureOf(images[i]))
  }

  function CardOf(sub: Sub): Card
  {
    Card("url(" + OrElse(sub.hero, CardPlaceholder) + ")", sub.title, sub.description, sub.images)
  }

  function CardsOf(subs: seq<Sub>): (r: seq<Card>)
    ensures |r| == |subs|
  {
    seq(|subs|, i requires 0 <= i < |subs| => CardOf(subs[i]))
  }

  /** `updateTitles(title)` */
  function Retitle(v: View, title: string): (r: View)
    ensures r.heading == title && r.docTitle == title + TitleSuffix
  {
    v.(heading := title, docTitle := title + TitleSuffix)
  }

  /** `renderImageGallery(images)` */
  function ShowImages(v: View, images: seq<Image>): View
  {
    v.(content := Pictures(PicturesOf(images)), backShown := true, navShown := false)
  }

  /** `renderSubcategories(subs, title)` */
  function ShowCards(v: View, subs: seq<Sub>, title: string): View
  {
    Retitle(v.(content := Cards(CardsOf(subs)), backShown := false, navShown := true), title)
  }

  /** `renderCategory(key)`. An absent key changes nothing. Otherwise the key
      becomes `currentCategory` and: several subcategories give cards under
      the category's label; exactly one gives that subcategory's images
      under its title; none (absent or empty) falls back to the category's
      own `images`, leaving the heading alone; with no images either, only
      `currentCategory` changes. A bare array has neither property. */
  function CategoryView(v: View, data: Catalog, key: string): View
  {
    match Lookup(data, key)
    case None => v
    case Some(c) =>
      var v1 := v.(current := Some(key));
      match c
      case List(_) => v1
      case Record(_, images, subs) =>
        if subs.Some? && |subs.value| > 1 then ShowCards(v1, subs.value, Label(c.Title(), key))
        else if subs.Some? && |subs.value| == 1 then
          ShowImages(Retitle(v1, subs.value[0].title), subs.value[0].images)
        else if images.Some? then ShowImages(v1, images.value)
        else v1
  }

  /** A click on a card: the loading indicator, and a render scheduled 500 ms
      later. */
  function Opened(v: View, card: Card): View
  {
    v.(content := Loading, pending := v.pending + [card])
  }

  /** The oldest scheduled render runs: the card's title, then its images. */
  function TimerFires(v: View): View
  {
    if v.pending == [] then v
    else
      var card := v.pending[0];
      ShowImages(Retitle(v.(pending := v.pending[1..]), card.title), card.images)
  }

  /** The click handler of button i: only it is active, the dropdown takes
      its key, and the category is rendered. */
  function Click(v: View, data: Catalog, i: nat): View
    requires i < |data|
  {
    CategoryView(v.(active := OneHot(|data|, i), selectValue := data[i].key), data, data[i].key)
  }

  /** The dropdown's change handler: every button whose `data-category`
      equals the value becomes active, all others inactive. */
  function Change(v: View, data: Catalog, value: string): View
  {
    CategoryView(v.(active := Matching(data, value), selectValue := value), data, value)
  }

  lemma MatchingFlags(data: Catalog, value: string, flags: seq<bool>)
    requires |flags| == |Keys(data)|
    requires forall j :: 0 <= j < |flags| ==> (flags[j] <==> Keys(data)[j] == value)
    ensures flags == Matching(data, value)
  {
  }

  /** The buttons whose `data-category` equals `value`. */
  function Matching(data: Catalog, value: string): seq<bool>
  {
    seq(|data|, j requires 0 <= j < |data| => data[j].key == value)
  }

  /** The back button: `renderCategory(currentCategory)`. Before any
      category has been rendered `currentCategory` is null, which as a
      property name reads "null". */
  function Back(v: View, data: Catalog): View
  {
    CategoryView(v, data, match v.current case Some(k) => k case None => "null")
  }

  /** The `getJSON` success handler: fresh buttons, the dropdown on its
      'all' option, then the first category clicked in all but name. */
  function Loaded(v: View, data: Catalog): View
  {
    var v1 := v.(active := seq(|data|, _ => false), selectValue := AllValue);
    if data == [] then v1
    else CategoryView(v1.(active := OneHot(|data|, 0), selectValue := data[0].key), data, data[0].key)
  }

  /** An absent key (including 'all', unless it is a category) changes
      nothing at all: not the container, the titles or `currentCategory`. */
  lemma AbsentKeyUnchanged(v: View, data: Catalog, key: string)
    requires forall i :: 0 <= i < |data| ==> data[i].key != key
    ensures CategoryView(v, data, key) == v
  {
  }

  /** A present key always becomes `currentCategory`; opening a card and the
      delayed render that follows leave it alone. */
  lemma CurrentCategoryTracks(v: View, data: Catalog, i: nat, card: Card)
    requires DistinctKeys(data) && i < |data|
    ensures CategoryView(v, data, data[i].key).current == Some(data[i].key)
    ensures Opened(v, card).current == v.current
    ensures TimerFires(v).current == v.current
  {
    LookupAt(data, i);
  }

  /** The three shapes `renderCategory` can take for a present category. */
  lemma RenderShapes(v: View, data: Catalog, i: nat)
    requires DistinctKeys(data) && i < |data| && data[i].value.Record?
    ensures
      var c := data[i].value;
      var r := CategoryView(v, data, data[i].key);
      var subs := c.subcategories;
      (subs.Some? && |subs.value| > 1 ==>
        r.content == Cards(CardsOf(subs.value)) && |r.content.cards| == |subs.value| &&
        !r.backShown && r.navShown && r.heading == Label(c.title, data[i].key)) &&
      (subs.Some? && |subs.value| == 1 ==>
        r.content == Pictures(PicturesOf(subs.value[0].images)) &&
        r.backShown && !r.navShown && r.heading == subs.value[0].title) &&
      ((subs.None? || |subs.value| == 0) && c.images.Some? ==>
        r.content == Pictures(PicturesOf(c.images.value)) &&
        r.backShown && !r.navShown && r.heading == v.heading) &&
      ((subs.None? || |subs.value| == 0) && c.images.None? ==>
        r == v.(current := Some(data[i].key)))
  {
    LookupAt(data, i);
  }

  /** Opening any card of a category shown as cards and letting its render
      run, the back button brings back exactly the card view. */
  lemma BackReturnsToCards(v: View, data: Catalog, i: nat, j: nat)
    requires DistinctKeys(data) && i < |data| && v.pending == []
    requires data[i].value.Record? && data[i].value.subcategories.Some?
    requires |data[i].value.subcategories.value| > 1
    requires j < |data[i].value.subcategories.value|
    ensures
      var shown := CategoryView(v, data, data[i].key);
      Back(TimerFires(Opened(shown, shown.content.cards[j])), data) == shown
  {
    LookupAt(data, i);
  }

  /** Choosing a category in the dropdown ends in exactly the view a click on
      its button gives; choosing 'all' (not a category) only clears the
      buttons. */
  lemma ChangeIsClick(v: View, data: Catalog, i: nat)
    requires DistinctKeys(data) && i < |data|
    ensures Change(v, data, data[i].key) == Click(v, data, i)
    ensures (forall t :: 0 <= t < |data| ==> data[t].key != AllValue) ==>
              Change(v, data, AllValue) == v.(active := seq(|data|, _ => false), selectValue := AllValue)
  {
    var flags := seq(|data|, j requires 0 <= j < |data| => data[j].key == data[i].key);
    assert flags == OneHot(|data|, i);
    var none := seq(|data|, j requires 0 <= j < |data| => data[j].key == AllValue);
    if forall t :: 0 <= t < |data| ==> data[t].key != AllValue {
      assert none == seq(|data|, _ => false);
    }
  }

  /** As written, the delayed render is not cancelled by navigation: a card
      opened just before a button click still replaces that category's view
      with the card's images when its timer fires. */
  lemma PendingRenderOutlivesNavigation(v: View, data: Catalog, card: Card, i: nat)
    requires i < |data| && v.pending == []
    ensures
      var r := TimerFires(Click(Opened(v, card), data, i));
      r.content == Pictures(PicturesOf(card.images)) && r.heading == card.title && r.pending == []
  {
  }

  /** The `images.forEach` of `renderImageGallery`: one picture per image,
      in order, with `alt` the image's title or ''. */
  method BuildPictures(images: seq<Image>) returns (pictures: seq<Picture>)
    ensures |pictures| == |images|
    ensures forall j :: 0 <= j < |images| ==>
              pictures[j].src == images[j].url && pictures[j].alt == OrElse(images[j].title, "")
  {
    pictures := [];
    var j := 0;
    while j < |images|
      invariant 0 <= j <= |images|
      invariant |pictures| == j
      invariant forall t :: 0 <= t < j ==> pictures[t] == PictureOf(images[t])
    {
      pictures := pictures + [PictureOf(images[j])];
      j := j + 1;
    }
  }

  /** The `subcategories.forEach` of `renderSubcategories`: one card per
      subcategory, in order; a missing `hero_image` falls back to the
      placeholder image. */
  method BuildCards(subs: seq<Sub>) returns (cards: seq<Card>)
    ensures |cards| == |subs|
    ensures forall j :: 0 <= j < |subs| ==>
              cards[j].background == "url(" + OrElse(subs[j].hero, CardPlaceholder) + ")" &&
              cards[j].title == subs[j].title && cards[j].description == subs[j].description &&
              cards[j].images == subs[j].images
  {
    cards := [];
    var j := 0;
    while j < |subs|
      invariant 0 <= j <= |subs|
      invariant |cards| == j
      invariant forall t :: 0 <= t < j ==> cards[t] == CardOf(subs[t])
    {
      cards := cards + [CardOf(subs[j])];
      j := j + 1;
    }
  }

  /** The nav and dropdown of the success handler: the 'all' placeholder
      first, then one button and one option per key, in key order, labelled
      with the category's title or else its capitalised key. */
  method BuildNav(data: Catalog) returns (buttons: seq<Button>, options: seq<Choice>)
    ensures |buttons| == |data| && |options| == |data| + 1
    ensures options[0] == Choice(AllValue, AllText)
    ensures forall i :: 0 <= i < |data| ==>
              buttons[i].key == data[i].key &&
              buttons[i].text == Label(data[i].value.Title(), data[i].key) &&
              options[i + 1] == Choice(data[i].key, buttons[i].text)
  {
    buttons, options := [], [Choice(AllValue, AllText)];
    var i := 0;
    while i < |data|
      invariant 0 <= i <= |data|
      invariant |buttons| == i && |options| == i + 1
      invariant options[0] == Choice(AllValue, AllText)
      invariant forall t :: 0 <= t < i ==>
                  buttons[t] == Button(Label(data[t].value.Title(), data[t].key), data[t].key) &&
                  options[t + 1] == Choice(data[t].key, buttons[t].text)
    {
      var text := Label(data[i].value.Title(), data[i].key);
      buttons := buttons + [Button(text, data[i].key)];
      options := options + [Choice(data[i].key, text)];
      i := i + 1;
    }
  }

  /** `removeClass('active')` on every button, then `addClass('active')` on
      every button whose key is the value. */
  method MarkMatching(keys: seq<string>, value: string) returns (flags: seq<bool>)
    ensures |flags| == |keys|
    ensures forall j :: 0 <= j < |keys| ==> (flags[j] <==> keys[j] == value)
  {
    flags := [];
    var j := 0;
    while j < |keys|
      invariant 0 <= j <= |keys|
      invariant |flags| == j
      invariant forall t :: 0 <= t < j ==> (flags[t] <==> keys[t] == value)
    {
      flags := flags + [keys[j] == value];
      j := j + 1;
    }
  }

  /** The page's DOM state and the closure variables `galleryData` and
      `currentCategory`. */
  class Page {
    var data: Catalog
    var buttons: seq<Button>
    var options: seq<Choice>
    var content: Content
    var backShown: bool
    var navShown: bool
    var heading: string
    var docTitle: string
    var current: Option<string>
    var active: seq<bool>
    var selectValue: string
    var pending: seq<Card>

    ghost function State(): View
      reads this
    {
      View(content, backShown, navShown, heading, docTitle, current, active, selectValue, pending)
    }

    ghost predicate Valid()
      reads this
    {
      && |buttons| == |data| && |active| == |data|
      && (forall i :: 0 <= i < |data| ==> buttons[i].key == data[i].key)
    }

    /** The page as served, before `portfolio.json` arrives. */
    constructor (content: Content, backShown: bool, navShown: bool, heading: string, docTitle: string)
      ensures Valid() && data == [] && buttons == [] && options == []
      ensures State() == View(content, backShown, navShown, heading, docTitle, None, [], "", [])
    {
      data, buttons, options := [], [], [];
      this.content, this.backShown, this.navShown := content, backShown, navShown;
      this.heading, this.docTitle := heading, docTitle;
      current, active, selectValue, pending := None, [], "", [];
    }

    method UpdateTitles(title: string)
      modifies this
      ensures State() == Retitle(old(State()), title)
      ensures data == old(data) && buttons == old(buttons) && options == old(options)
    {
      heading := title;
      docTitle := title + TitleSuffix;
    }

    method RenderImageGallery(images: seq<Image>)
      modifies this
      ensures State() == ShowImages(old(State()), images)
      ensures data == old(data) && buttons == old(buttons) && options == old(options)
    {
      backShown := true;
      navShown := false;
      var pictures := BuildPictures(images);
      assert pictures == PicturesOf(images);
      content := Pictures(pictures);
    }

    method RenderSubcategories(subs: seq<Sub>, title: string)
      modifies this
      ensures State() == ShowCards(old(State()), subs, title)
      ensures data == old(data) && buttons == old(buttons) && options == old(options)
    {
      backShown := false;
      navShown := true;
      UpdateTitles(title);
      var cards := BuildCards(subs);
      assert cards == CardsOf(subs);
      content := Cards(cards);
    }

    method RenderCategory(key: string)
      modifies this
      ensures State() == CategoryView(old(State()), data, key)
      ensures data == old(data) && buttons == old(buttons) && options == old(options)
      ensures active == old(active)
    {
      var found := Lookup(data, key);
      if found.None? {
        return;
      }
      current := Some(key);
      var c := found.value;
      if c.List? {
        return;
      }
      var subs := c.subcategories;
      if subs.Some? && |subs.value| > 1 {
        RenderSubcategories(subs.value, Label(c.Title(), key));
      } else if subs.Some? && |subs.value| == 1 {
        UpdateTitles(subs.value[0].title);
        RenderImageGallery(subs.value[0].images);
      } else if c.images.Some? {
        RenderImageGallery(c.images.value);
      }
    }

    /** The success handler of `getJSON('assets/data/portfolio.json')`. */
    method Load(d: Catalog)
      requires data == []
      modifies this
      ensures Valid() && data == d
      ensures State() == Loaded(old(State()), d)
      ensures |options| == |d| + 1 && options[0] == Choice(AllValue, AllText)
      ensures forall i :: 0 <= i < |d| ==>
                buttons[i].text == Label(d[i].value.Title(), d[i].key) &&
                options[i + 1] == Choice(d[i].key, buttons[i].text)
    {
      InstallNav(d);
      if |d| > 0 {
        ghost var v1 := State();
        active, selectValue := OneHot(|d|, 0), d[0].key;
        ghost var pre := State();
        assert pre == v1.(active := OneHot(|d|, 0), selectValue := d[0].key);
        RenderCategory(d[0].key);
        assert State() == CategoryView(pre, d, d[0].key);
      }
    }

    /** The buttons and options built from the data, none of them chosen. */
    method InstallNav(d: Catalog)
      modifies this
      ensures Valid() && data == d
      ensures State() == old(State()).(active := seq(|d|, _ => false), selectValue := AllValue)
      ensures |options| == |d| + 1 && options[0] == Choice(AllValue, AllText)
      ensures forall i :: 0 <= i < |d| ==>
                buttons[i].text == Label(d[i].value.Title(), d[i].key) &&
                options[i + 1] == Choice(d[i].key, buttons[i].text)
    {
      data := d;
      buttons, options := BuildNav(d);
      active, selectValue := seq(|d|, _ => false), AllValue;
    }

    /** The click handler of a card shown in the container. */
    method OpenCard(j: nat)
      requires content.Cards? && j < |content.cards|
      modifies this
      ensures State() == Opened(old(State()), old(content).cards[j])
      ensures data == old(data) && buttons == old(buttons) && options == old(options)
    {
      var card := content.cards[j];
      content := Loading;
      pending := pending + [card];
    }

    /** The oldest 500 ms timer scheduled by a card click fires. */
    method OnTimer()
      modifies this
      ensures State() == TimerFires(old(State()))
      ensures data == old(data) && buttons == old(buttons) && options == old(options)
    {
      if pending == [] {
        return;
      }
      var card := pending[0];
      pending := pending[1..];
      UpdateTitles(card.title);
      RenderImageGallery(card.images);
    }

    method ClickButton(i: nat)
      requires Valid() && i < |buttons|
      modifies this
      ensures Valid() && data == old(data) && buttons == old(buttons) && options == old(options)
      ensures State() == Click(old(State()), data, i)
    {
      var key := buttons[i].key;
      var j := 0;
      while j < |active|
        invariant 0 <= j <= |active| == |data|
        invariant forall t :: 0 <= t < j ==> !active[t]
        invariant Valid() && data == old(data) && buttons == old(buttons) && options == old(options)
        invariant State() == old(State()).(active := active)
      {
        active := active[j := false];
        j := j + 1;
      }
      active := active[i := true];
      assert active == OneHot(|data|, i);
      selectValue := key;
      RenderCategory(key);
    }

    method ChangeSelect(value: string)
      requires Valid()
      modifies this
      ensures Valid() && data == old(data) && buttons == old(buttons) && options == old(options)
      ensures State() == Change(old(State()), data, value)
    {
      var flags := MarkMatching(Keys(data), value);
      MatchingFlags(data, value, flags);
      active, selectValue := flags, value;
      ghost var pre := State();
      assert pre == old(State()).(active := Matching(data, value), selectValue := value);
      RenderCategory(value);
      assert State() == CategoryView(pre, data, value);
    }

    method BackClick()
      modifies this
      ensures data == old(data) && buttons == old(buttons) && options == old(options)
      ensures State() == Back(old(State()), data)
    {
      var key := match current case Some(k) => k case None => "null";
      RenderCategory(key);
    }
  }
}
