/** The category gallery of main.js: the buttons and dropdown built from
    `images.json`, the container that `renderGallery` and `renderSubGallery`
    fill, the back button, and the handlers that keep the active button and
    the dropdown in step. */
module MainGallery {
  import opened Text
  import opened Catalog

  /** The 1x1 transparent GIF every grid image shows until lazy loading
      swaps in its `data-src`. */
  const Placeholder := "data:image/gif;base64,R0lGODlhAQABAAAAACH5BAEKAAEALAAAAAABAAEAAAICTAEAOw=="

  /** The lightbox group of a subcategory's images. */
  const SubGroup := "sub-gallery"

  /** `<a href data-lightbox data-title><img src data-src alt></a>` */
  datatype Thumb = Thumb(
    href: string,
    lightbox: string,
    dataTitle: string,
    src: string,
    dataSrc: string,
    alt: string)

  /** A `.sub-gallery-card`: its background style, heading and text, and the
      images its click handler renders. */
  datatype Card = Card(background: string, title: string, description: string, images: seq<Image>)

  /** The children of `.portfolio-content`: nothing, one `.gallery-grid`,
      or one `.sub-gallery-grid`. */
  datatype Content = Blank | Grid(thumbs: seq<Thumb>) | Cards(cards: seq<Card>)

  /** A category button (text, `data-category`) and a dropdown option
      (value, text). */
  datatype Button = Button(text: string, key: string)
  datatype Choice = Choice(value: string, text: string)

  /** What the handlers change: the container, whether the back button is
      displayed, the `active` class of each button, the dropdown's value and
      the `selected` attribute of each option. */
  datatype View = View(
    content: Content,
    backShown: bool,
    active: seq<bool>,
    selectValue: string,
    selected: seq<bool>)

  function ThumbOf(image: Image, group: string): Thumb
  {
    Thumb(image.url, group, JsString(image.description), Placeholder, image.url, OrElse(image.title, ""))
  }

  function Thumbs(images: seq<Image>, group: string): (r: seq<Thumb>)
    ensures |r| == |images|
  {
    seq(|images|, i requires 0 <= i < |images| => ThumbOf(images[i], group))
  }

  function CardOf(sub: Sub): Card
  {
    Card("url(" + JsString(sub.hero) + ")", sub.title, sub.description, sub.images)
  }

  function CardsOf(subs: seq<Sub>): (r: seq<Card>)
    ensures |r| == |subs|
  {
    seq(|subs|, i requires 0 <= i < |subs| => CardOf(subs[i]))
  }

  /** The container after `renderGallery(key)`: nothing for an absent key,
      a grid grouped under the key for an array, cards for an object with
      `subcategories` (an empty array is still truthy), else nothing. */
  function GalleryContent(data: Catalog, key: string): Content
  {
    match Lookup(data, key)
    case None => Blank
    case Some(c) =>
      match c
      case List(images) => Grid(Thumbs(images, key))
      case Record(_, _, subs) => if subs.Some? then Cards(CardsOf(subs.value)) else Blank
  }

  /** `renderGallery(key)`: clear, hide back, render. */
  function Render(v: View, data: Catalog, key: string): View
  {
    v.(content := GalleryContent(data, key), backShown := false)
  }

  /** `renderSubGallery(images)`, the click handler of a card. */
  function ShowSub(v: View, images: seq<Image>): View
  {
    v.(content := Grid(Thumbs(images, SubGroup)), backShown := true)
  }

  /** The click handler of the i-th button: only it is active, the category
      is rendered, the dropdown takes its key and the first option with that
      value is the selected one. */
  function Click(v: View, data: Catalog, i: nat): View
    requires i < |data|
  {
    var key := data[i].key;
    Render(v.(active := OneHot(|data|, i)), data, key)
      .(selectValue := key, selected := Marked(|data|, IndexOf(Keys(data), key)))
  }

  /** The dropdown's change handler for a chosen value: the first button
      whose `data-category` matches becomes the only active one. */
  function Change(v: View, data: Catalog, value: string): View
  {
    var at := IndexOf(Keys(data), value);
    Render(v.(active := Marked(|data|, at)), data, value)
      .(selectValue := value, selected := Marked(|data|, at))
  }

  /** The back button: re-render the category of the first active button;
      with no active button the handler throws and nothing changes. */
  function Back(v: View, data: Catalog): View
    requires |v.active| == |data|
  {
    match FirstTrue(v.active)
    case None => v
    case Some(i) => Render(v, data, data[i].key)
  }

  /** The end of the fetch handler: the first button and option are marked,
      the dropdown takes the first key and that category is rendered. With
      no key at all, `renderGallery(undefined)` looks up "undefined". */
  function Loaded(v: View, data: Catalog): View
  {
    var n := |data|;
    if n == 0 then Render(v.(active := [], selected := []), data, "undefined")
    else Render(v.(active := OneHot(n, 0), selectValue := data[0].key, selected := OneHot(n, 0)), data, data[0].key)
  }

  /** A button click leaves exactly the chosen button active, the dropdown on
      that category with exactly its option selected, the back button hidden,
      and the chosen category rendered. */
  lemma ClickSyncs(v: View, data: Catalog, i: nat)
    requires DistinctKeys(data) && i < |data|
    ensures Click(v, data, i).active == OneHot(|data|, i)
    ensures Click(v, data, i).selected == OneHot(|data|, i)
    ensures Click(v, data, i).selectValue == data[i].key
    ensures Click(v, data, i).content == GalleryContent(data, data[i].key)
    ensures !Click(v, data, i).backShown
  {
    DistinctIndexOf(data, i);
  }

  /** Choosing a category in the dropdown ends in exactly the same view as
      clicking its button. */
  lemma ChangeIsClick(v: View, data: Catalog, i: nat)
    requires DistinctKeys(data) && i < |data|
    ensures Change(v, data, data[i].key) == Click(v, data, i)
  {
    DistinctIndexOf(data, i);
  }

  /** After a category has been chosen and one of its cards opened, the
      back button renders that category again, hiding the back button. */
  lemma BackReturns(v: View, data: Catalog, i: nat, images: seq<Image>)
    requires i < |data| && v.active == OneHot(|data|, i)
    ensures Back(ShowSub(v, images), data) == Render(v, data, data[i].key)
  {
    FirstTrueOneHot(|data|, i);
  }

  /** Clicking a button, opening any card and pressing back ends in exactly
      the view the click produced. */
  lemma ClickOpenBack(v: View, data: Catalog, i: nat, images: seq<Image>)
    requires i < |data|
    ensures Back(ShowSub(Click(v, data, i), images), data) == Click(v, data, i)
  {
    BackReturns(Click(v, data, i), data, i, images);
  }

  /** On load the first category is selected everywhere and rendered. */
  lemma LoadSelectsFirst(v: View, data: Catalog)
    requires data != []
    ensures Loaded(v, data) == Click(v, data, 0)
  {
    assert IndexOf(Keys(data), data[0].key) == Some(0);
  }

  /** What `renderGallery` puts in the container, case by case: nothing for
      an absent key; one anchor per image, in order, grouped under the key
      for an array; one card per subcategory, in order, for an object with
      `subcategories`; nothing for an object without. */
  lemma RenderCases(data: Catalog, key: string)
    ensures Lookup(data, key).None? ==> GalleryContent(data, key) == Blank
    ensures Lookup(data, key).Some? && Lookup(data, key).value.List? ==>
              var images := Lookup(data, key).value.items;
              GalleryContent(data, key).Grid? &&
              |GalleryContent(data, key).thumbs| == |images| &&
              forall j :: 0 <= j < |images| ==>
                GalleryContent(data, key).thumbs[j].href == images[j].url &&
                GalleryContent(data, key).thumbs[j].dataSrc == images[j].url &&
                GalleryContent(data, key).thumbs[j].lightbox == key
    ensures Lookup(data, key).Some? && Lookup(data, key).value.Record? ==>
              var subs := Lookup(data, key).value.subcategories;
              (subs.None? ==> GalleryContent(data, key) == Blank) &&
              (subs.Some? ==> GalleryContent(data, key).Cards? &&
                              |GalleryContent(data, key).cards| == |subs.value| &&
                              forall j :: 0 <= j < |subs.value| ==>
                                GalleryContent(data, key).cards[j].images == subs.value[j].images)
  {
  }

  /** The `images.forEach` of `renderGallery` and `renderSubGallery`: one
      anchor per image, in order, all in the given lightbox group. */
  method BuildThumbs(images: seq<Image>, group: string) returns (thumbs: seq<Thumb>)
    ensures |thumbs| == |images|
    ensures forall j :: 0 <= j < |images| ==>
              thumbs[j].href == images[j].url && thumbs[j].lightbox == group &&
              thumbs[j].dataTitle == JsString(images[j].description) &&
              thumbs[j].src == Placeholder && thumbs[j].dataSrc == images[j].url &&
              thumbs[j].alt == OrElse(images[j].title, "")
  {
    thumbs := [];
    var j := 0;
    while j < |images|
      invariant 0 <= j <= |images|
      invariant |thumbs| == j
      invariant forall t :: 0 <= t < j ==> thumbs[t] == ThumbOf(images[t], group)
    {
      thumbs := thumbs + [ThumbOf(images[j], group)];
      j := j + 1;
    }
  }

  /** The `subcategories.forEach` of `renderGallery`: one card per
      subcategory, in order, carrying that subcategory's images. */
  method BuildCards(subs: seq<Sub>) returns (cards: seq<Card>)
    ensures |cards| == |subs|
    ensures forall j :: 0 <= j < |subs| ==>
              cards[j].background == "url(" + JsString(subs[j].hero) + ")" &&
              cards[j].title == subs[j].title && cards[j].description == subs[j].description &&
              cards[j].images == subs[j].images
  {
    cards := [];
    var j := 0;
    while j < |subs|
      invariant 0 <= j <= |subs|
      invariant |cards| == j
      invariant forall t :: 0 <= t < j ==> cards[t] == CardOf(subs[t])
    {
      cards := cards + [CardOf(subs[j])];
      j := j + 1;
    }
  }

  /** The `categories.forEach` of the fetch handler: one button and one
      option per key, in key order, both labelled with the category's
      `title` or else its capitalised key. */
  method BuildControls(data: Catalog) returns (buttons: seq<Button>, options: seq<Choice>)
    ensures |buttons| == |data| && |options| == |data|
    ensures forall i :: 0 <= i < |data| ==>
              buttons[i].key == data[i].key && options[i].value == data[i].key &&
              buttons[i].text == Label(data[i].value.Title(), data[i].key) &&
              options[i].text == buttons[i].text
  {
    buttons, options := [], [];
    var i := 0;
    while i < |data|
      invariant 0 <= i <= |data|
      invariant |buttons| == i && |options| == i
      invariant forall t :: 0 <= t < i ==>
                  buttons[t] == Button(Label(data[t].value.Title(), data[t].key), data[t].key) &&
                  options[t] == Choice(data[t].key, buttons[t].text)
    {
      var text := Label(data[i].value.Title(), data[i].key);
      buttons := buttons + [Button(text, data[i].key)];
      options := options + [Choice(data[i].key, text)];
      i := i + 1;
    }
  }

  /** A run of `classList.remove` / `removeAttribute` over every element. */
  method ClearAll(flags: seq<bool>) returns (r: seq<bool>)
    ensures |r| == |flags| && forall j :: 0 <= j < |r| ==> !r[j]
  {
    r := flags;
    var j := 0;
    while j < |r|
      invariant 0 <= j <= |r| == |flags|
      invariant forall t :: 0 <= t < j ==> !r[t]
    {
      r := r[j := false];
      j := j + 1;
    }
  }

  /** The gallery's DOM state and `galleryData`. */
  class Page {
    var data: Catalog
    var buttons: seq<Button>
    var options: seq<Choice>
    var content: Content
    var backShown: bool
    var active: seq<bool>
    var selectValue: string
    var selected: seq<bool>

    ghost function State(): View
      reads this
    {
      View(content, backShown, active, selectValue, selected)
    }

    /** The buttons and options mirror the keys, one flag per element. */
    ghost predicate Valid()
      reads this
    {
      && DistinctKeys(data)
      && |buttons| == |data| && |options| == |data|
      && |active| == |data| && |selected| == |data|
      && (forall i :: 0 <= i < |data| ==> buttons[i].key == data[i].key)
      && (forall i :: 0 <= i < |data| ==> options[i].value == data[i].key)
    }

    /** Before `images.json` arrives: the nav list and the dropdown have
        been emptied; the container and back button are as the page has
        them. */
    constructor (content: Content, backShown: bool)
      ensures Valid() && data == [] && State() == View(content, backShown, [], "", [])
    {
      data, buttons, options := [], [], [];
      this.content, this.backShown := content, backShown;
      active, selectValue, selected := [], "", [];
    }

    method RenderGallery(key: string)
      modifies this
      ensures State() == Render(old(State()), data, key)
      ensures data == old(data) && buttons == old(buttons) && options == old(options)
    {
      backShown := false;
      match Lookup(data, key)
      case None =>
        content := Blank;
      case Some(c) =>
        match c
        case List(images) =>
          var thumbs := BuildThumbs(images, key);
          assert thumbs == Thumbs(images, key);
          content := Grid(thumbs);
        case Record(_, _, subs) =>
          if subs.Some? {
            var cards := BuildCards(subs.value);
            assert cards == CardsOf(subs.value);
            content := Cards(cards);
          } else {
            content := Blank;
          }
    }

    method RenderSubGallery(images: seq<Image>)
      modifies this
      ensures State() == ShowSub(old(State()), images)
      ensures data == old(data) && buttons == old(buttons) && options == old(options)
    {
      backShown := true;
      var thumbs := BuildThumbs(images, SubGroup);
      assert thumbs == Thumbs(images, SubGroup);
      content := Grid(thumbs);
    }

    /** The fetch handler for `images.json`. */
    method Load(d: Catalog)
      requires DistinctKeys(d) && data == [] && active == [] && selected == []
      modifies this
      ensures Valid() && data == d
      ensures State() == Loaded(old(State()), d)
      ensures forall i :: 0 <= i < |d| ==> buttons[i].text == Label(d[i].value.Title(), d[i].key)
      ensures forall i :: 0 <= i < |d| ==> options[i].text == buttons[i].text
    {
      data := d;
      buttons, options := BuildControls(d);
      active := seq(|d|, _ => false);
      selected := seq(|d|, _ => false);
      if |d| == 0 {
        RenderGallery("undefined");
        return;
      }
      active := active[0 := true];
      selectValue := d[0].key;
      selected := selected[0 := true];
      assert active == OneHot(|d|, 0) && selected == OneHot(|d|, 0);
      RenderGallery(d[0].key);
    }

    /** The click handler of a card in the container. */
    method OpenCard(j: nat)
      requires content.Cards? && j < |content.cards|
      modifies this
      ensures State() == ShowSub(old(State()), old(content).cards[j].images)
      ensures data == old(data) && buttons == old(buttons) && options == old(options)
    {
      RenderSubGallery(content.cards[j].images);
    }

    /** The click handler of button i. */
    method ClickButton(i: nat)
      requires Valid() && i < |buttons|
      modifies this
      ensures Valid() && data == old(data) && buttons == old(buttons) && options == old(options)
      ensures State() == Click(old(State()), data, i)
    {
      var key := buttons[i].key;
      active := ClearAll(active);
      active := active[i := true];
      assert active == OneHot(|data|, i);
      RenderGallery(key);
      selectValue := key;
      selected := ClearAll(selected);
      SelectOption(key);
    }

    /** `querySelector('option[value=key]').setAttribute('selected')` on
        the first option holding the key. */
    method SelectOption(key: string)
      requires Valid() && forall j :: 0 <= j < |selected| ==> !selected[j]
      modifies this
      ensures Valid() && data == old(data) && buttons == old(buttons) && options == old(options)
      ensures content == old(content) && backShown == old(backShown)
      ensures active == old(active) && selectValue == old(selectValue)
      ensures selected == Marked(|data|, IndexOf(Keys(data), key))
    {
      var at := IndexOf(Keys(data), key);
      if at.Some? {
        selected := selected[at.value := true];
      }
      assert selected == Marked(|data|, at);
    }

    /** The dropdown's change handler; the user picked one of the options. */
    method ChangeSelect(value: string)
      requires Valid()
      modifies this
      ensures Valid() && data == old(data) && buttons == old(buttons) && options == old(options)
      ensures State() == Change(old(State()), data, value)
    {
      active := ClearAll(active);
      var at := IndexOf(Keys(data), value);
      if at.Some? {
        active := active[at.value := true];
      }
      assert active == Marked(|data|, at);
      RenderGallery(value);
      selectValue := value;
      selected := ClearAll(selected);
      SelectOption(value);
    }

    /** The back button's click handler. */
    method BackClick()
      requires Valid()
      modifies this
      ensures Valid() && data == old(data) && buttons == old(buttons) && options == old(options)
      ensures State() == Back(old(State()), data)
    {
      var at := FirstTrue(active);
      if at.None? {
        return;
      }
      RenderGallery(buttons[at.value].key);
    }
  }
}
