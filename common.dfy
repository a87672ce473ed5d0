/** Values as the page scripts see them once a JSON file has been parsed,
    and the few JavaScript string conversions the scripts rely on. */
module Text {

  /** A JSON field that may be absent (`undefined`). */
  datatype Option<+T> = None | Some(value: T)

  /** JavaScript's `s || d` where `s` is a string or `undefined`:
      an absent or empty string is falsy and yields `d`. */
  function OrElse(s: Option<string>, d: string): string
  {
    if s.Some? && s.value != "" then s.value else d
  }

  /** `String(s)`, as done implicitly by `setAttribute` and template
      literals: an absent value is written as the text "undefined". */
  function JsString(s: Option<string>): string
  {
    match s
    case Some(t) => t
    case None => "undefined"
  }

  /** `toUpperCase` of one character, for the ASCII letters. */
  function Upper(c: char): char
  {
    if 'a' <= c <= 'z' then (c as int - 32) as char else c
  }

  /** `key.charAt(0).toUpperCase() + key.slice(1)` */
  function Capitalize(key: string): string
  {
    if key == "" then "" else [Upper(key[0])] + key[1..]
  }

  /** The label of a category button and dropdown option:
      `categoryData.title || key.charAt(0).toUpperCase() + key.slice(1)`. */
  function Label(title: Option<string>, key: string): (r: string)
    ensures title.Some? && title.value != "" ==> r == title.value
    ensures !(title.Some? && title.value != "") ==>
              |r| == |key| && (key != "" ==> r[0] == Upper(key[0]) && r[1..] == key[1..])
  {
    OrElse(title, Capitalize(key))
  }
}

/** The gallery taxonomy read from `images.json` (main.js, mainold.js) and
    `portfolio.json` (gallery.js): an ordered JSON object from category keys
    to categories. */
module Catalog {
  import opened Text

  /** One picture. `width`/`height` are only read by the older script. */
  datatype Image = Image(
    url: string,
    title: Option<string>,
    description: Option<string>,
    width: Option<int>,
    height: Option<int>)

  /** A second-level gallery. `hero` is the `heroImage` field in
      `images.json` and the `hero_image` field in `portfolio.json`. */
  datatype Sub = Sub(
    title: string,
    description: string,
    hero: Option<string>,
    images: seq<Image>)

  /** A category value: a bare array of images, or an object with an
      optional `title`, `images` and `subcategories`. */
  datatype Category =
    | List(items: seq<Image>)
    | Record(title: Option<string>, images: Option<seq<Image>>, subcategories: Option<seq<Sub>>)
  {
    /** `categoryData.title`: an array has no such property. */
    function Title(): Option<string>
    {
      if List? then None else title
    }
  }

  datatype Entry = Entry(key: string, value: Category)

  /** A parsed JSON object, in `Object.keys` order. */
  type Catalog = seq<Entry>

  function Keys(c: Catalog): (ks: seq<string>)
    ensures |ks| == |c| && forall i :: 0 <= i < |c| ==> ks[i] == c[i].key
  {
    if c == [] then [] else [c[0].key] + Keys(c[1..])
  }

  /** The keys of a parsed object are pairwise distinct. */
  ghost predicate DistinctKeys(c: Catalog)
  {
    forall i, j :: 0 <= i < j < |c| ==> c[i].key != c[j].key
  }

  /** `data[key]`, which is `undefined` when the key is absent. */
  function Lookup(c: Catalog, key: string): (r: Option<Category>)
    ensures r.None? <==> forall i :: 0 <= i < |c| ==> c[i].key != key
    ensures r.Some? ==> exists i :: 0 <= i < |c| && c[i] == Entry(key, r.value)
  {
    if c == [] then None
    else if c[0].key == key then Some(c[0].value)
    else Lookup(c[1..], key)
  }

  /** With distinct keys, looking up the i-th key finds the i-th value. */
  lemma {:induction false} LookupAt(c: Catalog, i: nat)
    requires DistinctKeys(c) && i < |c|
    ensures Lookup(c, c[i].key) == Some(c[i].value)
  {
    if i > 0 {
      assert c[0].key != c[i].key;
      assert c[1..][i - 1] == c[i];
      LookupAt(c[1..], i - 1);
    }
  }

  /** Position of the first element equal to `x`, as `querySelector`
      finds the first matching element. */
  function IndexOf(xs: seq<string>, x: string): (r: Option<nat>)
    ensures r.Some? ==> r.value < |xs| && xs[r.value] == x &&
                        forall j :: 0 <= j < r.value ==> xs[j] != x
    ensures r.None? ==> forall j :: 0 <= j < |xs| ==> xs[j] != x
  {
    if xs == [] then None
    else if xs[0] == x then Some(0)
    else match IndexOf(xs[1..], x)
         case None => None
         case Some(k) => Some(k + 1)
  }

  /** Position of the first `true`, as `querySelector('button.active')`. */
  function FirstTrue(flags: seq<bool>): (r: Option<nat>)
    ensures r.Some? ==> r.value < |flags| && flags[r.value] &&
                        forall j :: 0 <= j < r.value ==> !flags[j]
    ensures r.None? ==> forall j :: 0 <= j < |flags| ==> !flags[j]
  {
    if flags == [] then None
    else if flags[0] then Some(0)
    else match FirstTrue(flags[1..])
         case None => None
         case Some(k) => Some(k + 1)
  }

  /** The class list of n sibling elements where only element i has the
      class (i >= n: none has it). */
  function OneHot(n: nat, i: nat): (r: seq<bool>)
    ensures |r| == n
  {
    seq(n, j => j == i)
  }

  /** The flag of the element at Some(i), or no flag at all for None. */
  function Marked(n: nat, at: Option<nat>): (r: seq<bool>)
    ensures |r| == n
  {
    match at
    case None => seq(n, j => false)
    case Some(i) => OneHot(n, i)
  }

  /** With distinct keys, the first element equal to the i-th key is the i-th. */
  lemma DistinctIndexOf(c: Catalog, i: nat)
    requires DistinctKeys(c) && i < |c|
    ensures IndexOf(Keys(c), c[i].key) == Some(i)
  {
  }

  /** When exactly one flag is set, `querySelector` finds that one. */
  lemma FirstTrueOneHot(n: nat, i: nat)
    requires i < n
    ensures FirstTrue(OneHot(n, i)) == Some(i)
  {
    var flags := OneHot(n, i);
    assert flags[i];
    assert forall j :: 0 <= j < n && j != i ==> !flags[j];
  }
}
