/** The hero slider of main.js: the slides built from `hero-carousel.json`,
    the `active` class that marks the visible slide, and the index that the
    interval timer and a click on the slider advance. */
module HeroCarousel {
  import opened Text

  /** One entry of `hero-carousel.json`. */
  datatype HeroImage = HeroImage(url: string, alt: Option<string>)

  /** The `<img>` built for an entry: `data-src` and `alt`. */
  datatype Slide = Slide(dataSrc: string, alt: string)

  /** `currentHeroIndex`: a slide position, or NaN once `% 0` has been taken
      on an empty slide list (NaN then stays NaN). */
  datatype Index = At(i: nat) | NaN

  function SlideOf(image: HeroImage): Slide
  {
    Slide(image.url, OrElse(image.alt, ""))
  }

  /** `(currentHeroIndex + 1) % heroImages.length` */
  function Next(index: Index, n: nat): (r: Index)
    ensures n == 0 ==> r == NaN
    ensures index.At? && index.i < n ==> r.At? && r.i < n
    ensures index.At? && index.i + 1 < n ==> r == At(index.i + 1)
    ensures index.At? && index.i + 1 == n ==> r == At(0)
  {
    match index
    case NaN => NaN
    case At(i) => if n == 0 then NaN else At((i + 1) % n)
  }

  /** The index after k advances. */
  function Advance(index: Index, n: nat, k: nat): Index
  {
    if k == 0 then index else Next(Advance(index, n, k - 1), n)
  }

  /** The `active` class of each slide after `showHeroSlide(index)`:
      `i === index` holds for no i when the index is NaN. */
  function Flags(n: nat, index: Index): (r: seq<bool>)
    ensures |r| == n
  {
    seq(n, j requires 0 <= j < n => index == At(j))
  }

  /** The number of active slides. */
  function CountActive(flags: seq<bool>): nat
  {
    if flags == [] then 0 else (if flags[0] then 1 else 0) + CountActive(flags[1..])
  }

  /** Within one round, k advances from slide i land on slide i + k,
      wrapping past the last slide to the first. */
  lemma {:induction false} AdvanceFrom(i: nat, n: nat, k: nat)
    requires i < n && k <= n
    ensures Advance(At(i), n, k) == At(if i + k < n then i + k else i + k - n)
  {
    if k > 0 {
      AdvanceFrom(i, n, k - 1);
    }
  }

  /** However often it advances, the index stays a slide position. */
  lemma {:induction false} StaysInRange(i: nat, n: nat, k: nat)
    requires i < n
    ensures Advance(At(i), n, k).At? && Advance(At(i), n, k).i < n
  {
    if k > 0 {
      StaysInRange(i, n, k - 1);
    }
  }

  /** After n advances the carousel is back where it started. */
  lemma Cycle(i: nat, n: nat)
    requires i < n
    ensures Advance(At(i), n, n) == At(i)
  {
    AdvanceFrom(i, n, n);
  }

  /** Every slide is shown within n advances, whatever the start. */
  lemma VisitsAll(i: nat, n: nat, j: nat)
    requires i < n && j < n
    ensures exists k: nat :: k < n && Advance(At(i), n, k) == At(j)
  {
    var k := if i <= j then j - i else j + n - i;
    AdvanceFrom(i, n, k);
  }

  lemma {:induction false} NoneActive(flags: seq<bool>)
    requires forall j :: 0 <= j < |flags| ==> !flags[j]
    ensures CountActive(flags) == 0
  {
    if flags != [] {
      NoneActive(flags[1..]);
    }
  }

  lemma {:induction false} OneActive(flags: seq<bool>, k: nat)
    requires k < |flags|
    requires forall j :: 0 <= j < |flags| ==> flags[j] == (j == k)
    ensures CountActive(flags) == 1
  {
    if k == 0 {
      NoneActive(flags[1..]);
    } else {
      OneActive(flags[1..], k - 1);
    }
  }

  /** `showHeroSlide(k)` leaves exactly one slide active, slide k; with a
      NaN index, none. */
  lemma ExactlyOneActive(n: nat, index: Index)
    ensures index.At? && index.i < n ==> CountActive(Flags(n, index)) == 1 && Flags(n, index)[index.i]
    ensures index == NaN ==> CountActive(Flags(n, index)) == 0
  {
    if index.At? && index.i < n {
      OneActive(Flags(n, index), index.i);
    } else if index == NaN {
      NoneActive(Flags(n, index));
    }
  }

  /** Builds the slides in JSON order (the `images.forEach` of the fetch
      handler). */
  method BuildSlides(images: seq<HeroImage>) returns (slides: seq<Slide>)
    ensures |slides| == |images|
    ensures forall i :: 0 <= i < |images| ==>
              slides[i].dataSrc == images[i].url &&
              slides[i].alt == OrElse(images[i].alt, "")
  {
    slides := [];
    var i := 0;
    while i < |images|
      invariant 0 <= i <= |images|
      invariant |slides| == i
      invariant forall j :: 0 <= j < i ==> slides[j] == SlideOf(images[j])
    {
      slides := slides + [SlideOf(images[i])];
      i := i + 1;
    }
  }

  /** The closure state of the slider: `heroImages`, the `active` class of
      each of them, and `currentHeroIndex`. */
  class Slider {
    var slides: seq<Slide>
    var active: array<bool>
    var index: Index

    ghost predicate Valid()
      reads this
    {
      active.Length == |slides|
    }

    constructor ()
      ensures Valid() && slides == [] && index == At(0)
    {
      slides := [];
      active := new bool[0];
      index := At(0);
    }

    /** The fetch handler: rebuild the slides in JSON order; only the first
        one gets the `active` class. `currentHeroIndex` is left as it is. */
    method Load(images: seq<HeroImage>)
      modifies this
      ensures Valid() && fresh(active)
      ensures |slides| == |images|
      ensures forall i :: 0 <= i < |images| ==> slides[i] == SlideOf(images[i])
      ensures active[..] == Flags(|images|, At(0))
      ensures index == old(index)
    {
      slides := BuildSlides(images);
      active := new bool[|images|](j => j == 0);
      assert active[..] == Flags(|images|, At(0));
    }

    /** `showHeroSlide(k)`: toggle `active` on each slide to `i === k`. */
    method ShowSlide(k: Index)
      requires Valid()
      modifies active
      ensures Valid()
      ensures active[..] == Flags(|slides|, k)
    {
      var i := 0;
      while i < active.Length
        invariant 0 <= i <= active.Length
        invariant forall j :: 0 <= j < i ==> active[j] == (k == At(j))
      {
        active[i] := k == At(i);
        i := i + 1;
      }
      assert active[..] == Flags(|slides|, k);
    }

    /** `nextHeroSlide`, run by the 1500 ms interval and by a click on the
        slider. */
    method NextSlide()
      requires Valid()
      modifies this, active
      ensures Valid() && active == old(active) && slides == old(slides)
      ensures index == Next(old(index), |slides|)
      ensures active[..] == Flags(|slides|, index)
    {
      index := Next(index, |slides|);
      ShowSlide(index);
    }
  }
}
