/** Lazy image loading, the same code in main.js and mainold.js: one
    IntersectionObserver watches every `img[data-src]`; when a watched image
    is reported intersecting its `src` becomes its `data-src` and it is no
    longer watched. The images form one fixed list for the whole run: the
    scan can be repeated, but every image it may ever find is in that list
    from the start. */
module LazyLoad {
  import opened Text

  /** One entry of an observer callback: which image, and whether it is
      intersecting. */
  datatype Sighting = Sighting(target: nat, intersecting: bool)

  /** `src[i]` is the current `src` of image i in document order; `watched`
      the images the observer is observing. */
  datatype Lazy = Lazy(src: seq<Option<string>>, watched: set<nat>)

  /** The events: a scan (`querySelectorAll('img[data-src]').forEach(observe)`),
      or one callback with its entries. */
  datatype Event = Scan | Callback(entries: seq<Sighting>)

  /** The images a scan finds: those carrying `data-src`. */
  function Candidates(dataSrc: seq<Option<string>>): (r: set<nat>)
    ensures forall i :: i in r <==> 0 <= i < |dataSrc| && dataSrc[i].Some?
  {
    set i | 0 <= i < |dataSrc| && dataSrc[i].Some?
  }

  /** One callback entry. The observer only reports images it observes. */
  function See(dataSrc: seq<Option<string>>, s: Lazy, e: Sighting): Lazy
  {
    if e.intersecting && e.target in s.watched && e.target < |s.src| && e.target < |dataSrc|
    then Lazy(s.src[e.target := dataSrc[e.target]], s.watched - {e.target})
    else s
  }

  /** `entries.forEach(...)`, in order. */
  function SeeAll(dataSrc: seq<Option<string>>, s: Lazy, es: seq<Sighting>): Lazy
    decreases |es|
  {
    if es == [] then s else See(dataSrc, SeeAll(dataSrc, s, es[..|es| - 1]), es[|es| - 1])
  }

  function Step(dataSrc: seq<Option<string>>, s: Lazy, ev: Event): Lazy
  {
    match ev
    case Scan => s.(watched := s.watched + Candidates(dataSrc))
    case Callback(entries) => SeeAll(dataSrc, s, entries)
  }

  function Run(dataSrc: seq<Option<string>>, s: Lazy, evs: seq<Event>): Lazy
    decreases |evs|
  {
    if evs == [] then s else Run(dataSrc, Step(dataSrc, s, evs[0]), evs[1..])
  }

  /** Every image keeps either the `src` it started with or its own
      `data-src`, and only images with a `data-src` are ever watched. */
  ghost predicate Sane(dataSrc: seq<Option<string>>, init: seq<Option<string>>, s: Lazy)
  {
    |s.src| == |dataSrc| == |init| &&
    (forall t :: t in s.watched ==> t < |dataSrc| && dataSrc[t].Some?) &&
    (forall i :: 0 <= i < |s.src| ==> s.src[i] == init[i] || (dataSrc[i].Some? && s.src[i] == dataSrc[i]))
  }

  /** A watched image that is seen intersecting gets its `data-src` as
      `src` and is unobserved; nothing else changes. */
  lemma LoadsWhenSeen(dataSrc: seq<Option<string>>, init: seq<Option<string>>, s: Lazy, t: nat)
    requires Sane(dataSrc, init, s) && t in s.watched
    ensures See(dataSrc, s, Sighting(t, true)).src[t] == dataSrc[t] && dataSrc[t].Some?
    ensures See(dataSrc, s, Sighting(t, true)).watched == s.watched - {t}
    ensures forall i :: 0 <= i < |s.src| && i != t ==> See(dataSrc, s, Sighting(t, true)).src[i] == s.src[i]
  {
  }

  /** Loading is one-shot: once an image has been seen intersecting, any
      later report about it changes nothing. */
  lemma OneShot(dataSrc: seq<Option<string>>, s: Lazy, t: nat, intersecting: bool)
    ensures See(dataSrc, See(dataSrc, s, Sighting(t, true)), Sighting(t, intersecting)) ==
              See(dataSrc, s, Sighting(t, true))
  {
  }

  /** A report that the image is not intersecting changes nothing. */
  lemma NotIntersectingIgnored(dataSrc: seq<Option<string>>, s: Lazy, t: nat)
    ensures See(dataSrc, s, Sighting(t, false)) == s
  {
  }

  /** Scanning again watches exactly the images with a `data-src`, and a
      second scan adds nothing. */
  lemma ScanIdempotent(dataSrc: seq<Option<string>>, s: Lazy)
    ensures Step(dataSrc, Step(dataSrc, s, Scan), Scan) == Step(dataSrc, s, Scan)
    ensures Candidates(dataSrc) <= Step(dataSrc, s, Scan).watched
  {
  }

  lemma {:induction false} SeeAllSane(dataSrc: seq<Option<string>>, init: seq<Option<string>>, s: Lazy, es: seq<Sighting>)
    requires Sane(dataSrc, init, s)
    ensures Sane(dataSrc, init, SeeAll(dataSrc, s, es))
    decreases |es|
  {
    if es != [] {
      SeeAllSane(dataSrc, init, s, es[..|es| - 1]);
    }
  }

  /** Any sequence of scans and callbacks keeps every image at its original
      `src` or its own `data-src`. */
  lemma {:induction false} StaysSane(dataSrc: seq<Option<string>>, init: seq<Option<string>>, s: Lazy, evs: seq<Event>)
    requires Sane(dataSrc, init, s)
    ensures Sane(dataSrc, init, Run(dataSrc, s, evs))
    decreases |evs|
  {
    if evs != [] {
      if evs[0].Callback? {
        SeeAllSane(dataSrc, init, s, evs[0].entries);
      }
      StaysSane(dataSrc, init, Step(dataSrc, s, evs[0]), evs[1..]);
    }
  }

  lemma {:induction false} SeeAllKeepsLoaded(dataSrc: seq<Option<string>>, s: Lazy, es: seq<Sighting>, t: nat)
    requires t < |s.src| == |dataSrc| && s.src[t] == dataSrc[t]
    ensures |SeeAll(dataSrc, s, es).src| == |dataSrc|
    ensures SeeAll(dataSrc, s, es).src[t] == dataSrc[t]
    decreases |es|
  {
    if es != [] {
      SeeAllKeepsLoaded(dataSrc, s, es[..|es| - 1], t);
    }
  }

  /** Once an image shows its `data-src` it keeps it, even when a later
      scan of the same image list observes it again and it is reported once
      more. */
  lemma {:induction false} LoadedStaysLoaded(dataSrc: seq<Option<string>>, s: Lazy, evs: seq<Event>, t: nat)
    requires t < |s.src| == |dataSrc| && s.src[t] == dataSrc[t]
    ensures |Run(dataSrc, s, evs).src| == |dataSrc|
    ensures Run(dataSrc, s, evs).src[t] == dataSrc[t]
    decreases |evs|
  {
    if evs != [] {
      if evs[0].Callback? {
        SeeAllKeepsLoaded(dataSrc, s, evs[0].entries, t);
      }
      LoadedStaysLoaded(dataSrc, Step(dataSrc, s, evs[0]), evs[1..], t);
    }
  }

  /** The document's images and the observer. */
  class Observer {
    const dataSrc: seq<Option<string>>
    var src: seq<Option<string>>
    var watched: set<nat>

    function State(): Lazy
      reads this
    {
      Lazy(src, watched)
    }

    /** `new IntersectionObserver(...)`: nothing is observed yet. */
    constructor (dataSrc: seq<Option<string>>, src: seq<Option<string>>)
      requires |src| == |dataSrc|
      ensures this.dataSrc == dataSrc && State() == Lazy(src, {})
    {
      this.dataSrc := dataSrc;
      this.src := src;
      watched := {};
    }

    /** `lazyLoadImages`: observe every image that has a `data-src`. */
    method LazyLoadImages()
      modifies this
      ensures State() == Step(dataSrc, old(State()), Scan)
    {
      var i := 0;
      while i < |dataSrc|
        invariant 0 <= i <= |dataSrc|
        invariant src == old(src)
        invariant watched == old(watched) + set j | 0 <= j < i && dataSrc[j].Some?
      {
        if dataSrc[i].Some? {
          watched := watched + {i};
        }
        i := i + 1;
      }
    }

    /** The observer callback. */
    method OnEntries(entries: seq<Sighting>)
      modifies this
      ensures State() == Step(dataSrc, old(State()), Callback(entries))
    {
      var k := 0;
      while k < |entries|
        invariant 0 <= k <= |entries|
        invariant State() == SeeAll(dataSrc, old(State()), entries[..k])
      {
        assert entries[..k + 1][..k] == entries[..k];
        var e := entries[k];
        if e.intersecting && e.target in watched && e.target < |src| && e.target < |dataSrc| {
          src := src[e.target := dataSrc[e.target]];
          watched := watched - {e.target};
        }
        k := k + 1;
      }
      assert entries[..|entries|] == entries;
    }
  }
}
