/** The one-shot start-up gate of main.js: `initializeMain` is entered from
    the `includesLoaded` event or from a fallback timer set on
    `DOMContentLoaded`, and both entries check `isMainInitialized`. */
module InitGate {

  /** The two ways into `initializeMain`. */
  datatype Trigger = IncludesLoaded | FallbackTimer

  /** `initialized` is `isMainInitialized`; `runs` counts the times the body
      of `initializeMain` has been entered. */
  datatype Gate = Gate(initialized: bool, runs: nat)

  const Start := Gate(false, 0)

  /** Either handler: skip when already initialised, otherwise run the body,
      whose first statement sets the flag. */
  function Fire(g: Gate, t: Trigger): (r: Gate)
    ensures r.initialized
    ensures r.runs == if g.initialized then g.runs else g.runs + 1
  {
    if g.initialized then g else Gate(true, g.runs + 1)
  }

  /** The gate after a sequence of triggers, oldest first. */
  function FireAll(g: Gate, ts: seq<Trigger>): Gate
    decreases |ts|
  {
    if ts == [] then g else FireAll(Fire(g, ts[0]), ts[1..])
  }

  /** The flag and the run count agree: runs is 1 once initialised, else 0. */
  ghost predicate Consistent(g: Gate)
  {
    g.runs == if g.initialized then 1 else 0
  }

  /** Whatever mix of events and timer ticks arrives, in whatever order,
      the body runs exactly once as soon as the first one arrives and never
      again. */
  lemma {:induction false} RunsOnce(g: Gate, ts: seq<Trigger>)
    requires Consistent(g)
    ensures Consistent(FireAll(g, ts))
    ensures FireAll(g, ts) == if ts == [] then g else Gate(true, 1)
    decreases |ts|
  {
    if ts != [] {
      RunsOnce(Fire(g, ts[0]), ts[1..]);
    }
  }

  /** From page load: no trigger, no run; any trigger, exactly one run. */
  lemma AtMostOnceFromStart(ts: seq<Trigger>)
    ensures FireAll(Start, ts).runs <= 1
    ensures FireAll(Start, ts).runs == 1 <==> ts != []
  {
    RunsOnce(Start, ts);
  }

  /** The closure variable `isMainInitialized` and the two listeners that
      guard `initializeMain`. */
  class Page {
    var initialized: bool
    ghost var runs: nat

    ghost function State(): Gate
      reads this
    {
      Gate(initialized, runs)
    }

    constructor ()
      ensures State() == Start
    {
      initialized := false;
      runs := 0;
    }

    /** The body of `initializeMain` as far as the gate is concerned. */
    method InitializeMain()
      modifies this
      ensures initialized && runs == old(runs) + 1
    {
      initialized := true;
      runs := runs + 1;
    }

    /** The `includesLoaded` listener: return when already initialised. */
    method OnIncludesLoaded()
      modifies this
      ensures State() == Fire(old(State()), IncludesLoaded)
    {
      if initialized {
        return;
      }
      InitializeMain();
    }

    /** The callback of the 1000 ms timer set on `DOMContentLoaded`. */
    method OnFallbackTimer()
      modifies this
      ensures State() == Fire(old(State()), FallbackTimer)
    {
      if !initialized {
        InitializeMain();
      }
    }
  }
}
