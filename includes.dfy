/** The partial loader of includes.js: every `[data-include]` element is
    loaded from its own path, every completion (success or error) bumps one
    counter, and `includesLoaded` is triggered when the counter reaches the
    number of elements, or at once when there are none. */
module Includes {

  /** The `status` a completion callback receives. */
  datatype Status = Success | Error

  /** One `element.load(file, ...)` call: the element's position in
      document order and the path from its `data-include` attribute. */
  datatype Request = Request(element: nat, path: string)

  /** `totalIncludes`, the `includesLoaded` counter, and how many times the
      `includesLoaded` event has been triggered. */
  datatype Loader = Loader(total: nat, completed: nat, fired: nat)

  /** The synchronous part of `loadIncludes`. */
  function Start(total: nat): Loader
  {
    Loader(total, 0, if total == 0 then 1 else 0)
  }

  /** One completion callback; its status only decides what is logged. */
  function Complete(s: Loader, status: Status): Loader
  {
    var c := s.completed + 1;
    Loader(s.total, c, s.fired + if c == s.total then 1 else 0)
  }

  function CompleteAll(s: Loader, statuses: seq<Status>): Loader
    decreases |statuses|
  {
    if statuses == [] then s else CompleteAll(Complete(s, statuses[0]), statuses[1..])
  }

  /** With at least one element, after k completions in any order and with
      any mix of successes and errors (one callback per element, so
      k <= total): the counter is k, the counter never passes the total,
      and the event has fired once if k is the total and not at all
      before. */
  lemma {:induction false} CountsCompletions(total: nat, statuses: seq<Status>)
    requires 0 < total && |statuses| <= total
    ensures CompleteAll(Start(total), statuses) ==
              Loader(total, |statuses|, if |statuses| == total then 1 else 0)
  {
    if statuses != [] {
      var k := |statuses| - 1;
      CountsCompletions(total, statuses[..k]);
      CompleteAllSnoc(Start(total), statuses[..k], statuses[k]);
      assert statuses[..k] + [statuses[k]] == statuses;
    }
  }

  lemma {:induction false} CompleteAllSnoc(s: Loader, statuses: seq<Status>, last: Status)
    ensures CompleteAll(s, statuses + [last]) == Complete(CompleteAll(s, statuses), last)
    decreases |statuses|
  {
    if statuses != [] {
      assert (statuses + [last])[1..] == statuses[1..] + [last];
      CompleteAllSnoc(Complete(s, statuses[0]), statuses[1..], last);
    }
  }

  /** With no elements the event fires immediately, exactly once, and
      nothing is loaded. */
  lemma NoIncludes()
    ensures Start(0) == Loader(0, 0, 1)
  {
  }

  /** Each completion, whether the load succeeded or failed, raises the
      counter by exactly one and fires the event exactly when the counter
      becomes the total; the status makes no difference. */
  lemma CompletionCounts(s: Loader, status: Status)
    ensures Complete(s, status).completed == s.completed + 1
    ensures Complete(s, status).fired - s.fired == if s.completed + 1 == s.total then 1 else 0
    ensures Complete(s, Success) == Complete(s, Error)
  {
  }

  /** The `includeElements.each` loop: one load per element, in document
      order, each from that element's own path. */
  method IssueLoads(paths: seq<string>) returns (requests: seq<Request>)
    ensures |requests| == |paths|
    ensures forall i :: 0 <= i < |paths| ==> requests[i] == Request(i, paths[i])
  {
    requests := [];
    var i := 0;
    while i < |paths|
      invariant 0 <= i <= |paths|
      invariant |requests| == i
      invariant forall j :: 0 <= j < i ==> requests[j] == Request(j, paths[j])
    {
      requests := requests + [Request(i, paths[i])];
      i := i + 1;
    }
  }

  /** The document's `[data-include]` elements and the loader's closure
      state. */
  class IncludeLoader {
    const paths: seq<string>
    var requests: seq<Request>
    var completed: nat
    var fired: nat

    ghost function State(): Loader
      reads this
    {
      Loader(|paths|, completed, fired)
    }

    constructor (paths: seq<string>)
      ensures this.paths == paths && requests == [] && completed == 0 && fired == 0
    {
      this.paths := paths;
      requests := [];
      completed := 0;
      fired := 0;
    }

    /** `loadIncludes`, run once on document ready. */
    method LoadIncludes()
      requires requests == [] && completed == 0 && fired == 0
      modifies this
      ensures State() == Start(|paths|)
      ensures |requests| == |paths|
      ensures forall i :: 0 <= i < |paths| ==> requests[i] == Request(i, paths[i])
    {
      if |paths| == 0 {
        fired := fired + 1;
        return;
      }
      requests := IssueLoads(paths);
    }

    /** The completion callback of one `element.load`. */
    method OnComplete(status: Status)
      modifies this
      ensures State() == Complete(old(State()), status)
      ensures requests == old(requests)
    {
      completed := completed + 1;
      if completed == |paths| {
        fired := fired + 1;
      }
    }
  }
}
