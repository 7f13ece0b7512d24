/** The chat view's scroll-follow controller: it keeps the message list
    pinned to the newest content while a reply streams in, stops as soon as
    the user scrolls up, and resumes once they scroll back down to the
    bottom themselves.

    The debounced `scrollToBottom` is modelled by the `pending` flag: a
    request sets it, `cancel()` clears it, and the debounced call running
    clears it. Debounce timing is not modelled. */
module ScrollFollow {

  /** Distance from the bottom, in pixels, that still counts as "at the bottom". */
  const BottomThreshold: int := 50

  datatype State = State(
    isUserScrolling: bool,  // the user has scrolled away from the bottom
    lastScrollTop: int,     // scroll offset seen by the previous scroll event
    pending: bool           // an auto-scroll to the bottom has been requested and not yet run or cancelled
  )

  datatype Event =
    | Scroll(scrollTop: int, clientHeight: int, scrollHeight: int)  // the scroll handler runs on the element's metrics
    | ContentArrived    // a streamed fragment was appended (the `onReading` callback)
    | ForcedScroll      // an unconditional `scrollToBottom()`: after the message list loads, and after a turn's message is created
    | AutoScrollRuns    // the debounced scroll-to-bottom executes
    | Teardown          // the view's effects are cleaned up (unmount, or a change of chat)

  /** Refs as the component initialises them. */
  const Initial: State := State(false, 0, false)

  predicate AtBottom(scrollTop: int, clientHeight: int, scrollHeight: int)
  {
    scrollTop + clientHeight >= scrollHeight - BottomThreshold
  }

  /** Whether handling `e` in state `s` calls `scrollToBottom()`. */
  predicate RequestsAutoScroll(s: State, e: Event)
  {
    match e
    case ContentArrived => !s.isUserScrolling
    case ForcedScroll => true
    case _ => false
  }

  /** The scroll handler. An offset that is not strictly greater than the
      previous one counts as scrolling up, the unchanged offset included. */
  function OnScroll(s: State, scrollTop: int, clientHeight: int, scrollHeight: int): (r: State)
    ensures r.lastScrollTop == scrollTop
    ensures scrollTop <= s.lastScrollTop ==> r.isUserScrolling && !r.pending
    ensures scrollTop > s.lastScrollTop ==> r.pending == s.pending
    ensures scrollTop > s.lastScrollTop && AtBottom(scrollTop, clientHeight, scrollHeight) ==> !r.isUserScrolling
    ensures (scrollTop > s.lastScrollTop && !AtBottom(scrollTop, clientHeight, scrollHeight))
              ==> r.isUserScrolling == s.isUserScrolling
  {
    if scrollTop > s.lastScrollTop then
      if AtBottom(scrollTop, clientHeight, scrollHeight) then
        s.(isUserScrolling := false, lastScrollTop := scrollTop)
      else
        s.(lastScrollTop := scrollTop)
    else
      s.(isUserScrolling := true, pending := false, lastScrollTop := scrollTop)
  }

  function Step(s: State, e: Event): (r: State)
    ensures e.ContentArrived? ==> (r.pending <==> s.pending || !s.isUserScrolling)
    ensures e.ContentArrived? || e.ForcedScroll? ==> r.isUserScrolling == s.isUserScrolling && r.lastScrollTop == s.lastScrollTop
    ensures e.Teardown? ==> !r.isUserScrolling && r.lastScrollTop == s.lastScrollTop && r.pending == s.pending
    ensures e.ForcedScroll? ==> r.pending
    ensures e.AutoScrollRuns? ==> !r.pending && r.isUserScrolling == s.isUserScrolling && r.lastScrollTop == s.lastScrollTop
  {
    match e
    case Scroll(top, client, height) => OnScroll(s, top, client, height)
    case ContentArrived => if RequestsAutoScroll(s, e) then s.(pending := true) else s
    case ForcedScroll => s.(pending := true)
    case AutoScrollRuns => s.(pending := false)
    case Teardown => s.(isUserScrolling := false)
  }

  /** The state after handling `es` in order. */
  function Run(s: State, es: seq<Event>): State
    decreases |es|
  {
    if es == [] then s else Run(Step(s, es[0]), es[1..])
  }

  /** The controller's invariant: an auto-scroll is only ever outstanding
      while the user is following the bottom. */
  predicate Inv(s: State)
  {
    s.pending ==> !s.isUserScrolling
  }

  /** Events other than the unconditional `scrollToBottom()` calls. */
  predicate Guarded(e: Event)
  {
    !e.ForcedScroll?
  }

  /** No event asks for an auto-scroll while the user is scrolling, except
      the unconditional calls. */
  lemma NoRequestWhileUserScrolling(s: State, e: Event)
    requires s.isUserScrolling && Guarded(e)
    ensures !RequestsAutoScroll(s, e)
    ensures Step(s, e).pending ==> s.pending
  {
  }

  lemma StepPreservesInv(s: State, e: Event)
    requires Inv(s) && Guarded(e)
    ensures Inv(Step(s, e))
  {
  }

  lemma {:induction false} RunPreservesInv(s: State, es: seq<Event>)
    requires Inv(s)
    requires forall i :: 0 <= i < |es| ==> Guarded(es[i])
    ensures Inv(Run(s, es))
    decreases |es|
  {
    if es != [] {
      StepPreservesInv(s, es[0]);
      RunPreservesInv(Step(s, es[0]), es[1..]);
    }
  }

  /** An unconditional call is the one way to request an auto-scroll while
      the user is scrolling: it breaks the invariant. */
  lemma ForcedScrollBreaksInv(s: State)
    requires s.isUserScrolling
    ensures !Inv(Step(s, ForcedScroll))
  {
  }

  /** `k` content-arrived events in a row. */
  function Arrivals(k: nat): (r: seq<Event>)
    ensures |r| == k
    ensures forall i :: 0 <= i < k ==> r[i] == ContentArrived
  {
    if k == 0 then [] else [ContentArrived] + Arrivals(k - 1)
  }

  /** Suppression: once the user scrolls up (or stays put) from a state that
      keeps the invariant, no amount of streamed content brings back an
      auto-scroll. */
  lemma {:induction false} ScrollUpSuppressesFollow(s: State, top: int, client: int, height: int, k: nat)
    requires top <= s.lastScrollTop
    ensures var r := Run(Step(s, Scroll(top, client, height)), Arrivals(k));
            r.isUserScrolling && !r.pending && r.lastScrollTop == top
  {
    var u := Step(s, Scroll(top, client, height));
    ArrivalsKeepSuppressed(u, k);
  }

  lemma {:induction false} ArrivalsKeepSuppressed(u: State, k: nat)
    requires u.isUserScrolling && !u.pending
    ensures Run(u, Arrivals(k)) == u
  {
    if k > 0 {
      assert Arrivals(k)[1..] == Arrivals(k - 1);
      ArrivalsKeepSuppressed(u, k - 1);
    }
  }

  /** Resumption: a downward scroll that reaches the bottom puts the view
      back in follow mode, and the next fragment requests an auto-scroll. */
  lemma ScrollDownToBottomResumesFollow(s: State, top: int, client: int, height: int)
    requires top > s.lastScrollTop && AtBottom(top, client, height)
    ensures !Step(s, Scroll(top, client, height)).isUserScrolling
    ensures RequestsAutoScroll(Step(s, Scroll(top, client, height)), ContentArrived)
    ensures Step(Step(s, Scroll(top, client, height)), ContentArrived).pending
  {
  }

  /** A downward scroll that stops short of the bottom keeps the user in
      control: streamed content still does not auto-scroll. */
  lemma ScrollDownShortOfBottomStaysSuppressed(s: State, top: int, client: int, height: int)
    requires s.isUserScrolling && !s.pending
    requires top > s.lastScrollTop && !AtBottom(top, client, height)
    ensures Step(Step(s, Scroll(top, client, height)), ContentArrived).pending == false
  {
  }

  /** The one-step converse: the only events that end the user-scrolling
      state are a teardown and a downward scroll that reaches the bottom. */
  lemma StepEndsUserScrollingOnlyAtBottomOrTeardown(s: State, e: Event)
    requires s.isUserScrolling && !Step(s, e).isUserScrolling
    ensures e.Teardown? || (e.Scroll? && e.scrollTop > s.lastScrollTop && AtBottom(e.scrollTop, e.clientHeight, e.scrollHeight))
  {
  }

  /** Without a teardown and without any scroll event at the bottom, in
      whichever direction, the user-scrolling state stays set. */
  lemma {:induction false} UserScrollingPersists(s: State, es: seq<Event>)
    requires s.isUserScrolling
    requires forall i :: 0 <= i < |es| ==> !es[i].Teardown?
    requires forall i :: 0 <= i < |es| ==> es[i].Scroll? ==> !AtBottom(es[i].scrollTop, es[i].clientHeight, es[i].scrollHeight)
    ensures Run(s, es).isUserScrolling
    decreases |es|
  {
    if es != [] {
      UserScrollingPersists(Step(s, es[0]), es[1..]);
    }
  }

  /** The example trace: offsets 100, 80, 60 in a 500-pixel viewport over
      2000 pixels of content, then a fragment arrives; nothing is requested. */
  lemma ExampleScrollUpTrace()
    ensures var es := [Scroll(100, 500, 2000), Scroll(80, 500, 2000), Scroll(60, 500, 2000), ContentArrived];
            !Run(Initial, es).pending && Run(Initial, es).isUserScrolling
  {
    var es := [Scroll(100, 500, 2000), Scroll(80, 500, 2000), Scroll(60, 500, 2000), ContentArrived];
    assert es[1..] == [Scroll(80, 500, 2000), Scroll(60, 500, 2000), ContentArrived];
    assert es[1..][1..] == [Scroll(60, 500, 2000), ContentArrived];
    assert es[1..][1..][1..] == [ContentArrived];
  }
}
