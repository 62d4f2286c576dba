/** The card slider controller of scripts/slider.js: one integer `current` over the card
    list, a dot list built 1:1 with the cards, the prev/next disabled flags, and the
    smooth-scroll commands that centre the active card. DOM measurements and media-query
    results are passed in as a `Viewport`. */
module Slider {
  import opened Common

  /** The `offsetLeft` and `clientWidth` of one card element, in whole pixels. */
  datatype Box = Box(offsetLeft: int, width: int)

  /** What the browser reports when a handler runs: whether `(max-width:767px)` matches,
      the box of every card in track order, and the client widths of the track and of
      its parent (the wrapper). */
  datatype Viewport = Viewport(mobile: bool, boxes: seq<Box>, trackWidth: int, wrapWidth: int)

  /** A smooth `scrollTo` command. The target `left` is stored doubled, so that the
      source's halved widths stay integral. */
  datatype Scroll = TrackTo(twiceLeft: int) | WrapTo(twiceLeft: int)

  /** The observable UI state: `current`, the `active` attribute of each card, the `active`
      class of each dot, and the `disabled` flag of the prev and next buttons (`None` when
      the page has no such button). */
  datatype UiState = UiState(current: int, cards: seq<bool>, dots: seq<bool>,
                             prev: Option<bool>, next: Option<bool>)

  function Min(a: int, b: int): int { if a <= b then a else b }
  function Max(a: int, b: int): int { if a >= b then a else b }

  /** The index `go(step)` activates: `Math.min(Math.max(current + step, 0), len - 1)`. */
  function GoTarget(current: int, step: int, len: nat): (r: int)
    ensures len == 0 ==> r == -1
    ensures len > 0 ==> 0 <= r < len
    ensures len > 0 && 0 <= current + step < len ==> r == current + step
    ensures len > 0 && current + step < 0 ==> r == 0
    ensures len > 0 && current + step >= len ==> r == len - 1
  {
    Min(Max(current + step, 0), len - 1)
  }

  /** Stepping past either end leaves the index where it is. */
  lemma GoStopsAtEnds(len: nat)
    requires len > 0
    ensures GoTarget(len - 1, 1, len) == len - 1
    ensures GoTarget(0, -1, len) == 0
  {
  }

  /** The indices `current` can hold once the slider is initialised: a card index, or,
      with no cards at all, 0 (after init) or -1 (after any `go`). */
  predicate InRange(i: int, len: nat)
  {
    if len > 0 then 0 <= i < len else i == 0 || i == -1
  }

  lemma GoTargetInRange(current: int, step: int, len: nat)
    ensures InRange(GoTarget(current, step, len), len)
  {
  }

  /** `toggleUI(i)`: card k and dot k are active iff k == i; prev is disabled iff i == 0 and
      next iff i == cards.length - 1, each only when the button exists. */
  function Toggled(u: UiState, i: int): (r: UiState)
    ensures r.current == u.current
    ensures |r.cards| == |u.cards| && |r.dots| == |u.dots|
    ensures forall k :: 0 <= k < |r.cards| ==> (r.cards[k] <==> k == i)
    ensures forall k :: 0 <= k < |r.dots| ==> (r.dots[k] <==> k == i)
    ensures r.prev.Some? == u.prev.Some? && (r.prev.Some? ==> (r.prev.value <==> i == 0))
    ensures r.next.Some? == u.next.Some? && (r.next.Some? ==> (r.next.value <==> i == |u.cards| - 1))
  {
    UiState(u.current,
            seq(|u.cards|, k => k == i),
            seq(|u.dots|, k => k == i),
            if u.prev.Some? then Some(i == 0) else None,
            if u.next.Some? then Some(i == |u.cards| - 1) else None)
  }

  /** `activate(i, _)` on the UI state: `current = i; toggleUI(i)` (no clamping, no early exit). */
  function Activated(u: UiState, i: int): UiState
  {
    Toggled(u.(current := i), i)
  }

  /** Activating the same index twice gives the state of activating it once. */
  lemma {:induction false} ActivateIdempotent(u: UiState, i: int)
    ensures Activated(Activated(u, i), i) == Activated(u, i)
  {
    var once := Activated(u, i);
    var twice := Activated(once, i);
    assert twice.cards == once.cards;
    assert twice.dots == once.dots;
  }

  /** A state the initialised slider can be in: `current` in range, dots 1:1 with cards,
      and every mark and flag agreeing with `current`. */
  predicate Reachable(u: UiState)
  {
    InRange(u.current, |u.cards|) && |u.dots| == |u.cards| && Toggled(u, u.current) == u
  }

  /** Activate keeps the slider in a reachable state. */
  lemma {:induction false} ActivatedReachable(u: UiState, i: int)
    requires |u.dots| == |u.cards| && InRange(i, |u.cards|)
    ensures Reachable(Activated(u, i))
  {
    ActivateIdempotent(u, i);
  }

  /** In every reachable state exactly the card and dot at `current` are active, prev is
      disabled iff current == 0, and next is disabled iff current == cards.length - 1. */
  lemma {:induction false} ReachableMarks(u: UiState)
    requires Reachable(u)
    ensures forall k :: 0 <= k < |u.cards| ==> (u.cards[k] <==> k == u.current)
    ensures forall k :: 0 <= k < |u.dots| ==> (u.dots[k] <==> k == u.current)
    ensures u.prev.Some? ==> (u.prev.value <==> u.current == 0)
    ensures u.next.Some? ==> (u.next.value <==> u.current == |u.cards| - 1)
    ensures |u.cards| > 0 ==> (set k | 0 <= k < |u.cards| && u.cards[k]) == {u.current}
  {
    var t := Toggled(u, u.current);
    assert t == u;
    forall k | 0 <= k < |u.cards|
      ensures u.cards[k] <==> k == u.current
    {
      assert u.cards[k] == t.cards[k];
    }
    forall k | 0 <= k < |u.dots|
      ensures u.dots[k] <==> k == u.current
    {
      assert u.dots[k] == t.dots[k];
    }
  }

  /** With no cards, `toggleUI(0)` disables prev but leaves next enabled (0 != -1). */
  lemma EmptyInitLeavesNextEnabled(u: UiState)
    requires u.cards == [] && u.prev.Some? && u.next.Some?
    ensures Activated(u, 0).prev == Some(true) && Activated(u, 0).next == Some(false)
  {
  }

  /** The swipe threshold in pixels: 40 in the mobile view, 60 otherwise. */
  function SwipeThreshold(mobile: bool): int
  {
    if mobile then 40 else 60
  }

  function Abs(x: int): nat { if x < 0 then -x else x }

  /** The touchend rule: the step `go` is called with, or `None` when the horizontal
      distance `dx` does not strictly exceed the threshold. The vertical distance plays
      no part. */
  function SwipeStep(dx: int, mobile: bool): (r: Option<int>)
    ensures r.Some? <==> Abs(dx) > SwipeThreshold(mobile)
    ensures r.Some? && dx > 0 ==> r.value == -1
    ensures r.Some? && dx < 0 ==> r.value == 1
  {
    if Abs(dx) > SwipeThreshold(mobile) then Some(if dx > 0 then -1 else 1) else None
  }

  /** A swipe of exactly the threshold does nothing; one pixel more navigates. */
  lemma SwipeThresholdIsStrict(mobile: bool)
    ensures SwipeStep(SwipeThreshold(mobile), mobile) == None
    ensures SwipeStep(-SwipeThreshold(mobile), mobile) == None
    ensures SwipeStep(SwipeThreshold(mobile) + 1, mobile) == Some(-1)
    ensures SwipeStep(-SwipeThreshold(mobile) - 1, mobile) == Some(1)
  {
  }

  /** The keydown rule: ArrowRight/ArrowDown step forward, ArrowLeft/ArrowUp step back,
      every other key does nothing. */
  function KeyStep(key: string): (r: Option<int>)
    ensures (key == "ArrowRight" || key == "ArrowDown") <==> r == Some(1)
    ensures (key == "ArrowLeft" || key == "ArrowUp") <==> r == Some(-1)
    ensures r.Some? ==> r.value == 1 || r.value == -1
  {
    if key == "ArrowRight" || key == "ArrowDown" then Some(1)
    else if key == "ArrowLeft" || key == "ArrowUp" then Some(-1)
    else None
  }

  /** Mobile centring within the track: `offsetLeft - trackW/2 + cardW/2`, doubled. The
      card's midpoint then lies on the midpoint of the visible track. */
  function TwiceMobileLeft(b: Box, trackWidth: int): (r: int)
    ensures r + trackWidth == 2 * b.offsetLeft + b.width
  {
    2 * b.offsetLeft - trackWidth + b.width
  }

  /** Desktop centring within the wrapper: `offsetLeft - (wrapW/2 - cardW/2)`, doubled. */
  function TwiceDesktopLeft(b: Box, wrapWidth: int): (r: int)
    ensures r + wrapWidth == 2 * b.offsetLeft + b.width
  {
    2 * b.offsetLeft - (wrapWidth - b.width)
  }

  /** Both centring formulas are one arithmetic applied to different containers. */
  lemma CenteringFormulasAgree(b: Box, width: int)
    ensures TwiceMobileLeft(b, width) == TwiceDesktopLeft(b, width)
  {
  }

  /** The scroll command `center(i)` issues: the track in the mobile view, the wrapper
      otherwise; none when there is no card i. */
  function CenterLog(vp: Viewport, i: int): (r: seq<Scroll>)
    ensures |r| <= 1
    ensures r != [] <==> 0 <= i < |vp.boxes|
    ensures r != [] && vp.mobile ==> r[0].TrackTo? && r[0].twiceLeft + vp.trackWidth == 2 * vp.boxes[i].offsetLeft + vp.boxes[i].width
    ensures r != [] && !vp.mobile ==> r[0].WrapTo? && r[0].twiceLeft + vp.wrapWidth == 2 * vp.boxes[i].offsetLeft + vp.boxes[i].width
  {
    if 0 <= i < |vp.boxes| then
      [if vp.mobile then TrackTo(TwiceMobileLeft(vp.boxes[i], vp.trackWidth))
       else WrapTo(TwiceDesktopLeft(vp.boxes[i], vp.wrapWidth))]
    else []
  }

  /** The state the closure of `initSlider` keeps, plus the DOM it writes. Before the first
      `projectsLoaded` event no slider exists (`initialized` is false) and the window-level
      keydown and resize handlers find no `sliderGo`/`sliderCenter`. */
  class SliderController {
    var initialized: bool
    var current: int
    var cards: seq<bool>
    var dots: seq<bool>
    var prev: Option<bool>
    var next: Option<bool>
    var sx: int
    var sy: int
    /** Every smooth scroll command issued so far, oldest first. */
    var scrolls: seq<Scroll>

    function State(): UiState
      reads this
    {
      UiState(current, cards, dots, prev, next)
    }

    predicate Valid()
      reads this
    {
      if initialized then Reachable(State()) else cards == [] && dots == []
    }

    /** The viewport describes exactly the slider's cards. */
    predicate Measures(vp: Viewport)
      reads this
    {
      |vp.boxes| == |cards|
    }

    /** Page load: the prev/next buttons as they are in the markup, no slider yet. */
    constructor (prevButton: Option<bool>, nextButton: Option<bool>)
      ensures Valid() && !initialized
      ensures prev == prevButton && next == nextButton && scrolls == []
    {
      initialized := false;
      current := 0;
      cards := [];
      dots := [];
      prev := prevButton;
      next := nextButton;
      sx, sy := 0, 0;
      scrolls := [];
    }

    /** `initSlider` on a `projectsLoaded` event: `trackCards` are the `active` attributes of
        the track's children. Old dots are cleared and one new dot is built per card; then
        `current = 0`, `toggleUI(0)`, `center(0)`. */
    method Init(trackCards: seq<bool>, vp: Viewport)
      requires Valid()
      requires |vp.boxes| == |trackCards|
      modifies this
      ensures Valid() && initialized
      ensures State() == Activated(UiState(0, trackCards, seq(|trackCards|, k => false), old(prev), old(next)), 0)
      ensures sx == 0 && sy == 0
      ensures scrolls == old(scrolls) + CenterLog(vp, 0)
    {
      dots := [];
      var k := 0;
      while k < |trackCards|
        invariant 0 <= k <= |trackCards|
        invariant |dots| == k && forall j :: 0 <= j < k ==> !dots[j]
        invariant prev == old(prev) && next == old(next) && scrolls == old(scrolls)
      {
        dots := dots + [false];
        k := k + 1;
      }
      assert dots == seq(|trackCards|, k => false);
      cards := trackCards;
      current := 0;
      sx, sy := 0, 0;
      ToggleUI(0);
      Center(0, vp);
      initialized := true;
      ActivatedReachable(UiState(0, trackCards, dots, old(prev), old(next)), 0);
    }

    /** `toggleUI(i)`: rewrite every card and every dot, then the button flags. */
    method ToggleUI(i: int)
      requires |dots| == |cards|
      modifies this`cards, this`dots, this`prev, this`next
      ensures State() == Toggled(old(State()), i)
    {
      var k := 0;
      while k < |cards|
        invariant 0 <= k <= |cards| == |old(cards)|
        invariant forall j :: 0 <= j < k ==> (cards[j] <==> j == i)
        invariant dots == old(dots) && prev == old(prev) && next == old(next)
      {
        cards := cards[k := k == i];
        k := k + 1;
      }
      k := 0;
      while k < |dots|
        invariant 0 <= k <= |dots| == |old(dots)|
        invariant forall j :: 0 <= j < k ==> (dots[j] <==> j == i)
        invariant cards == Toggled(old(State()), i).cards
        invariant prev == old(prev) && next == old(next)
      {
        dots := dots[k := k == i];
        k := k + 1;
      }
      if prev.Some? { prev := Some(i == 0); }
      if next.Some? { next := Some(i == |cards| - 1); }
      assert cards == Toggled(old(State()), i).cards;
      assert dots == Toggled(old(State()), i).dots;
    }

    /** `center(i)`: a no-op when there is no card i. */
    method Center(i: int, vp: Viewport)
      requires Measures(vp)
      modifies this`scrolls
      ensures scrolls == old(scrolls) + CenterLog(vp, i)
    {
      if 0 <= i < |cards| {
        var b := vp.boxes[i];
        if vp.mobile {
          scrolls := scrolls + [TrackTo(TwiceMobileLeft(b, vp.trackWidth))];
        } else {
          scrolls := scrolls + [WrapTo(TwiceDesktopLeft(b, vp.wrapWidth))];
        }
      }
    }

    /** `activate(i, scroll)`: always re-applies the UI, even when i == current. */
    method Activate(i: int, scroll: bool, vp: Viewport)
      requires Valid() && initialized && Measures(vp)
      requires InRange(i, |cards|)
      modifies this`current, this`cards, this`dots, this`prev, this`next, this`scrolls
      ensures Valid() && initialized
      ensures State() == Activated(old(State()), i)
      ensures scrolls == old(scrolls) + (if scroll then CenterLog(vp, i) else [])
    {
      ActivatedReachable(State(), i);
      current := i;
      ToggleUI(i);
      if scroll {
        Center(i, vp);
      }
    }

    /** `go(step)`: activate the clamp of `current + step`, with scrolling. */
    method Go(step: int, vp: Viewport)
      requires Valid() && initialized && Measures(vp)
      modifies this`current, this`cards, this`dots, this`prev, this`next, this`scrolls
      ensures Valid() && initialized
      ensures State() == Activated(old(State()), GoTarget(old(current), step, |old(cards)|))
      ensures scrolls == old(scrolls) + CenterLog(vp, GoTarget(old(current), step, |old(cards)|))
    {
      GoTargetInRange(current, step, |cards|);
      Activate(GoTarget(current, step, |cards|), true, vp);
    }

    /** A click on the prev button: `go(-1)`. A disabled button receives no click, and a
        missing one has no handler. */
    method ClickPrev(vp: Viewport)
      requires Valid() && Measures(vp)
      modifies this`current, this`cards, this`dots, this`prev, this`next, this`scrolls
      ensures Valid() && initialized == old(initialized)
      ensures State() == if old(initialized) && old(prev) == Some(false)
                         then Activated(old(State()), GoTarget(old(current), -1, |old(cards)|))
                         else old(State())
      ensures scrolls == old(scrolls) + if old(initialized) && old(prev) == Some(false)
                                        then CenterLog(vp, GoTarget(old(current), -1, |old(cards)|))
                                        else []
    {
      if initialized && prev == Some(false) {
        Go(-1, vp);
      }
    }

    /** A click on the next button: `go(1)`. A disabled button receives no click, and a
        missing one has no handler. */
    method ClickNext(vp: Viewport)
      requires Valid() && Measures(vp)
      modifies this`current, this`cards, this`dots, this`prev, this`next, this`scrolls
      ensures Valid() && initialized == old(initialized)
      ensures State() == if old(initialized) && old(next) == Some(false)
                         then Activated(old(State()), GoTarget(old(current), 1, |old(cards)|))
                         else old(State())
      ensures scrolls == old(scrolls) + if old(initialized) && old(next) == Some(false)
                                        then CenterLog(vp, GoTarget(old(current), 1, |old(cards)|))
                                        else []
    {
      if initialized && next == Some(false) {
        Go(1, vp);
      }
    }

    /** A click on dot i: `activate(i, true)`. */
    method ClickDot(i: int, vp: Viewport)
      requires Valid() && Measures(vp)
      requires 0 <= i < |dots|
      modifies this`current, this`cards, this`dots, this`prev, this`next, this`scrolls
      ensures Valid() && initialized
      ensures State() == Activated(old(State()), i)
      ensures scrolls == old(scrolls) + CenterLog(vp, i)
    {
      Activate(i, true, vp);
    }

    /** A click on card i: `activate(i, true)`. */
    method ClickCard(i: int, vp: Viewport)
      requires Valid() && Measures(vp)
      requires 0 <= i < |cards|
      modifies this`current, this`cards, this`dots, this`prev, this`next, this`scrolls
      ensures Valid() && initialized
      ensures State() == Activated(old(State()), i)
      ensures scrolls == old(scrolls) + CenterLog(vp, i)
    {
      Activate(i, true, vp);
    }

    /** The pointer entering card i: `activate(i, true)` only when `(hover:hover)` matches. */
    method HoverCard(i: int, canHover: bool, vp: Viewport)
      requires Valid() && Measures(vp)
      requires 0 <= i < |cards|
      modifies this`current, this`cards, this`dots, this`prev, this`next, this`scrolls
      ensures Valid() && initialized
      ensures State() == if canHover then Activated(old(State()), i) else old(State())
      ensures scrolls == old(scrolls) + (if canHover then CenterLog(vp, i) else [])
    {
      if canHover {
        Activate(i, true, vp);
      }
    }

    /** touchstart: remember where the touch began. */
    method TouchStart(x: int, y: int)
      modifies this`sx, this`sy
      ensures (sx, sy) == if initialized then (x, y) else old((sx, sy))
    {
      if initialized {
        sx, sy := x, y;
      }
    }

    /** touchend at (x, y): navigate by `SwipeStep(x - sx)`; y is never consulted. */
    method TouchEnd(x: int, y: int, vp: Viewport)
      requires Valid() && Measures(vp)
      modifies this`current, this`cards, this`dots, this`prev, this`next, this`scrolls
      ensures Valid() && initialized == old(initialized)
      ensures State() == if old(initialized) && SwipeStep(x - sx, vp.mobile).Some?
                         then Activated(old(State()), GoTarget(old(current), SwipeStep(x - sx, vp.mobile).value, |old(cards)|))
                         else old(State())
      ensures scrolls == old(scrolls) + if old(initialized) && SwipeStep(x - sx, vp.mobile).Some?
                                        then CenterLog(vp, GoTarget(old(current), SwipeStep(x - sx, vp.mobile).value, |old(cards)|))
                                        else []
    {
      if initialized {
        var dx := x - sx;
        match SwipeStep(dx, vp.mobile)
        case Some(step) => Go(step, vp);
        case None =>
      }
    }

    /** The window keydown handler: `sliderGo(1)` on ArrowRight/ArrowDown, `sliderGo(-1)` on
        ArrowLeft/ArrowUp, once a slider exists. */
    method KeyDown(key: string, vp: Viewport)
      requires Valid() && Measures(vp)
      modifies this`current, this`cards, this`dots, this`prev, this`next, this`scrolls
      ensures Valid() && initialized == old(initialized)
      ensures State() == if old(initialized) && KeyStep(key).Some?
                         then Activated(old(State()), GoTarget(old(current), KeyStep(key).value, |old(cards)|))
                         else old(State())
      ensures scrolls == old(scrolls) + if old(initialized) && KeyStep(key).Some?
                                        then CenterLog(vp, GoTarget(old(current), KeyStep(key).value, |old(cards)|))
                                        else []
    {
      if initialized {
        if key == "ArrowRight" || key == "ArrowDown" {
          Go(1, vp);
        }
        if key == "ArrowLeft" || key == "ArrowUp" {
          Go(-1, vp);
        }
      }
    }

    /** The window resize handler: `sliderCenter()` re-centres `current` with the
        mode the new viewport calls for, and changes no index. */
    method Resize(vp: Viewport)
      requires Valid() && Measures(vp)
      modifies this`scrolls
      ensures State() == old(State())
      ensures scrolls == old(scrolls) + (if initialized then CenterLog(vp, current) else [])
    {
      if initialized {
        Center(current, vp);
      }
    }
  }
}
