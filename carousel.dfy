/**
 * The full-screen story viewer: which story is shown, whether autoplay is
 * paused, how far the current story's progress bar has run, and whether the
 * viewer has asked its owner to close it (the `onClose` callback).
 *
 * The handlers are first stated as functions on a `Session` value; the class
 * `StoriesCarousel` holds the same state in fields and its methods are proved
 * to move the fields exactly as those functions say.
 */
module Carousel {
  import opened StoryModel

  /** The stories a viewer can be opened on: at least one, each playable. */
  predicate Showable(stories: seq<Story>)
  {
    |stories| > 0 && PositiveDurations(stories)
  }

  /** The viewer's state; `closed` records that `onClose` has been called. */
  datatype Session = Session(index: nat, paused: bool, progress: real, closed: bool)

  /** A keyboard event: its `key` and its physical `code`. */
  datatype KeyEvent = KeyEvent(key: string, code: string)

  /** Everything that can happen to an open viewer. */
  datatype Event =
    | NextClick          // right chevron, rendered only before the last story
    | PreviousClick      // left chevron, rendered only after the first story
    | CloseClick         // the X button
    | PauseClick         // the pause/play button
    | TimerTick          // one firing of the 100 ms autoplay interval
    | Drag(swipeX: int)  // a recognised swipe; only its sign is used
    | KeyDown(event: KeyEvent)
    | PressDown          // touchstart / mousedown on the media
    | PressUp            // touchend / mouseup on the media

  /** The state a freshly mounted viewer starts in. */
  function Open(initialIndex: nat): (s: Session)
    ensures s.index == initialIndex && !s.closed
    ensures !s.paused && s.progress == 0.0
  {
    Session(initialIndex, false, 0.0, false)
  }

  /** Progress (in percent) added by one 100 ms tick: `(100 / duration) * 100`. */
  function Step(duration: int): (r: real)
    requires duration > 0
    ensures r > 0.0
    ensures r * (duration as real) == 10000.0  // duration/100 ticks fill the bar
  {
    var d := duration as real;
    var r := (100.0 / d) * 100.0;
    assert r * d == 10000.0 by {
      assert (100.0 / d) * d == 100.0;
    }
    r
  }

  /** `nextStory`: move to the following story, or close after the last one. */
  function Advance(s: Session, n: nat): (r: Session)
    requires s.index < n
    ensures r.index < n && r.paused == s.paused
    ensures s.index + 1 < n ==>
      r.index == s.index + 1 && r.progress == 0.0 && r.closed == s.closed
    ensures s.index + 1 == n ==>
      r.index == s.index && r.progress == s.progress && r.closed
  {
    if s.index < n - 1 then s.(index := s.index + 1, progress := 0.0)
    else s.(closed := true)
  }

  /** `previousStory`: move to the preceding story; nothing happens on the first. */
  function Retreat(s: Session): (r: Session)
    ensures s.index == 0 ==> r == s
    ensures s.index > 0 ==> r.index + 1 == s.index && r.progress == 0.0
    ensures r.paused == s.paused && r.closed == s.closed
  {
    if s.index > 0 then s.(index := s.index - 1, progress := 0.0) else s
  }

  /** Closing, by the X button or the Escape key: nothing but `closed` changes. */
  function Close(s: Session): (r: Session)
    ensures r.closed
    ensures r.index == s.index && r.paused == s.paused && r.progress == s.progress
  {
    s.(closed := true)
  }

  /** The pause/play button and the space bar flip `paused` and nothing else. */
  function TogglePause(s: Session): (r: Session)
    ensures r.paused != s.paused
    ensures r.index == s.index && r.progress == s.progress && r.closed == s.closed
  {
    s.(paused := !s.paused)
  }

  /** One autoplay tick; the interval exists only while the viewer is not paused. */
  function Tick(s: Session, stories: seq<Story>): (r: Session)
    requires Showable(stories) && s.index < |stories| && !s.paused
    ensures r.index < |stories| && !r.paused
    ensures s.progress >= 100.0 ==>
      r.progress == 0.0 && r.index == Advance(s, |stories|).index
      && r.closed == Advance(s, |stories|).closed
    ensures s.progress < 100.0 ==>
      r.progress == s.progress + Step(stories[s.index].duration)
      && r.index == s.index && r.closed == s.closed
  {
    if s.progress >= 100.0 then Advance(s, |stories|).(progress := 0.0)
    else s.(progress := s.progress + Step(stories[s.index].duration))
  }

  /** A swipe left goes forward and a swipe right goes back, but never past either end. */
  function Swipe(s: Session, n: nat, swipeX: int): (r: Session)
    requires s.index < n
    ensures r.index < n && r.closed == s.closed && r.paused == s.paused
    ensures swipeX < 0 && s.index + 1 < n ==> r == Advance(s, n)
    ensures swipeX > 0 && s.index > 0 ==> r == Retreat(s)
    ensures (swipeX == 0 || (swipeX < 0 && s.index + 1 == n) || (swipeX > 0 && s.index == 0))
      ==> r == s
  {
    if swipeX < 0 && s.index < n - 1 then Advance(s, n)
    else if swipeX > 0 && s.index > 0 then Retreat(s)
    else s
  }

  /** The window's keydown handler: the tests are made in this order. */
  function Key(s: Session, n: nat, e: KeyEvent): (r: Session)
    requires s.index < n
    ensures r.index < n
    ensures e.key == "ArrowLeft" ==> r == Retreat(s)
    ensures e.key == "ArrowRight" ==> r == Advance(s, n)
    ensures e.key == "Escape" ==> r == Close(s)
    ensures e.key !in {"ArrowLeft", "ArrowRight", "Escape"} ==>
      r == if e.code == "Space" then TogglePause(s) else s
  {
    if e.key == "ArrowLeft" then Retreat(s)
    else if e.key == "ArrowRight" then Advance(s, n)
    else if e.key == "Escape" then Close(s)
    else if e.code == "Space" then TogglePause(s)
    else s
  }

  /** Pressing an image pauses it; videos carry no press handlers. */
  function Press(s: Session, stories: seq<Story>): (r: Session)
    requires s.index < |stories|
    ensures stories[s.index].kind == Image ==> r.paused
    ensures stories[s.index].kind == Video ==> r == s
    ensures r.index == s.index && r.progress == s.progress && r.closed == s.closed
  {
    if stories[s.index].kind == Image then s.(paused := true) else s
  }

  /** Releasing an image resumes it, whoever paused it. */
  function Release(s: Session, stories: seq<Story>): (r: Session)
    requires s.index < |stories|
    ensures stories[s.index].kind == Image ==> !r.paused
    ensures stories[s.index].kind == Video ==> r == s
    ensures r.index == s.index && r.progress == s.progress && r.closed == s.closed
  {
    if stories[s.index].kind == Image then s.(paused := false) else s
  }

  /** The effect of one event on an open viewer. */
  function Apply(s: Session, stories: seq<Story>, e: Event): (r: Session)
    requires Showable(stories) && s.index < |stories|
    ensures r.index < |stories|
    ensures r.index != s.index ==>
      r.progress == 0.0 && (r.index == s.index + 1 || r.index + 1 == s.index)
    ensures s.closed ==> r.closed
    ensures e.TimerTick? && s.paused ==> r == s
  {
    match e
    case NextClick => Advance(s, |stories|)
    case PreviousClick => Retreat(s)
    case CloseClick => Close(s)
    case PauseClick => TogglePause(s)
    case TimerTick => if s.paused then s else Tick(s, stories)
    case Drag(x) => Swipe(s, |stories|, x)
    case KeyDown(k) => Key(s, |stories|, k)
    case PressDown => Press(s, stories)
    case PressUp => Release(s, stories)
  }

  /** The effect of a series of events, in order. */
  function Run(s: Session, stories: seq<Story>, events: seq<Event>): (r: Session)
    requires Showable(stories) && s.index < |stories|
    ensures r.index < |stories|
    decreases |events|
  {
    if events == [] then s
    else
      var t := Apply(s, stories, events[0]);
      assert t.index < |stories|;
      Run(t, stories, events[1..])
  }

  /** `k` copies of one event. */
  function Repeat(e: Event, k: nat): (r: seq<Event>)
  {
    seq(k, _ => e)
  }

  /** What the viewer keeps true while open: the index is in range and the progress
   * is non-negative and overshoots 100 by less than one step. */
  predicate Inv(s: Session, stories: seq<Story>)
  {
    Showable(stories) && s.index < |stories|
    && 0.0 <= s.progress < 100.0 + Step(stories[s.index].duration)
  }

  /** Width, in percent, of the progress bar of story `i`. */
  function BarWidth(i: nat, s: Session): (w: real)
    ensures i != s.index ==> (w == 100.0 <==> i < s.index) && (w == 0.0 <==> s.index < i)
    ensures 0.0 <= s.progress <= 100.0 ==> 0.0 <= w <= 100.0
  {
    if i == s.index then s.progress else if i < s.index then 100.0 else 0.0
  }

  /** The row of progress bars, one per story. */
  function Bars(s: Session, n: nat): (r: seq<real>)
    ensures |r| == n
    ensures 0.0 <= s.progress <= 100.0 ==> forall i, j :: 0 <= i <= j < n ==> r[j] <= r[i]
  {
    seq(n, i requires 0 <= i < n => BarWidth(i, s))
  }

  /** The total of a row of widths. */
  function Sum(xs: seq<real>): (t: real)
  {
    if xs == [] then 0.0 else Sum(xs[..|xs| - 1]) + xs[|xs| - 1]
  }

  /** The left chevron is shown. */
  predicate ShowPrevious(s: Session)
    ensures ShowPrevious(s) <==> Retreat(s) != s
  {
    s.index > 0
  }

  /** The right chevron is shown. */
  predicate ShowNext(s: Session, n: nat)
    ensures s.index < n ==> (ShowNext(s, n) <==> Advance(s, n).index == s.index + 1)
  {
    s.index < n - 1
  }

  // ---------------------------------------------------------------------------
  // Properties of the session functions

  /** Every event keeps the viewer's invariant. */
  lemma ApplyKeepsInv(s: Session, stories: seq<Story>, e: Event)
    requires Inv(s, stories)
    ensures Inv(Apply(s, stories, e), stories)
  {
  }

  /** `k` repetitions of an event are one event followed by `k - 1` more. */
  lemma {:induction false} RunUnfold(s: Session, stories: seq<Story>, e: Event, k: nat)
    requires Showable(stories) && s.index < |stories| && k > 0
    ensures Run(s, stories, Repeat(e, k)) == Run(Apply(s, stories, e), stories, Repeat(e, k - 1))
  {
    assert Repeat(e, k)[0] == e;
    assert Repeat(e, k)[1..] == Repeat(e, k - 1);
  }

  /** Any series of events keeps the invariant; in particular the index stays in range. */
  lemma {:induction false} RunKeepsInv(s: Session, stories: seq<Story>, events: seq<Event>)
    requires Inv(s, stories)
    ensures Inv(Run(s, stories, events), stories)
    decreases |events|
  {
    if events != [] {
      ApplyKeepsInv(s, stories, events[0]);
      RunKeepsInv(Apply(s, stories, events[0]), stories, events[1..]);
    }
  }

  /** Once `onClose` has been called it stays called. */
  lemma {:induction false} RunStaysClosed(s: Session, stories: seq<Story>, events: seq<Event>)
    requires Showable(stories) && s.index < |stories| && s.closed
    ensures Run(s, stories, events).closed
    decreases |events|
  {
    if events != [] {
      RunStaysClosed(Apply(s, stories, events[0]), stories, events[1..]);
    }
  }

  /** The right-arrow key. */
  const ArrowRight: KeyEvent := KeyEvent("ArrowRight", "ArrowRight")

  /** Four stories opened at the first: three clicks on the right chevron, each shown
   * when clicked, reach the last story without closing; there the chevron is hidden,
   * and the right-arrow key closes the viewer. */
  lemma NextClicksThenArrowRightClose(stories: seq<Story>)
    requires Showable(stories) && |stories| == 4
    ensures forall k :: 0 <= k < 3 ==> ShowNext(Run(Open(0), stories, Repeat(NextClick, k)), 4)
    ensures Run(Open(0), stories, Repeat(NextClick, 3)) == Session(3, false, 0.0, false)
    ensures !ShowNext(Run(Open(0), stories, Repeat(NextClick, 3)), 4)
    ensures Apply(Run(Open(0), stories, Repeat(NextClick, 3)), stories, KeyDown(ArrowRight))
            == Session(3, false, 0.0, true)
  {
    var s0 := Open(0);
    var s1 := Apply(s0, stories, NextClick);
    var s2 := Apply(s1, stories, NextClick);
    var s3 := Apply(s2, stories, NextClick);
    assert s1.index == 1 && s2.index == 2 && s3 == Session(3, false, 0.0, false);
    RunUnfold(s0, stories, NextClick, 3);
    RunUnfold(s1, stories, NextClick, 2);
    RunUnfold(s2, stories, NextClick, 1);
    RunUnfold(s0, stories, NextClick, 2);
    RunUnfold(s1, stories, NextClick, 1);
    RunUnfold(s0, stories, NextClick, 1);
    assert Repeat(NextClick, 0) == [];
    assert Run(s0, stories, Repeat(NextClick, 1)) == s1;
    assert Run(s0, stories, Repeat(NextClick, 2)) == s2;
    assert Run(s0, stories, Repeat(NextClick, 3)) == s3;
  }

  /** No tick runs while paused: any number of ticks leaves a paused viewer as it was. */
  lemma {:induction false} PausedTicksFreeze(s: Session, stories: seq<Story>, k: nat)
    requires Showable(stories) && s.index < |stories| && s.paused
    ensures Run(s, stories, Repeat(TimerTick, k)) == s
    decreases k
  {
    if k == 0 {
      assert Repeat(TimerTick, 0) == [];
    } else {
      RunUnfold(s, stories, TimerTick, k);
      PausedTicksFreeze(s, stories, k - 1);
    }
  }

  /** Pausing, letting any time pass and resuming gives back the same story at the
   * same progress: play continues from the frozen progress. */
  lemma PauseThenResume(s: Session, stories: seq<Story>, k: nat)
    requires Showable(stories) && s.index < |stories| && !s.paused
    ensures
      var paused := Apply(s, stories, PauseClick);
      Apply(Run(paused, stories, Repeat(TimerTick, k)), stories, PauseClick) == s
  {
    PausedTicksFreeze(Apply(s, stories, PauseClick), stories, k);
  }

  /** Two presses of the space bar restore the paused flag. */
  lemma SpaceTwiceRestores(s: Session, stories: seq<Story>, e: KeyEvent)
    requires Showable(stories) && s.index < |stories|
    requires e.code == "Space" && e.key == " "
    ensures Apply(s, stories, KeyDown(e)).paused != s.paused
    ensures Apply(Apply(s, stories, KeyDown(e)), stories, KeyDown(e)) == s
  {
  }

  /** Ticks never move back to an earlier story. */
  lemma {:induction false} TicksNeverGoBack(s: Session, stories: seq<Story>, k: nat)
    requires Showable(stories) && s.index < |stories|
    ensures Run(s, stories, Repeat(TimerTick, k)).index >= s.index
    decreases k
  {
    if k == 0 {
      assert Repeat(TimerTick, 0) == [];
    } else {
      RunUnfold(s, stories, TimerTick, k);
      TicksNeverGoBack(Apply(s, stories, TimerTick), stories, k - 1);
    }
  }

  /** Autoplay: if `k` steps bring the progress to 100, then `k + 1` ticks of a playing
   * viewer show a later story (one tick after the bar is full, the story changes). */
  lemma {:induction false} TicksReachNextStory(s: Session, stories: seq<Story>, k: nat)
    requires Showable(stories) && s.index + 1 < |stories| && !s.paused
    requires s.progress + (k as real) * Step(stories[s.index].duration) >= 100.0
    ensures Run(s, stories, Repeat(TimerTick, k + 1)).index > s.index
    decreases k
  {
    var t := Apply(s, stories, TimerTick);
    RunUnfold(s, stories, TimerTick, k + 1);
    if s.progress >= 100.0 {
      TicksNeverGoBack(t, stories, k);
    } else {
      var step := Step(stories[s.index].duration);
      assert k > 0;
      assert t.progress == s.progress + step && t.index == s.index && !t.paused;
      assert t.progress + ((k - 1) as real) * step == s.progress + (k as real) * step;
      TicksReachNextStory(t, stories, k - 1);
    }
  }

  /** While the bar is below 100 before each tick, every tick adds one step and
   * nothing else changes. */
  lemma {:induction false} TicksStayWhileFilling(s: Session, stories: seq<Story>, k: nat)
    requires Showable(stories) && s.index < |stories| && !s.paused
    requires k > 0 ==> s.progress + ((k - 1) as real) * Step(stories[s.index].duration) < 100.0
    ensures Run(s, stories, Repeat(TimerTick, k))
            == s.(progress := s.progress + (k as real) * Step(stories[s.index].duration))
    decreases k
  {
    var step := Step(stories[s.index].duration);
    if k == 0 {
      assert Repeat(TimerTick, 0) == [];
    } else {
      RunUnfold(s, stories, TimerTick, k);
      var t := Apply(s, stories, TimerTick);
      assert s.progress < 100.0;
      assert t == s.(progress := s.progress + step);
      assert t.progress + ((k - 1) as real) * step == s.progress + (k as real) * step;
      TicksStayWhileFilling(t, stories, k - 1);
    }
  }

  /** A 5000 ms story opened at progress 0 is still shown, with a full bar, after 50
   * ticks of 100 ms, and has moved on at the 51st. */
  lemma FiveSecondStoryAdvances(s: Session, stories: seq<Story>)
    requires Showable(stories) && s.index + 1 < |stories|
    requires stories[s.index].duration == 5000 && !s.paused && s.progress == 0.0
    ensures Run(s, stories, Repeat(TimerTick, 50)) == s.(progress := 100.0)
    ensures Run(s, stories, Repeat(TimerTick, 51)).index > s.index
  {
    assert Step(5000) == 2.0;
    TicksStayWhileFilling(s, stories, 50);
    TicksReachNextStory(s, stories, 50);
  }

  /** The first `m` bars are the bars of an `m`-story row; their total counts 100 per
   * finished story, plus the live progress once the current story is among them. */
  lemma {:induction false} BarsPrefixSum(s: Session, n: nat, m: nat)
    requires m <= n
    ensures Bars(s, n)[..m] == Bars(s, m)
    ensures Sum(Bars(s, m)) ==
      if m <= s.index then 100.0 * (m as real) else 100.0 * (s.index as real) + s.progress
  {
    if m > 0 {
      BarsPrefixSum(s, n, m - 1);
      assert Bars(s, m)[..m - 1] == Bars(s, m - 1);
    }
  }

  /** The bars show full for every earlier story, the live progress for the current
   * one and empty for every later one, so together they add up to the elapsed total. */
  lemma BarsShowElapsed(s: Session, n: nat)
    requires s.index < n
    ensures |Bars(s, n)| == n
    ensures forall i :: 0 <= i < s.index ==> Bars(s, n)[i] == 100.0
    ensures Bars(s, n)[s.index] == s.progress
    ensures forall i :: s.index < i < n ==> Bars(s, n)[i] == 0.0
    ensures Sum(Bars(s, n)) == 100.0 * (s.index as real) + s.progress
  {
    BarsPrefixSum(s, n, n);
  }

  /** The chevrons are shown exactly when clicking them moves to another story:
   * the right one is hidden on the last story, where "next" would close. */
  lemma ChevronsMatchMoves(s: Session, n: nat)
    requires s.index < n
    ensures ShowPrevious(s) <==> Retreat(s).index != s.index
    ensures ShowNext(s, n) <==> Advance(s, n).index != s.index
    ensures !ShowNext(s, n) ==> Advance(s, n).closed
  {
  }

  // ---------------------------------------------------------------------------
  // The component

  class StoriesCarousel {
    const stories: seq<Story>
    var currentIndex: nat
    var isPaused: bool
    var progress: real
    var closed: bool

    function State(): Session
      reads this
    {
      Session(currentIndex, isPaused, progress, closed)
    }

    ghost predicate Valid()
      reads this
    {
      Inv(State(), stories)
    }

    constructor (stories: seq<Story>, initialIndex: nat)
      requires Showable(stories) && initialIndex < |stories|
      ensures Valid() && this.stories == stories && State() == Open(initialIndex)
    {
      this.stories := stories;
      currentIndex := initialIndex;
      isPaused := false;
      progress := 0.0;
      closed := false;
      new;
      assert Step(stories[initialIndex].duration) > 0.0;
    }

    method NextStory()
      requires Valid()
      modifies this
      ensures Valid() && State() == Advance(old(State()), |stories|)
    {
      if currentIndex < |stories| - 1 {
        currentIndex := currentIndex + 1;
        progress := 0.0;
      } else {
        closed := true;
      }
      ApplyKeepsInv(old(State()), stories, NextClick);
    }

    method PreviousStory()
      requires Valid()
      modifies this
      ensures Valid() && State() == Retreat(old(State()))
    {
      if currentIndex > 0 {
        currentIndex := currentIndex - 1;
        progress := 0.0;
      }
      ApplyKeepsInv(old(State()), stories, PreviousClick);
    }

    /** The body of the autoplay interval. */
    method OnTick()
      requires Valid() && !isPaused
      modifies this
      ensures Valid() && State() == Tick(old(State()), stories)
    {
      if progress >= 100.0 {
        NextStory();
        progress := 0.0;
      } else {
        progress := progress + Step(stories[currentIndex].duration);
      }
      ApplyKeepsInv(old(State()), stories, TimerTick);
    }

    method OnSwipe(swipeX: int)
      requires Valid()
      modifies this
      ensures Valid() && State() == Swipe(old(State()), |stories|, swipeX)
    {
      if swipeX < 0 && currentIndex < |stories| - 1 {
        NextStory();
      } else if swipeX > 0 && currentIndex > 0 {
        PreviousStory();
      }
    }

    method HandleKeyDown(e: KeyEvent)
      requires Valid()
      modifies this
      ensures Valid() && State() == Key(old(State()), |stories|, e)
    {
      if e.key == "ArrowLeft" {
        PreviousStory();
      } else if e.key == "ArrowRight" {
        NextStory();
      } else if e.key == "Escape" {
        closed := true;
      } else if e.code == "Space" {
        isPaused := !isPaused;
      }
      ApplyKeepsInv(old(State()), stories, KeyDown(e));
    }

    method OnCloseClick()
      requires Valid()
      modifies this
      ensures Valid() && State() == Close(old(State()))
    {
      closed := true;
    }

    method OnPauseClick()
      requires Valid()
      modifies this
      ensures Valid() && State() == TogglePause(old(State()))
    {
      isPaused := !isPaused;
    }

    method OnPressDown()
      requires Valid()
      modifies this
      ensures Valid() && State() == Press(old(State()), stories)
    {
      if stories[currentIndex].kind == Image {
        isPaused := true;
      }
    }

    method OnPressUp()
      requires Valid()
      modifies this
      ensures Valid() && State() == Release(old(State()), stories)
    {
      if stories[currentIndex].kind == Image {
        isPaused := false;
      }
    }

    /** Routes one event to its handler; a tick while paused finds no interval. */
    method Dispatch(e: Event)
      requires Valid()
      modifies this
      ensures Valid() && State() == Apply(old(State()), stories, e)
    {
      match e
      case NextClick => NextStory();
      case PreviousClick => PreviousStory();
      case CloseClick => OnCloseClick();
      case PauseClick => OnPauseClick();
      case TimerTick => if !isPaused { OnTick(); }
      case Drag(x) => OnSwipe(x);
      case KeyDown(k) => HandleKeyDown(k);
      case PressDown => OnPressDown();
      case PressUp => OnPressUp();
    }

    /** The autoplay interval firing `ticks` times in a row. */
    method Play(ticks: nat)
      requires Valid()
      modifies this
      ensures Valid() && State() == Run(old(State()), stories, Repeat(TimerTick, ticks))
    {
      var i := 0;
      while i < ticks
        invariant 0 <= i <= ticks && Valid()
        invariant Run(State(), stories, Repeat(TimerTick, ticks - i))
                  == Run(old(State()), stories, Repeat(TimerTick, ticks))
      {
        RunUnfold(State(), stories, TimerTick, ticks - i);
        Dispatch(TimerTick);
        i := i + 1;
      }
      assert Repeat(TimerTick, 0) == [];
    }
  }
}
