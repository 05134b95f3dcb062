/** The story viewer's index state: `currentIndex` moves under next, previous
    and tap events, the last story's next closes the viewer, and each progress
    bar's state follows from the index. Animation timing is left to the
    library; a finished timer arrives as an event. */
module StoryViewer {

  /** What the screen reacts to. */
  datatype Event =
    | Next                       // handleNext()
    | Previous                   // handlePrevious()
    | Press(x: real)             // handlePress at `locationX`
    | TimerEnded(finished: bool) // the animation's completion callback
    | CloseButton                // the close button's `navigation.goBack()`

  /** `currentIndex`, and whether `navigation.goBack()` has been called. */
  datatype Viewer = Viewer(index: int, closed: bool)

  /** The reaction to one event, for `count` stories on a screen `width` wide. */
  function Step(count: nat, width: real, v: Viewer, e: Event): (w: Viewer)
    ensures 0 <= v.index < count ==> 0 <= w.index < count
    ensures e == Next ==>
      if v.index < count - 1 then w == Viewer(v.index + 1, v.closed) else w == Viewer(v.index, true)
    ensures e == Previous ==>
      if v.index > 0 then w == Viewer(v.index - 1, v.closed) else w == v
    ensures e.Press? ==>
      w == Step(count, width, v, if e.x < width / 2.0 then Previous else Next)
    ensures e.TimerEnded? ==>
      w == if e.finished then Step(count, width, v, Next) else v
    ensures e == CloseButton ==> w == Viewer(v.index, true)
    decreases e.Press? || e.TimerEnded?
  {
    match e
    case Next =>
      if v.index < count - 1 then v.(index := v.index + 1) else v.(closed := true)
    case Previous =>
      if v.index > 0 then v.(index := v.index - 1) else v
    case Press(x) =>
      if x < width / 2.0 then Step(count, width, v, Previous) else Step(count, width, v, Next)
    case TimerEnded(finished) =>
      if finished then Step(count, width, v, Next) else v
    case CloseButton =>
      v.(closed := true)
  }

  /** The events applied in order. */
  function Run(count: nat, width: real, v: Viewer, events: seq<Event>): Viewer
    decreases |events|
  {
    if events == [] then v else Run(count, width, Step(count, width, v, events[0]), events[1..])
  }

  /** From a valid index, no sequence of events moves it out of range. */
  lemma {:induction false} RunStaysInRange(count: nat, width: real, v: Viewer, events: seq<Event>)
    requires 0 <= v.index < count
    ensures 0 <= Run(count, width, v, events).index < count
    decreases |events|
  {
    if events != [] {
      RunStaysInRange(count, width, Step(count, width, v, events[0]), events[1..]);
    }
  }

  /** Once closed, the viewer stays closed. */
  lemma {:induction false} RunStaysClosed(count: nat, width: real, v: Viewer, events: seq<Event>)
    requires v.closed
    ensures Run(count, width, v, events).closed
    decreases |events|
  {
    if events != [] {
      RunStaysClosed(count, width, Step(count, width, v, events[0]), events[1..]);
    }
  }

  /** Next events never move the index down, and `count - 1 - index` of them
      reach the last story without closing. */
  lemma {:induction false} NextsReachLast(count: nat, width: real, v: Viewer, n: nat)
    requires 0 <= v.index && v.index + n <= count - 1
    ensures Run(count, width, v, seq(n, _ => Next)) == Viewer(v.index + n, v.closed)
    decreases n
  {
    if n > 0 {
      var events := seq(n, _ => Next);
      assert events[0] == Next;
      assert events[1..] == seq(n - 1, _ => Next);
      NextsReachLast(count, width, Viewer(v.index + 1, v.closed), n - 1);
    }
  }

  datatype Bar = Filled | Animating | Unfilled

  /** The width of bar `index`: `index === currentIndex` animates,
      `index < currentIndex` is 100%, the rest 0%. */
  function BarFor(index: int, current: int): (b: Bar)
    ensures b == Filled <==> index < current
    ensures b == Animating <==> index == current
    ensures b == Unfilled <==> index > current
  {
    if index == current then Animating else if index < current then Filled else Unfilled
  }

  /** `stories.map((_, index) => ...)`: one bar per story. */
  function ProgressBars(count: nat, current: int): (bars: seq<Bar>)
    ensures |bars| == count
    ensures forall i :: 0 <= i < count ==> bars[i] == BarFor(i, current)
  {
    seq(count, i => BarFor(i, current))
  }

  function CountOf(bars: seq<Bar>, b: Bar): nat {
    if bars == [] then 0 else CountOf(bars[..|bars| - 1], b) + (if bars[|bars| - 1] == b then 1 else 0)
  }

  /** At a valid index exactly `current` bars are full and exactly one animates. */
  lemma {:induction false} BarsCount(count: nat, current: int)
    requires 0 <= current < count
    ensures CountOf(ProgressBars(count, current), Filled) == current
    ensures CountOf(ProgressBars(count, current), Animating) == 1
  {
    var bars := ProgressBars(count, current);
    PrefixCounts(count, current, count);
    assert bars[..count] == bars;
  }

  lemma {:induction false} PrefixCounts(count: nat, current: int, k: nat)
    requires 0 <= current < count && k <= count
    ensures CountOf(ProgressBars(count, current)[..k], Filled) == if k <= current then k else current
    ensures CountOf(ProgressBars(count, current)[..k], Animating) == if k <= current then 0 else 1
    decreases k
  {
    var bars := ProgressBars(count, current);
    if k > 0 {
      assert bars[..k][..k - 1] == bars[..k - 1];
      PrefixCounts(count, current, k - 1);
    }
  }

  class StoryViewerScreen {
    const storyCount: nat
    const width: real
    var currentIndex: int
    var closed: bool

    ghost predicate Valid()
      reads this
    {
      0 <= currentIndex < storyCount
    }

    ghost function State(): Viewer
      reads this
    {
      Viewer(currentIndex, closed)
    }

    /** `useState(initialIndex)` with `initialIndex = 0` by default. */
    constructor (storyCount: nat, width: real, initialIndex: int := 0)
      requires 0 <= initialIndex < storyCount
      ensures Valid()
      ensures this.storyCount == storyCount && this.width == width
      ensures currentIndex == initialIndex && !closed
    {
      this.storyCount := storyCount;
      this.width := width;
      currentIndex := initialIndex;
      closed := false;
    }

    method HandleNext()
      requires Valid()
      modifies this
      ensures Valid()
      ensures old(currentIndex) < storyCount - 1 ==> currentIndex == old(currentIndex) + 1 && closed == old(closed)
      ensures old(currentIndex) == storyCount - 1 ==> currentIndex == old(currentIndex) && closed
      ensures State() == Step(storyCount, width, old(State()), Next)
    {
      if currentIndex < storyCount - 1 {
        currentIndex := currentIndex + 1;
      } else {
        closed := true;
      }
    }

    method HandlePrevious()
      requires Valid()
      modifies this
      ensures Valid()
      ensures old(currentIndex) > 0 ==> currentIndex == old(currentIndex) - 1
      ensures old(currentIndex) == 0 ==> currentIndex == 0
      ensures closed == old(closed)
      ensures State() == Step(storyCount, width, old(State()), Previous)
    {
      if currentIndex > 0 {
        currentIndex := currentIndex - 1;
      }
    }

    method HandlePress(x: real)
      requires Valid()
      modifies this
      ensures Valid()
      ensures State() == Step(storyCount, width, old(State()), if x < width / 2.0 then Previous else Next)
    {
      if x < width / 2.0 {
        HandlePrevious();
      } else {
        HandleNext();
      }
    }

    /** The animation's `start` callback. */
    method TimerEnded(finished: bool)
      requires Valid()
      modifies this
      ensures Valid()
      ensures State() == if finished then Step(storyCount, width, old(State()), Next) else old(State())
    {
      if finished {
        HandleNext();
      }
    }

    method Close()
      requires Valid()
      modifies this
      ensures Valid()
      ensures currentIndex == old(currentIndex) && closed
    {
      closed := true;
    }

    /** The bars the header renders for the current index. */
    method Bars() returns (bars: seq<Bar>)
      requires Valid()
      ensures |bars| == storyCount
      ensures forall i :: 0 <= i < storyCount ==>
        (bars[i] == Filled <==> i < currentIndex) &&
        (bars[i] == Animating <==> i == currentIndex) &&
        (bars[i] == Unfilled <==> i > currentIndex)
    {
      bars := ProgressBars(storyCount, currentIndex);
    }
  }
}
