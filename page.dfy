/** The `Home` component's state as an object. Each handler updates the two state
    fields the way the component's setters do, followed by what the autoplay effect
    does when one of its dependencies changed: cancel the scheduled timeout and, if
    autoplay is on, schedule a new one whose callback has captured the current index. */
module Page {
  import opened ShotData
  import opened Navigation

  class Home {
    const shots: seq<Shot>
    var index: nat        // the shot on screen
    var autoPlaying: bool
    var pending: bool     // a timeout is scheduled
    var armedAt: nat      // the index the scheduled callback captured

    /** The shot list is well formed (so its ids, the timeline keys, are unique),
        the index is in range, a timeout is scheduled exactly while autoplay is on,
        and the scheduled callback's captured index is the current one. */
    ghost predicate Valid()
      reads this
    {
      WellFormed(shots) &&
      index < |shots| &&
      pending == autoPlaying &&
      (pending ==> armedAt == index)
    }

    function State(): View
      reads this
    {
      View(index, autoPlaying)
    }

    /** Mount: the first shot, autoplay off and hence no timeout. */
    constructor (shots: seq<Shot>)
      requires WellFormed(shots)
      ensures Valid()
      ensures this.shots == shots
      ensures State() == Initial && !pending
    {
      this.shots := shots;
      index, autoPlaying := 0, false;
      pending, armedAt := false, 0;
    }

    /** The autoplay effect after a dependency changed: cancel the pending timeout,
        then schedule a fresh one if autoplay is on. */
    method Rearm()
      modifies this
      ensures index == old(index) && autoPlaying == old(autoPlaying)
      ensures pending == autoPlaying
      ensures pending ==> armedAt == index
    {
      pending := false;
      if autoPlaying {
        pending, armedAt := true, index;
      }
    }

    /** Setting the index; the effect runs only if the value actually changes. */
    method SetIndex(k: nat)
      modifies this
      ensures index == k && autoPlaying == old(autoPlaying)
      ensures k != old(index) ==> pending == autoPlaying && (pending ==> armedAt == k)
      ensures k == old(index) ==> pending == old(pending) && armedAt == old(armedAt)
    {
      if k != index {
        index := k;
        Rearm();
      }
    }

    /** Setting the autoplay flag; the effect runs only if the value actually changes. */
    method SetAutoPlaying(b: bool)
      modifies this
      ensures autoPlaying == b && index == old(index)
      ensures b != old(autoPlaying) ==> pending == b && (pending ==> armedAt == index)
      ensures b == old(autoPlaying) ==> pending == old(pending) && armedAt == old(armedAt)
    {
      if b != autoPlaying {
        autoPlaying := b;
        Rearm();
      }
    }

    /** The Next button. */
    method Next()
      requires Valid()
      modifies this
      ensures Valid()
      ensures State() == NextState(old(State()), |shots|)
    {
      if index < |shots| - 1 {
        SetIndex(index + 1);
      }
    }

    /** The Previous button. */
    method Prev()
      requires Valid()
      modifies this
      ensures Valid()
      ensures State() == PrevState(old(State()))
    {
      if index > 0 {
        SetIndex(index - 1);
      }
    }

    /** The Play/Pause button. */
    method Toggle()
      requires Valid()
      modifies this
      ensures Valid()
      ensures State() == ToggleState(old(State()))
    {
      SetAutoPlaying(!autoPlaying);
    }

    /** A click on progress segment or timeline item `k`; both are generated from
        the shot list, so `k` is a valid index. */
    method JumpTo(k: nat)
      requires Valid()
      requires k < |shots|
      modifies this
      ensures Valid()
      ensures State() == JumpState(old(State()), k, |shots|)
    {
      SetIndex(k);
    }

    /** The scheduled timeout firing, if one is scheduled. The callback works from
        the index it captured when it was scheduled. */
    method Tick()
      requires Valid()
      modifies this
      ensures Valid()
      ensures State() == TickState(old(State()), |shots|)
    {
      if pending {
        pending := false;
        if armedAt < |shots| - 1 {
          SetIndex(armedAt + 1);
        } else {
          SetAutoPlaying(false);
        }
      }
    }
  }

  /** The five-shot storyboard, played from mount: the shown indices are 0, 1, 2, 3, 4,
      the fifth timeout switches autoplay off, and a further tick changes nothing. */
  method AutoplayFiveShots() returns (visited: seq<nat>, playingAtEnd: bool, finalIndex: nat)
    ensures visited == [0, 1, 2, 3, 4]
    ensures !playingAtEnd
    ensures finalIndex == 4
  {
    var home := new Home(Shots());
    home.Toggle();
    visited := [home.index];
    home.Tick();
    visited := visited + [home.index];
    home.Tick();
    visited := visited + [home.index];
    home.Tick();
    visited := visited + [home.index];
    home.Tick();
    visited := visited + [home.index];
    home.Tick();
    playingAtEnd := home.autoPlaying;
    home.Tick();
    finalIndex := home.index;
  }

  /** Pausing half-way: once autoplay is switched off, the timeout that was pending
      never advances the slideshow, however many ticks follow. */
  method PauseMidway(k: nat) returns (indexAfterPause: nat)
    ensures indexAfterPause == 2
  {
    var home := new Home(Shots());
    home.Toggle();
    home.Tick();
    home.Tick();
    home.Toggle();
    for t := 0 to k
      invariant home.Valid() && |home.shots| == 5
      invariant home.State() == View(2, false)
    {
      home.Tick();
    }
    indexAfterPause := home.index;
  }
}
