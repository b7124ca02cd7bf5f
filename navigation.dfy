/** The viewer's navigation and autoplay state machine, as pure transitions over a
    state value. `n` is the number of shots; every transition keeps the index below it.

    A tick stands for the six-second autoplay timeout firing. A timer is scheduled
    exactly while autoplay is on (the class in module Page proves that invariant), so
    a tick with autoplay off is a no-op. */
module Navigation {

  /** The view state: which shot is shown and whether autoplay is on. */
  datatype View = View(index: nat, autoPlaying: bool)

  /** The state at mount: the first shot, autoplay off. */
  const Initial: View := View(0, false)

  predicate InRange(v: View, n: nat) {
    v.index < n
  }

  /** The Next button: one step forward, or nothing at the last shot. */
  function NextState(v: View, n: nat): (r: View)
    requires InRange(v, n)
    ensures InRange(r, n)
    ensures r.autoPlaying == v.autoPlaying
  {
    if v.index < n - 1 then v.(index := v.index + 1) else v
  }

  /** The Previous button: one step back, or nothing at the first shot. */
  function PrevState(v: View): (r: View)
    ensures r.index <= v.index
    ensures r.autoPlaying == v.autoPlaying
  {
    if v.index > 0 then v.(index := v.index - 1) else v
  }

  /** The Play/Pause button. */
  function ToggleState(v: View): (r: View)
    ensures r.index == v.index
    ensures r.autoPlaying != v.autoPlaying
  {
    v.(autoPlaying := !v.autoPlaying)
  }

  /** A click on progress segment or timeline item `k`. */
  function JumpState(v: View, k: nat, n: nat): (r: View)
    requires k < n
    ensures InRange(r, n)
    ensures r.index == k
    ensures r.autoPlaying == v.autoPlaying
  {
    v.(index := k)
  }

  /** The autoplay timeout firing: advance one shot, or switch autoplay off at the
      last one. With autoplay off no timer exists, so nothing happens. */
  function TickState(v: View, n: nat): (r: View)
    requires InRange(v, n)
    ensures InRange(r, n)
  {
    if !v.autoPlaying then v
    else if v.index < n - 1 then v.(index := v.index + 1)
    else v.(autoPlaying := false)
  }

  /** The state after `k` consecutive ticks with no user input in between. */
  function Ticks(v: View, n: nat, k: nat): (r: View)
    requires InRange(v, n)
    ensures InRange(r, n)
    decreases k
  {
    if k == 0 then v else Ticks(TickState(v, n), n, k - 1)
  }

  // ---------------------------------------------------------------------------
  // Next and Prev

  /** Next advances by exactly one below the last shot and is a no-op at it. */
  lemma NextStep(v: View, n: nat)
    requires InRange(v, n)
    ensures v.index < n - 1 ==> NextState(v, n) == View(v.index + 1, v.autoPlaying)
    ensures v.index == n - 1 ==> NextState(v, n) == v
  {
  }

  /** Prev goes back by exactly one above the first shot and is a no-op at it. */
  lemma PrevStep(v: View, n: nat)
    requires InRange(v, n)
    ensures InRange(PrevState(v), n)
    ensures v.index > 0 ==> PrevState(v) == View(v.index - 1, v.autoPlaying)
    ensures v.index == 0 ==> PrevState(v) == v
  {
  }

  /** Away from the boundaries, Prev undoes Next and Next undoes Prev. */
  lemma NextPrevInverse(v: View, n: nat)
    requires InRange(v, n)
    ensures v.index < n - 1 ==> PrevState(NextState(v, n)) == v
    ensures v.index > 0 ==> NextState(PrevState(v), n) == v
  {
  }

  /** Next and Prev are no-ops exactly at their boundary. */
  lemma NoOpIffBoundary(v: View, n: nat)
    requires InRange(v, n)
    ensures NextState(v, n) == v <==> v.index == n - 1
    ensures PrevState(v) == v <==> v.index == 0
  {
  }

  // ---------------------------------------------------------------------------
  // Toggle and Jump

  /** Toggling twice is the identity. */
  lemma ToggleInvolution(v: View)
    ensures ToggleState(ToggleState(v)) == v
  {
  }

  /** A jump lands on `k` whatever shot was shown before, and a second jump
      overrides the first. */
  lemma JumpForgetsIndex(v: View, w: View, j: nat, k: nat, n: nat)
    requires j < n && k < n
    requires v.autoPlaying == w.autoPlaying
    ensures JumpState(v, k, n) == View(k, v.autoPlaying)
    ensures JumpState(v, k, n) == JumpState(w, k, n)
    ensures JumpState(JumpState(v, j, n), k, n) == JumpState(v, k, n)
  {
  }

  // ---------------------------------------------------------------------------
  // Autoplay

  /** The three cases of a tick. */
  lemma TickCases(v: View, n: nat)
    requires InRange(v, n)
    ensures v.autoPlaying && v.index < n - 1 ==> TickState(v, n) == View(v.index + 1, true)
    ensures v.autoPlaying && v.index == n - 1 ==> TickState(v, n) == View(v.index, false)
    ensures !v.autoPlaying ==> TickState(v, n) == v
  {
  }

  /** With autoplay off, any number of ticks changes nothing. */
  lemma {:induction false} TicksIdle(v: View, n: nat, k: nat)
    requires InRange(v, n) && !v.autoPlaying
    ensures Ticks(v, n, k) == v
    decreases k
  {
    if k > 0 {
      TicksIdle(v, n, k - 1);
    }
  }

  /** Ticks compose: `j` ticks followed by `k` ticks are `j + k` ticks. */
  lemma {:induction false} TicksAdd(v: View, n: nat, j: nat, k: nat)
    requires InRange(v, n)
    ensures Ticks(Ticks(v, n, j), n, k) == Ticks(v, n, j + k)
    decreases j
  {
    if j > 0 {
      TicksAdd(TickState(v, n), n, j - 1, k);
    }
  }

  /** While autoplaying below the end, `j` ticks advance `j` shots and keep autoplay on. */
  lemma {:induction false} TicksAdvance(i: nat, n: nat, j: nat)
    requires i + j < n
    ensures Ticks(View(i, true), n, j) == View(i + j, true)
    decreases j
  {
    if j > 0 {
      TicksAdvance(i + 1, n, j - 1);
    }
  }

  /** Autoplay from the first shot: the first n - 1 ticks visit shots 1 .. n - 1
      in order, the n-th tick switches autoplay off at the last shot, and every
      later tick leaves that state as it is; there is no wrap-around. */
  lemma AutoplayRun(n: nat)
    requires n >= 1
    ensures forall j :: 0 <= j < n ==> Ticks(View(0, true), n, j) == View(j, true)
    ensures forall m :: m >= n ==> Ticks(View(0, true), n, m) == View(n - 1, false)
  {
    forall j | 0 <= j < n
      ensures Ticks(View(0, true), n, j) == View(j, true)
    {
      TicksAdvance(0, n, j);
    }
    forall m | m >= n
      ensures Ticks(View(0, true), n, m) == View(n - 1, false)
    {
      TicksAdvance(0, n, n - 1);
      TicksAdd(View(0, true), n, n - 1, m - n + 1);
      assert TickState(View(n - 1, true), n) == View(n - 1, false);
      TicksIdle(View(n - 1, false), n, m - n);
    }
  }

  /** Pausing stops the slideshow: after a toggle from autoplaying, no number of
      ticks moves the index. */
  lemma PauseHalts(v: View, n: nat, k: nat)
    requires InRange(v, n) && v.autoPlaying
    ensures Ticks(ToggleState(v), n, k) == View(v.index, false)
  {
    TicksIdle(ToggleState(v), n, k);
  }

  /** Switching autoplay on at the last shot only arms a timer that switches it off
      again, without advancing. */
  lemma PlayAtLastShot(n: nat)
    requires n >= 1
    ensures TickState(ToggleState(View(n - 1, false)), n) == View(n - 1, false)
  {
  }
}
