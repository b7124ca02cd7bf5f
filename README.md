# Rain City storyboard viewer: navigation and autoplay

The viewer shows a fixed, ordered list of five shots, one at a time. The user can
step with Previous and Next, jump to a shot by clicking its progress segment or its
timeline item, and switch autoplay on and off. While autoplay is on, a six-second
timeout advances one shot. At the last shot the timeout switches autoplay off. It
never wraps around.

This project models that state machine of the `Home` component and proves its
properties. It is parameterised over the number of shots `n >= 1`. The hardcoded
five-shot list is one instance.

- `shots.dfy`, module `ShotData`: the `Shot` record and the hardcoded list.
- `navigation.dfy`, module `Navigation`: the transitions as pure functions over a
  `View(index, autoPlaying)` value, with lemmas. These cover the boundary no-ops,
  the Next/Prev inverse, toggle involution, jump overriding, the autoplay run and pausing.
- `display.dfy`, module `Display`: the facts the markup derives from the state.
  These are the "k / N" counter, the lit progress segments, the highlighted
  timeline item and the disabled buttons. Each is tied to the state by a lemma or by its own ensures.
- `page.dfy`, module `Page`: class `Home` holds the component's state fields
  `index` and `autoPlaying`. It also holds the scheduled timeout, as a flag
  `pending` plus `armedAt`, the index that the timeout's callback captured.
  Each handler sets the fields the way the component's setters do. A setter with
  an unchanged value does nothing. A setter with a changed value re-runs the
  autoplay effect, which cancels the old timeout and schedules a new one if
  autoplay is on. The object invariant `Valid()` says four things:
  - the shot list is well formed: non-empty, with positive, increasing ids, so the ids used as timeline keys are unique;
  - the index is in range;
  - a timeout is scheduled exactly while autoplay is on;
  - the scheduled callback captured the current index.

  So the callback's use of the index it captured is never stale. Each handler
  (`Next`, `Prev`, `Toggle`, `JumpTo`, `Tick`) is proved to produce exactly the
  state that the matching `Navigation` function gives.

The timer is an abstract `Tick` event, not real time. A tick with no scheduled
timeout changes nothing.

## Model

| member | source | states |
|---|---|---|
| `ShotData.Shots` | app/page.tsx:13-40 | the hardcoded list has five shots whose ids are 1..5 in list order, so it is non-empty with unique, increasing ids |
| `ShotData.IdsUnique` | app/page.tsx:178-180 | in a well-formed list, distinct positions have distinct ids (the ids serve as timeline keys) |
| `Navigation.NextState` | app/page.tsx:76-80 | Next keeps the index in range and never touches the autoplay flag |
| `Navigation.PrevState` | app/page.tsx:82-86 | Prev never raises the index and never touches the autoplay flag |
| `Navigation.ToggleState` | app/page.tsx:88-90 | Play/Pause flips the autoplay flag and keeps the index |
| `Navigation.JumpState` | app/page.tsx:149-156 | a jump to a valid shot `k` shows shot `k` and leaves the autoplay flag unchanged |
| `Navigation.TickState` | app/page.tsx:63-74 | a timer tick keeps the index in range |
| `Navigation.Ticks` | app/page.tsx:63-74 | any number of consecutive ticks keeps the index in range |
| `Navigation.NextStep` | app/page.tsx:76-80 | below the last shot Next yields index + 1 with autoplay as before; at the last shot it changes nothing |
| `Navigation.PrevStep` | app/page.tsx:82-86 | above the first shot Prev yields index - 1 with autoplay as before; at the first shot it changes nothing; the result stays in range |
| `Navigation.NextPrevInverse` | app/page.tsx:76-86 | away from the boundaries Prev undoes Next and Next undoes Prev |
| `Navigation.NoOpIffBoundary` | app/page.tsx:76-86 | Next is a no-op iff at the last shot; Prev is a no-op iff at the first |
| `Navigation.ToggleInvolution` | app/page.tsx:88-90 | toggling twice restores the state |
| `Navigation.JumpForgetsIndex` | app/page.tsx:178-185 | a jump to `k` yields shot `k` with autoplay as before, whatever the previous index, and a later jump overrides an earlier one |
| `Navigation.TickCases` | app/page.tsx:65-71 | autoplaying below the end, a tick advances one shot and keeps autoplay on; at the last shot it switches autoplay off and keeps the index; with autoplay off it changes nothing |
| `Navigation.TicksIdle` | app/page.tsx:63-74 | with autoplay off, any number of ticks changes nothing |
| `Navigation.TicksAdvance` | app/page.tsx:65-68 | autoplaying from shot i, j ticks with i + j < n reach shot i + j with autoplay still on |
| `Navigation.AutoplayRun` | app/page.tsx:63-74 | from the first shot with autoplay on, ticks 0..n-1 visit shots 0..n-1 in order; from the n-th tick on, the state is the last shot with autoplay off (no wrap-around) |
| `Navigation.PauseHalts` | app/page.tsx:63-90 | after pausing, no number of ticks moves the index |
| `Navigation.PlayAtLastShot` | app/page.tsx:63-90 | turning autoplay on at the last shot leads to one tick that turns it off without advancing |
| `Display.Counter` | app/page.tsx:145-147 | the counter shows a position between 1 and the number of shots, out of the number of shots |
| `Display.ActiveSegmentsMatchCounter` | app/page.tsx:148-158 | exactly index + 1 progress segments are lit, matching the counter's position, and they are the first index + 1 |
| `Display.OneTimelineItemActive` | app/page.tsx:177-190 | exactly one timeline item is highlighted, and it is the shown shot's |
| `Display.Segments` | app/page.tsx:153 | one flag per shot; segment k is lit iff k is at or before the shown index (the lit count is proved in `ActiveSegmentsMatchCounter`) |
| `Display.Timeline` | app/page.tsx:182 | one flag per shot; item k is highlighted iff k is the shown index (exactly-one is proved in `OneTimelineItemActive`) |
| `Display.PrevDisabled` | app/page.tsx:139 | the Previous button is disabled iff Prev would change nothing |
| `Display.NextDisabled` | app/page.tsx:171 | for an in-range index, the Next button is disabled iff Next would change nothing |
| `Page.Home.constructor` | app/page.tsx:43-44 | for a well-formed shot list, at mount the viewer shows the first shot with autoplay off and no timeout scheduled |
| `Page.Home.Rearm` | app/page.tsx:63-74 | the effect cancels the scheduled timeout and schedules a new one, capturing the current index, exactly when autoplay is on |
| `Page.Home.SetIndex` | app/page.tsx:63-74 | setting the index re-runs the effect only when the value changes; otherwise the scheduled timeout is left alone |
| `Page.Home.SetAutoPlaying` | app/page.tsx:63-74 | setting the flag re-runs the effect only when the value changes; otherwise the scheduled timeout is left alone |
| `Page.Home.Next` | app/page.tsx:76-80 | keeps the invariant; the new state is `NextState` of the old one |
| `Page.Home.Prev` | app/page.tsx:82-86 | keeps the invariant; the new state is `PrevState` of the old one |
| `Page.Home.Toggle` | app/page.tsx:88-90 | keeps the invariant; the new state is `ToggleState` of the old one, so pausing cancels the scheduled timeout and playing schedules one |
| `Page.Home.JumpTo` | app/page.tsx:149-184 | for an index from the shot list, keeps the invariant; the new state is `JumpState` of the old one |
| `Page.Home.Tick` | app/page.tsx:63-74 | the timeout's callback, working from its captured index, keeps the invariant and yields `TickState` of the old state |
| `Page.AutoplayFiveShots` | app/page.tsx:63-74 | on the five-shot list, playing from mount shows shots 0, 1, 2, 3, 4; the next timeout turns autoplay off; a further tick leaves the index at 4 |
| `Page.PauseMidway` | app/page.tsx:63-90 | on the five-shot list, pausing after two advances leaves the index at 2 through any number `k` of ticks that follow |

## Left out

- The rain overlay (app/page.tsx:94-106) is left out. It is cosmetic, and it is built from `Math.random()` and floating-point CSS values.
- The ambient `Audio` handle (app/page.tsx:48-61) is left out. It is a browser object with no observable logic; no source is ever set.
- Real time is left out. The six-second delay, `setTimeout`/`clearTimeout` and React's render and effect scheduling become an abstract `Tick` plus the `pending`/`armedAt` fields. Each handler and its effect run as one atomic step. So the model does not capture that re-arming restarts the six-second countdown. Nor does it capture that a jump to the shot already shown leaves the countdown running.
- The markup, class-name strings and CSS modules (app/page.tsx:92-193) are left out. So are the shown shot's title, description and narration (app/page.tsx:117-130). Only the derived counts and flags are modelled.
- app/layout.tsx is not part of this model. It holds static page metadata and an HTML wrapper.
- `Page.Home.constructor` requires a well-formed shot list: non-empty, with positive, increasing ids. The component has no such check because its only list is the hardcoded five-shot one, which `ShotData.Shots` proves well formed. The component relies on both facts: it indexes the list unguarded, and it uses the ids as timeline keys.
