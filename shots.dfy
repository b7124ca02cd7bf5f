/** The storyboard's content: an ordered, immutable list of shots. */
module ShotData {

  datatype Option<T> = None | Some(value: T)

  /** One narrative unit of the storyboard; `narration` is optional. */
  datatype Shot = Shot(id: nat, title: string, description: string, narration: Option<string>)

  /** A usable shot list: non-empty, with positive ids that increase along the list
      (so ids are unique and their order is the list order). */
  ghost predicate WellFormed(shots: seq<Shot>) {
    |shots| >= 1 &&
    (forall k :: 0 <= k < |shots| ==> shots[k].id >= 1) &&
    (forall i, j :: 0 <= i < j < |shots| ==> shots[i].id < shots[j].id)
  }

  /** Increasing ids are unique ids. */
  lemma IdsUnique(shots: seq<Shot>, i: nat, j: nat)
    requires WellFormed(shots)
    requires i < |shots| && j < |shots| && i != j
    ensures shots[i].id != shots[j].id
  {
  }

  // The narrative texts of the five shots.
  const DESCRIPTION_1: string :=
    "Aerial wide shot of a modern city under heavy midnight rain; skyscrapers shrouded in haze as neon signs glow faintly. Camera slowly pans across glistening rooftops, setting a somber, lonely mood."

  const DESCRIPTION_2: string :=
    "Street-level view outside Elara's apartment building: rainwater cascades off awnings, puddles reflecting red and blue city lights. A lone car splashes past, emphasizing the emptiness."

  const DESCRIPTION_3: string :=
    "Wide shot inside a small apartment: cluttered with crumpled papers, dim lamp casting shadows. Elara sits hunched at her desk by the window, rain streaking the glass behind her."

  const DESCRIPTION_4: string :=
    "Over-the-shoulder shot of Elara staring at a blank page in her notebook, a defeated expression on her face. Her hand grips a pen, unmoving, as thunder rumbles softly in the distance."

  const DESCRIPTION_5: string :=
    "Close-up on Elara's face, illuminated by the cold glow of her desk lamp. Rain droplets on the window behind her blur into bokeh, reflecting her internal storm."

  const NARRATION_2: string :=
    "In a city of endless rain, a young writer named Elara feels her hope for tomorrow washing away."

  /** The five hardcoded shots of "Rain City"; ids run 1..5 in list order. */
  function Shots(): (s: seq<Shot>)
    ensures |s| == 5
    ensures forall k :: 0 <= k < |s| ==> s[k].id == k + 1
    ensures WellFormed(s)
  {
    [ Shot(1, "Scene 1, Shot 1", DESCRIPTION_1, None),
      Shot(2, "Scene 1, Shot 2", DESCRIPTION_2, Some(NARRATION_2)),
      Shot(3, "Scene 1, Shot 3", DESCRIPTION_3, None),
      Shot(4, "Scene 1, Shot 4", DESCRIPTION_4, None),
      Shot(5, "Scene 1, Shot 5", DESCRIPTION_5, None) ]
  }
}
