/**
 * The copy of the target editor kept in ui/home/HomeScreen.kt. It shares
 * the form rules of module AddEdit (same initial values, radius filter,
 * radius parse and save) and differs only in the camera's fallback
 * position, Istanbul.
 */
module HomeEditor {
  import opened Wrappers
  import opened Text
  import opened TargetModel
  import opened AppDatabase
  import opened TargetRepository
  import opened AddEdit

  /** `LatLng(41.0082, 28.9784)` */
  const Istanbul: (real, real) := (41.0082, 28.9784)

  /** The camera's first position: the edited target, otherwise Istanbul. */
  function HomeInitialCenter(existing: Option<TargetLocation>): (c: (real, real))
    ensures existing.None? ==> c == Istanbul
    ensures existing.Some? ==> c == (existing.value.latitude, existing.value.longitude)
  {
    InitialCenter(existing, Istanbul)
  }

  /**
   * Opening this editor: the same initial name and radius text as the
   * other screen, both reading back as the edited target's values or as
   * "" and 100.
   */
  method OpenEditor(targets: seq<TargetLocation>, targetId: Option<string>) returns (form: EditorForm)
    requires forall i :: 0 <= i < |targets| ==> InIntRange(targets[i].radiusMeters)
    ensures fresh(form)
    ensures form.targetId == targetId && form.existing == FindTarget(targets, targetId)
    ensures form.name == (if form.existing.Some? then form.existing.value.name else "")
    ensures RadiusValue(form.radiusText) == (if form.existing.Some? then form.existing.value.radiusMeters else 100)
  {
    form := new EditorForm(targets, targetId);
    InitialRadiusRoundTrip(form.existing);
  }

  /** The radius text after a run of edits through the digit filter. */
  function AfterEdits(radiusText: string, edits: seq<string>): (text: string)
    decreases |edits|
  {
    if edits == [] then radiusText else AfterEdits(AcceptRadiusEdit(radiusText, edits[0]), edits[1..])
  }

  /**
   * Whatever is typed, the field stays all digits, so the radius read from
   * it (and saved) lies between 0 and the largest `Int`.
   */
  lemma {:induction false} EditedRadiusInRange(radiusText: string, edits: seq<string>)
    requires AllDigits(radiusText)
    ensures AllDigits(AfterEdits(radiusText, edits))
    ensures 0 <= RadiusValue(AfterEdits(radiusText, edits)) <= IntMax
    decreases |edits|
  {
    if edits == [] {
      RadiusValueOfDigits(radiusText);
    } else {
      EditedRadiusInRange(AcceptRadiusEdit(radiusText, edits[0]), edits[1..]);
    }
  }

  /**
   * Opening an existing target and saving it untouched moves it to the new
   * id with its name, position and radius, and re-activates it with a reset
   * trigger time.
   */
  lemma ResaveResetsTarget(table: Table, e: TargetLocation, newId: string)
    requires InIntRange(e.radiusMeters) && newId != e.id
    ensures Find(Saved(table, Some(e), InitialName(Some(e)), InitialRadiusText(Some(e)), HomeInitialCenter(Some(e)), newId), e.id) == None
    ensures Find(Saved(table, Some(e), InitialName(Some(e)), InitialRadiusText(Some(e)), HomeInitialCenter(Some(e)), newId), newId) ==
            Some(e.(id := newId, isActive := true, lastTriggered := 0))
  {
    InitialRadiusRoundTrip(Some(e));
    EditReplacesId(table, e, InitialName(Some(e)), InitialRadiusText(Some(e)), HomeInitialCenter(Some(e)), newId);
  }
}
