/**
 * The target editor (ui/features/add_edit/AddEditScreen.kt): a name and a
 * radius text, initialised from the target being edited; the radius field
 * accepts only digits and reads as 100 when it does not parse; saving a
 * non-blank name deletes the edited target and adds a new one. The map
 * centre at the moment of saving and the new target's UUID are parameters.
 * The same form is repeated in ui/home/HomeScreen.kt (module HomeEditor).
 */
module AddEdit {
  import opened Wrappers
  import opened Text
  import opened TargetModel
  import opened AppDatabase
  import opened TargetRepository
  import opened Home

  /** The radius used when the text does not parse. */
  const DefaultRadius: int := 100

  /**
   * `targets.find { it.id == targetId }`: the first target with the id, or
   * none; a null `targetId` matches nothing.
   */
  function FindTarget(targets: seq<TargetLocation>, targetId: Option<string>): (r: Option<TargetLocation>)
    ensures r.Some? ==> exists i :: 0 <= i < |targets| && targets[i] == r.value && targetId == Some(targets[i].id)
                                   && forall j :: 0 <= j < i ==> targetId != Some(targets[j].id)
    ensures r.Some? ==> r.value in targets && targetId == Some(r.value.id)
    ensures r.None? ==> forall i :: 0 <= i < |targets| ==> targetId != Some(targets[i].id)
  {
    if targets == [] then None
    else if targetId == Some(targets[0].id) then Some(targets[0])
    else
      var r := FindTarget(targets[1..], targetId);
      if r.Some? then
        var k :| 0 <= k < |targets[1..]| && targets[1..][k] == r.value && targetId == Some(targets[1..][k].id)
                 && forall j :: 0 <= j < k ==> targetId != Some(targets[1..][j].id);
        assert targets[k + 1] == r.value && forall j :: 0 <= j < k + 1 ==> targetId != Some(targets[j].id);
        r
      else r
  }

  /** `existingTarget?.name ?: ""` */
  function InitialName(existing: Option<TargetLocation>): (name: string) {
    match existing
    case Some(t) => t.name
    case None => ""
  }

  /** `existingTarget?.radiusMeters?.toString() ?: "100"` */
  function InitialRadiusText(existing: Option<TargetLocation>): (text: string) {
    match existing
    case Some(t) => IntToString(t.radiusMeters)
    case None => "100"
  }

  /** The camera's first position: the edited target, otherwise `fallback`. */
  function InitialCenter(existing: Option<TargetLocation>, fallback: (real, real)): (center: (real, real)) {
    match existing
    case Some(t) => (t.latitude, t.longitude)
    case None => fallback
  }

  /** AddEditScreen's camera falls back to (0, 0). */
  function AddEditInitialCenter(existing: Option<TargetLocation>): (c: (real, real))
    ensures existing.None? ==> c == (0.0, 0.0)
    ensures existing.Some? ==> c == (existing.value.latitude, existing.value.longitude)
  {
    InitialCenter(existing, (0.0, 0.0))
  }

  /** `radiusStr.toIntOrNull() ?: 100` */
  function RadiusValue(radiusText: string): (radius: int) {
    ToIntOrNull(radiusText).GetOr(DefaultRadius)
  }

  /** A digit text reads as its value when that fits an `Int`, and as 100 when empty or too large. */
  lemma RadiusValueOfDigits(radiusText: string)
    requires AllDigits(radiusText)
    ensures RadiusValue(radiusText) == if radiusText != [] && DecimalValue(radiusText) <= IntMax then DecimalValue(radiusText) else 100
  {
    if radiusText != [] {
      DigitsParse(radiusText);
    }
  }

  /** The initial text reads back as the edited target's radius, or as 100 for a new target. */
  lemma InitialRadiusRoundTrip(existing: Option<TargetLocation>)
    requires existing.Some? ==> InIntRange(existing.value.radiusMeters)
    ensures RadiusValue(InitialRadiusText(existing)) == if existing.Some? then existing.value.radiusMeters else 100
  {
    match existing
    case Some(t) => ParseIntToString(t.radiusMeters);
    case None =>
      assert NatToString(1) == "1" && NatToString(10) == "10" && IntToString(100) == "100";
      ParseIntToString(100);
  }

  /** The radius field's `onValueChange`: the edit is taken iff every character is a digit. */
  function AcceptRadiusEdit(current: string, proposed: string): (r: string)
    ensures r == proposed <==> AllDigits(proposed) || proposed == current
    ensures AllDigits(current) ==> AllDigits(r)
  {
    if AllDigits(proposed) then proposed else current
  }

  /** The crosshair is teal (not red) iff the radius read is positive; an empty field reads 100, so it is teal. */
  function CrosshairTeal(radiusText: string): (teal: bool)
    ensures teal <==> RadiusValue(radiusText) > 0
  {
    RadiusValue(radiusText) > 0
  }

  lemma CrosshairExamples()
    ensures CrosshairTeal("") && !CrosshairTeal("0")
  {
    ParseIntToString(0);
    assert IntToString(0) == "0";
  }

  /**
   * The editor's form state. `existing` is the target found when the form
   * opened, which seeds the keyless `remember` of the name and the radius;
   * the save looks `targetId` up again in the list current at the click.
   */
  class EditorForm {
    const targetId: Option<string>
    const existing: Option<TargetLocation>
    var name: string
    var radiusText: string

    /** Opening the editor for `targetId` over the current target list. */
    constructor (targets: seq<TargetLocation>, targetId: Option<string>)
      ensures this.targetId == targetId && existing == FindTarget(targets, targetId)
      ensures name == InitialName(existing) && radiusText == InitialRadiusText(existing)
    {
      this.targetId := targetId;
      existing := FindTarget(targets, targetId);
      name := InitialName(FindTarget(targets, targetId));
      radiusText := InitialRadiusText(FindTarget(targets, targetId));
    }

    method OnNameChange(text: string)
      modifies this
      ensures name == text && radiusText == old(radiusText)
    {
      name := text;
    }

    method OnRadiusChange(text: string)
      modifies this
      ensures radiusText == AcceptRadiusEdit(old(radiusText), text) && name == old(name)
    {
      if AllDigits(text) {
        radiusText := text;
      }
    }

    /**
     * The save button: with a non-blank name, deletes the target that
     * `targetId` finds in the view model's list at the click (if any), as
     * `remember(targetId, targets)` re-derives it on every emission, and adds a new one at `center` with the radius read from the
     * field, under `newId`; `saved` is the call of `onBack`. A blank name
     * changes nothing. No check is made on the radius.
     */
    method Save(vm: HomeViewModel, center: (real, real), newId: string) returns (saved: bool)
      requires vm.repository.dao.Valid()
      modifies vm.repository.dao
      ensures vm.repository.dao.Valid()
      ensures saved <==> !IsBlank(name)
      ensures !saved ==> vm.repository.dao.rows == old(vm.repository.dao.rows)
      ensures saved ==> (vm.repository.dao.rows ==
              Saved(old(vm.repository.dao.rows), FindTarget(vm.targets, targetId), name, radiusText, center, newId))
    {
      saved := false;
      if !IsBlank(name) {
        var current := FindTarget(vm.targets, targetId);
        if current.Some? {
          vm.DeleteTarget(current.value.id);
        }
        vm.AddTarget(name, center.0, center.1, RadiusValue(radiusText), newId);
        saved := true;
      }
    }
  }

  /** The table after a save of `name`, `radiusText` at `center`. */
  function Saved(table: Table, existing: Option<TargetLocation>, name: string, radiusText: string, center: (real, real), newId: string): (table': Table) {
    Upsert(if existing.Some? then Delete(table, existing.value.id) else table,
           DomainToEntity(NewTarget(newId, name, center.0, center.1, RadiusValue(radiusText))))
  }

  /**
   * A form opened before the list first arrived finds nothing, yet its save
   * still replaces the target once the list holds it, since the lookup is
   * made again at the click.
   */
  lemma LateListStillReplaces(table: Table, x: TargetLocation, name: string, radiusText: string, center: (real, real), newId: string)
    requires newId != x.id
    ensures FindTarget([], Some(x.id)) == None
    ensures Find(Saved(table, FindTarget([x], Some(x.id)), name, radiusText, center, newId), x.id) == None
  {
    EditReplacesId(table, x, name, radiusText, center, newId);
  }

  /**
   * Editing replaces the target: the old id is gone, and the new id holds an
   * active, never-triggered copy with the form's values. A radius of 0 is
   * stored as it is.
   */
  lemma EditReplacesId(table: Table, e: TargetLocation, name: string, radiusText: string, center: (real, real), newId: string)
    requires newId != e.id
    ensures Find(Saved(table, Some(e), name, radiusText, center, newId), e.id) == None
    ensures Find(Saved(table, Some(e), name, radiusText, center, newId), newId) ==
            Some(TargetLocation(newId, name, center.0, center.1, RadiusValue(radiusText), true, 0))
    ensures RadiusValue("0") == 0
  {
    ParseIntToString(0);
    assert IntToString(0) == "0";
  }
}
