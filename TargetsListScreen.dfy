/**
 * The target list screen (ui/features/targets/TargetsListScreen.kt): the
 * search filter, the three sort orders, the header counts, the screen's
 * own state, and the swipe-to-delete rule with its undo.
 */
module TargetsList {
  import opened Wrappers
  import opened Text
  import opened TargetModel
  import StableSort
  import opened AppDatabase
  import opened TargetRepository
  import opened Home

  datatype SortOption = NAME | ACTIVE | RADIUS {
    function Label(): string {
      match this
      case NAME => "İsim (A-Z)"
      case ACTIVE => "Durum (Önce Aktif)"
      case RADIUS => "Yarıçap (Önce Büyük)"
    }
  }

  /** `it.name.contains(searchQuery, ignoreCase = true)` */
  function MatchesQuery(query: string): TargetLocation -> bool {
    (t: TargetLocation) => Contains(t.name, query, true)
  }

  /** `compareBy { it.name }`: names in ascending string order. */
  function ByName(a: TargetLocation, b: TargetLocation): bool {
    LexLe(a.name, b.name)
  }

  /** `compareByDescending { it.isActive }`: `true` sorts above `false`, so active targets come first. */
  function ActiveFirst(a: TargetLocation, b: TargetLocation): bool {
    a.isActive || !b.isActive
  }

  /** `compareByDescending { it.radiusMeters }` */
  function LargerRadiusFirst(a: TargetLocation, b: TargetLocation): bool {
    a.radiusMeters >= b.radiusMeters
  }

  function Order(option: SortOption): (TargetLocation, TargetLocation) -> bool {
    match option
    case NAME => ByName
    case ACTIVE => ActiveFirst
    case RADIUS => LargerRadiusFirst
  }

  lemma OrderIsPreorder(option: SortOption)
    ensures StableSort.TotalPreorder(Order(option))
  {
    match option
    case NAME =>
      forall a: TargetLocation, b: TargetLocation
        ensures ByName(a, b) || ByName(b, a)
      {
        LexLeTotal(a.name, b.name);
      }
      forall a: TargetLocation, b: TargetLocation, c: TargetLocation | ByName(a, b) && ByName(b, c)
        ensures ByName(a, c)
      {
        LexLeTransitive(a.name, b.name, c.name);
      }
    case ACTIVE =>
    case RADIUS =>
  }

  /** The targets whose name contains the query, in stored order. */
  function Matching(targets: seq<TargetLocation>, query: string): seq<TargetLocation> {
    StableSort.Filter(targets, MatchesQuery(query))
  }

  /** `filteredTargets`: the matching targets, sorted stably by the chosen option. */
  function FilteredTargets(targets: seq<TargetLocation>, query: string, option: SortOption): (r: seq<TargetLocation>)
    ensures multiset(r) == multiset(Matching(targets, query))
    ensures |r| == |Matching(targets, query)|
  {
    assert |multiset(StableSort.Sort(Matching(targets, query), Order(option)))| == |multiset(Matching(targets, query))|;
    StableSort.Sort(Matching(targets, query), Order(option))
  }

  /** A target is listed iff it is stored and its name contains the query, ignoring case. */
  lemma ListedIff(targets: seq<TargetLocation>, query: string, option: SortOption, t: TargetLocation)
    ensures t in FilteredTargets(targets, query, option) <==> t in targets && Contains(t.name, query, true)
  {
    var m := Matching(targets, query);
    var r := FilteredTargets(targets, query, option);
    assert t in r <==> t in multiset(r);
    assert t in m <==> t in multiset(m);
    if t in m {
      var i :| 0 <= i < |m| && m[i] == t;
    }
    if t in targets && MatchesQuery(query)(t) {
      var i :| 0 <= i < |targets| && targets[i] == t;
    }
  }

  /** The empty query lists every target (each as often as it is stored). */
  lemma EmptyQueryListsAll(targets: seq<TargetLocation>, option: SortOption)
    ensures multiset(FilteredTargets(targets, "", option)) == multiset(targets)
  {
    forall t: TargetLocation
      ensures MatchesQuery("")(t)
    {
      ContainsEmpty(t.name, true);
    }
    StableSort.FilterCongruent(targets, MatchesQuery(""), _ => true);
    AllPass(targets);
  }

  lemma {:induction false} AllPass(s: seq<TargetLocation>)
    ensures StableSort.Filter(s, _ => true) == s
  {
    if s != [] {
      AllPass(s[1..]);
    }
  }

  /** Each option yields its order: names ascending, active first, radius non-increasing. */
  lemma SortedByOption(targets: seq<TargetLocation>, query: string, option: SortOption)
    ensures var r := FilteredTargets(targets, query, option);
            option == NAME ==> forall i, j :: 0 <= i < j < |r| ==> LexLe(r[i].name, r[j].name)
    ensures var r := FilteredTargets(targets, query, option);
            option == ACTIVE ==> forall i, j :: 0 <= i < j < |r| ==> r[i].isActive || !r[j].isActive
    ensures var r := FilteredTargets(targets, query, option);
            option == RADIUS ==> forall i, j :: 0 <= i < j < |r| ==> r[i].radiusMeters >= r[j].radiusMeters
  {
    OrderIsPreorder(option);
    StableSort.SortSorted(Matching(targets, query), Order(option));
  }

  function IsActive(t: TargetLocation): bool {
    t.isActive
  }

  function IsInactive(t: TargetLocation): bool {
    !t.isActive
  }

  /**
   * Sorting by status is stable: the active matches in stored order, then
   * the inactive ones in stored order.
   */
  lemma ActiveSortIsPartition(targets: seq<TargetLocation>, query: string)
    ensures FilteredTargets(targets, query, ACTIVE) == StableSort.Filter(Matching(targets, query), IsActive) + StableSort.Filter(Matching(targets, query), IsInactive)
  {
    var m := Matching(targets, query);
    var r := FilteredTargets(targets, query, ACTIVE);
    var on := TargetLocation("", "", 0.0, 0.0, 0, true, 0);
    var off := on.(isActive := false);
    OrderIsPreorder(ACTIVE);
    StableSort.SortSorted(m, ActiveFirst);
    StableSort.SortStable(m, ActiveFirst, on);
    StableSort.SortStable(m, ActiveFirst, off);
    StableSort.FilterCongruent(r, StableSort.EquivTo(ActiveFirst, on), IsActive);
    StableSort.FilterCongruent(m, StableSort.EquivTo(ActiveFirst, on), IsActive);
    StableSort.FilterCongruent(r, StableSort.EquivTo(ActiveFirst, off), IsInactive);
    StableSort.FilterCongruent(m, StableSort.EquivTo(ActiveFirst, off), IsInactive);
    SortedSplits(r);
  }

  /** A sequence with every active target before every inactive one is its actives followed by its inactives. */
  lemma {:induction false} SortedSplits(r: seq<TargetLocation>)
    requires forall i, j :: 0 <= i < j < |r| ==> r[i].isActive || !r[j].isActive
    ensures r == StableSort.Filter(r, IsActive) + StableSort.Filter(r, IsInactive)
  {
    if r != [] {
      SortedSplits(r[1..]);
      if !r[0].isActive {
        StableSort.FilterNone(r[1..], IsActive);
      }
    }
  }

  /** The matching list is as long as the number of targets whose name contains the query. */
  lemma MatchingCount(targets: seq<TargetLocation>, query: string)
    ensures |Matching(targets, query)| == |set i | 0 <= i < |targets| && Contains(targets[i].name, query, true)|
  {
    StableSort.FilterCount(targets, MatchesQuery(query));
    assert StableSort.Positions(targets, MatchesQuery(query))
        == (set i | 0 <= i < |targets| && Contains(targets[i].name, query, true));
  }

  /** `targets.count { it.isActive }` as the number of active positions. */
  lemma ActiveCount(targets: seq<TargetLocation>)
    ensures |StableSort.Filter(targets, IsActive)| == |set i | 0 <= i < |targets| && targets[i].isActive|
  {
    var p: TargetLocation -> bool := IsActive;
    StableSort.FilterCount(targets, p);
    assert StableSort.Positions(targets, p) == (set i | 0 <= i < |targets| && targets[i].isActive);
  }

  /**
   * The header's numbers: how many targets match the query (whatever the sort
   * option), and how many of ALL targets are active.
   */
  function HeaderCounts(targets: seq<TargetLocation>, query: string, option: SortOption): (r: (nat, nat))
    ensures r.0 == |set i | 0 <= i < |targets| && Contains(targets[i].name, query, true)|
    ensures r.1 == |set i | 0 <= i < |targets| && targets[i].isActive|
  {
    MatchingCount(targets, query);
    ActiveCount(targets);
    (|FilteredTargets(targets, query, option)|, |StableSort.Filter(targets, IsActive)|)
  }

  /** `"${filteredTargets.size} SONUÇ | ${targets.count { it.isActive }} AKTİF"` */
  function HeaderText(targets: seq<TargetLocation>, query: string, option: SortOption): (s: string)
    ensures s == NatToString(|set i | 0 <= i < |targets| && Contains(targets[i].name, query, true)|) + " SONUÇ | "
               + NatToString(|set i | 0 <= i < |targets| && targets[i].isActive|) + " AKTİF"
  {
    var (listed, active) := HeaderCounts(targets, query, option);
    NatToString(listed) + " SONUÇ | " + NatToString(active) + " AKTİF"
  }

  /** The screen's remembered state. */
  class TargetsListState {
    var searchQuery: string
    var sortOption: SortOption
    var showSortMenu: bool

    constructor ()
      ensures searchQuery == "" && sortOption == NAME && !showSortMenu
    {
      searchQuery := "";
      sortOption := NAME;
      showSortMenu := false;
    }

    /** What the list shows for the current targets. */
    function Shown(targets: seq<TargetLocation>): seq<TargetLocation>
      reads this
    {
      FilteredTargets(targets, searchQuery, sortOption)
    }

    /** The search field's `onValueChange`. */
    method OnQueryChange(query: string)
      modifies this
      ensures searchQuery == query && sortOption == old(sortOption) && showSortMenu == old(showSortMenu)
    {
      searchQuery := query;
    }

    /** The clear button of the search field. */
    method OnClearQuery()
      modifies this
      ensures searchQuery == "" && sortOption == old(sortOption) && showSortMenu == old(showSortMenu)
    {
      searchQuery := "";
    }

    /** The sort button opens the menu. */
    method OnSortButton()
      modifies this
      ensures showSortMenu && searchQuery == old(searchQuery) && sortOption == old(sortOption)
    {
      showSortMenu := true;
    }

    /** The menu's `onDismissRequest`. */
    method OnSortMenuDismiss()
      modifies this
      ensures !showSortMenu && searchQuery == old(searchQuery) && sortOption == old(sortOption)
    {
      showSortMenu := false;
    }

    /** A menu item: selects its option and closes the menu. */
    method OnSortSelected(option: SortOption)
      modifies this
      ensures sortOption == option && !showSortMenu && searchQuery == old(searchQuery)
    {
      sortOption := option;
      showSortMenu := false;
    }
  }

  datatype SwipeValue = StartToEnd | EndToStart | Settled

  /**
   * `confirmValueChange`: only an end-to-start swipe is accepted, and it
   * deletes the target; any other value changes nothing.
   */
  method OnSwipe(vm: HomeViewModel, target: TargetLocation, value: SwipeValue) returns (accepted: bool)
    requires vm.repository.dao.Valid()
    modifies vm.repository.dao
    ensures vm.repository.dao.Valid()
    ensures accepted <==> value == EndToStart
    ensures accepted ==> vm.repository.dao.rows == Delete(old(vm.repository.dao.rows), target.id)
    ensures !accepted ==> vm.repository.dao.rows == old(vm.repository.dao.rows)
  {
    if value == EndToStart {
      vm.DeleteTarget(target.id);
      accepted := true;
    } else {
      accepted := false;
    }
  }

  /** The snackbar's undo action: adds the target back through `addTarget`. */
  method OnUndo(vm: HomeViewModel, target: TargetLocation, newId: string)
    requires vm.repository.dao.Valid()
    modifies vm.repository.dao
    ensures vm.repository.dao.Valid()
    ensures vm.repository.dao.rows == Upsert(old(vm.repository.dao.rows), DomainToEntity(NewTarget(newId, target.name, target.latitude, target.longitude, target.radiusMeters)))
  {
    vm.AddTarget(target.name, target.latitude, target.longitude, target.radiusMeters, newId);
  }

  /**
   * Delete then undo restores name, position and radius, but under the new
   * id, active, and with `lastTriggered` reset to 0.
   */
  lemma UndoRestoresWithNewId(table: Table, target: TargetLocation, newId: string)
    ensures var after := Upsert(Delete(table, target.id), DomainToEntity(NewTarget(newId, target.name, target.latitude, target.longitude, target.radiusMeters)));
            Find(after, newId) == Some(target.(id := newId, isActive := true, lastTriggered := 0)) &&
            (newId != target.id ==> Find(after, target.id) == None)
  {
  }

  /** The row's switch: `toggleTargetActive(target.id, !target.isActive)`. */
  method OnToggle(vm: HomeViewModel, target: TargetLocation)
    requires vm.repository.dao.Valid()
    modifies vm.repository.dao
    ensures vm.repository.dao.Valid()
    ensures vm.repository.dao.rows == SetActive(old(vm.repository.dao.rows), target.id, !target.isActive)
  {
    vm.ToggleTargetActive(target.id, !target.isActive);
  }
}
