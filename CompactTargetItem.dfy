/**
 * The distance label of a target row (ui/components/CompactTargetItem.kt,
 * and the copy of the component in ui/features/map/MapScreen.kt). The
 * distance is truncated to whole metres; above 1000 m it is shown in
 * kilometres. The kilometre text (`String.format("%.1f", dist / 1000f)`)
 * is float formatting and is the parameter `formatKm`.
 */
module CompactItem {
  import opened Wrappers
  import opened Text
  import opened TargetModel

  /** `Float.toInt()` on a non-negative distance: rounds toward zero, saturates at `Int.MAX_VALUE`. */
  function ToIntTruncated(d: Distance): (n: nat)
    ensures n <= IntMax
    ensures n as real <= d
    ensures n < IntMax ==> d < (n + 1) as real
  {
    if d.Floor >= IntMax then IntMax else d.Floor
  }

  /** The placeholder the list component shows without a user location. */
  const NoLocation: string := "---"

  /**
   * `distanceStr`: the placeholder without a distance; otherwise whole
   * metres followed by " M", or the kilometre text followed by " KM" when
   * above 1000.
   */
  function DistanceLabel(distance: Option<Distance>, placeholder: string, formatKm: int -> string): string {
    match distance
    case None => placeholder
    case Some(d) =>
      var dist := ToIntTruncated(d);
      if dist > 1000 then formatKm(dist) + " KM" else NatToString(dist) + " M"
  }

  /** The list component: `"---"` when the user location is unknown. */
  function ItemLabel(distance: Option<Distance>, formatKm: int -> string): string {
    DistanceLabel(distance, NoLocation, formatKm)
  }

  /**
   * The distance text the row shows: only with a user location, so the
   * "---" placeholder is computed but never on screen.
   */
  function ShownDistance(distance: Option<Distance>, formatKm: int -> string): (r: Option<string>)
    ensures r.Some? <==> distance.Some?
    ensures r != Some(NoLocation)
  {
    if distance.Some? then
      var s := ItemLabel(distance, formatKm);
      assert s[|s| - 1] == 'M';
      Some(s)
    else None
  }

  lemma NoLocationPlaceholder(formatKm: int -> string)
    ensures ItemLabel(None, formatKm) == "---"
  {
  }

  /**
   * Up to 1000 whole metres the label is the number and " M", and the
   * number reads back as the truncated distance; above, it ends in " KM".
   */
  lemma LabelByThreshold(d: Distance, placeholder: string, formatKm: int -> string)
    ensures var s := DistanceLabel(Some(d), placeholder, formatKm);
            var dist := ToIntTruncated(d);
            |s| >= 2 &&
            (dist <= 1000 ==> s[|s| - 2..] == " M" && ToIntOrNull(s[..|s| - 2]) == Some(dist)) &&
            (dist > 1000 ==> |s| >= 3 && s[|s| - 3..] == " KM")
  {
    var dist := ToIntTruncated(d);
    var s := DistanceLabel(Some(d), placeholder, formatKm);
    if dist <= 1000 {
      var n := NatToString(dist);
      assert s == n + " M";
      assert s[..|s| - 2] == n;
      DigitsParse(n);
      DecimalValueOfNatToString(dist);
    } else {
      assert s == formatKm(dist) + " KM";
    }
  }

  /** The label ends in " M" exactly when the distance is below 1001 m. */
  lemma MetresIff(d: Distance, placeholder: string, formatKm: int -> string)
    ensures var s := DistanceLabel(Some(d), placeholder, formatKm);
            (|s| >= 2 && s[|s| - 2..] == " M") <==> d < 1001.0
  {
    LabelByThreshold(d, placeholder, formatKm);
    var s := DistanceLabel(Some(d), placeholder, formatKm);
    if ToIntTruncated(d) > 1000 {
      assert s[|s| - 2] == 'K';
    }
  }

  /** Exactly 1000 m reads "1000 M"; 1000.9 m is truncated to the same. */
  lemma ThousandMetres(placeholder: string, formatKm: int -> string)
    ensures DistanceLabel(Some(1000.0), placeholder, formatKm) == "1000 M"
    ensures DistanceLabel(Some(1000.9), placeholder, formatKm) == "1000 M"
  {
    assert ToIntTruncated(1000.9) == 1000;
    assert NatToString(1000) == "1000" by {
      assert NatToString(1) == "1";
      assert NatToString(10) == "10";
      assert NatToString(100) == "100";
    }
  }
}
