/** The school map: ten zones, one per scenario step, laid out on the two pages of
    a book, each drawn with a status derived from the session's progress, and a
    progress bar of ten cells with a completed-steps counter. */
module SchoolMap {
  import opened Common

  datatype Page = LeftPage | RightPage

  /** A zone of the map: the step it stands for and the page it is drawn on
      (names, icons and descriptions are prose and are not modelled). */
  datatype MapZone = MapZone(id: int, category: Page)

  const MAP_ZONES: seq<MapZone> := [
    MapZone(1, LeftPage), MapZone(2, LeftPage), MapZone(3, LeftPage), MapZone(4, LeftPage), MapZone(5, LeftPage),
    MapZone(6, RightPage), MapZone(7, RightPage), MapZone(8, RightPage), MapZone(9, RightPage), MapZone(10, RightPage)
  ]

  datatype ZoneStatus = Completed | Current | Next | Locked

  /** `getZoneStatus`: completed wins over current, current over next, and every
      other zone is locked. */
  function GetZoneStatus(zoneId: int, currentStepId: int, completedSteps: seq<int>): (st: ZoneStatus)
    ensures st == Completed <==> zoneId in completedSteps
    ensures st == Current <==> zoneId !in completedSteps && zoneId == currentStepId
    ensures st == Next <==> zoneId !in completedSteps && zoneId == currentStepId + 1
    ensures st == Locked <==> zoneId !in completedSteps && zoneId != currentStepId && zoneId != currentStepId + 1
  {
    if zoneId in completedSteps then Completed
    else if zoneId == currentStepId then Current
    else if zoneId == currentStepId + 1 then Next
    else Locked
  }

  /** `canClick` of both card renderers. */
  predicate CanClick(isInteractive: bool, status: ZoneStatus)
  {
    isInteractive && (status == Current || status == Completed)
  }

  /** A zone can be clicked exactly on an interactive map, when it is the current
      step or a completed one; the next zone and the locked ones never can. */
  lemma CanClickIff(isInteractive: bool, zoneId: int, currentStepId: int, completedSteps: seq<int>)
    ensures CanClick(isInteractive, GetZoneStatus(zoneId, currentStepId, completedSteps))
            <==> isInteractive && (zoneId in completedSteps || zoneId == currentStepId)
    ensures zoneId == currentStepId + 1 && zoneId !in completedSteps
            ==> !CanClick(isInteractive, GetZoneStatus(zoneId, currentStepId, completedSteps))
  {
  }

  /** `MAP_ZONES.filter(z => z.category === side)`. */
  function ZonesOn(zones: seq<MapZone>, side: Page): (r: seq<MapZone>)
    ensures IsSubsequence(r, zones)
    ensures forall z :: z in r <==> z in zones && z.category == side
  {
    if zones == [] then []
    else if zones[0].category == side then [zones[0]] + ZonesOn(zones[1..], side)
    else ZonesOn(zones[1..], side)
  }

  function Ids(zones: seq<MapZone>): (ids: seq<int>)
    ensures |ids| == |zones|
    ensures forall i :: 0 <= i < |zones| ==> ids[i] == zones[i].id
  {
    if zones == [] then [] else [zones[0].id] + Ids(zones[1..])
  }

  /** The zones are steps 1 to 10, each once; the left page holds 1 to 5 and the
      right page 6 to 10, in order. */
  lemma MapZoneIds()
    ensures Ids(MAP_ZONES) == [1, 2, 3, 4, 5, 6, 7, 8, 9, 10]
    ensures NoDup(Ids(MAP_ZONES))
  {
    var ids := Ids(MAP_ZONES);
    assert |MAP_ZONES| == 10;
    assert forall i :: 0 <= i < 10 ==> MAP_ZONES[i].id == i + 1;
    assert forall i :: 0 <= i < 10 ==> ids[i] == i + 1;
    CountingNoDup(ids);
  }

  lemma CountingNoDup(s: seq<int>)
    requires forall i :: 0 <= i < |s| ==> s[i] == i + 1
    ensures NoDup(s)
  {
  }

  lemma MapZonesPartition()
    ensures ZonesOn(MAP_ZONES, LeftPage) == MAP_ZONES[..5]
    ensures ZonesOn(MAP_ZONES, RightPage) == MAP_ZONES[5..]
  {
    assert forall i :: 0 <= i < 5 ==> MAP_ZONES[i].category == LeftPage;
    assert forall i :: 5 <= i < 10 ==> MAP_ZONES[i].category == RightPage;
    ZonesOnTwoBlocks(MAP_ZONES, 5);
  }

  /** Zones listed left page first, then right page: each side's filter is its block. */
  lemma ZonesOnTwoBlocks(zones: seq<MapZone>, k: nat)
    requires k <= |zones|
    requires forall i :: 0 <= i < k ==> zones[i].category == LeftPage
    requires forall i :: k <= i < |zones| ==> zones[i].category == RightPage
    ensures ZonesOn(zones, LeftPage) == zones[..k]
    ensures ZonesOn(zones, RightPage) == zones[k..]
  {
    var left, right := zones[..k], zones[k..];
    assert zones == left + right;
    assert forall i :: 0 <= i < |left| ==> left[i].category == LeftPage;
    assert forall i :: 0 <= i < |right| ==> right[i] == zones[k + i];
    ZonesOnUniform(left, LeftPage, RightPage);
    ZonesOnUniform(right, RightPage, LeftPage);
    ZonesOnAppend(left, right, LeftPage);
    ZonesOnAppend(left, right, RightPage);
    assert left + [] == left && [] + right == right;
  }

  /** Filtering a page whose zones are all on one side keeps all of them, or none. */
  lemma {:induction false} ZonesOnUniform(zones: seq<MapZone>, side: Page, other: Page)
    requires forall i :: 0 <= i < |zones| ==> zones[i].category == side
    requires other != side
    ensures ZonesOn(zones, side) == zones
    ensures ZonesOn(zones, other) == []
  {
    if zones != [] {
      ZonesOnUniform(zones[1..], side, other);
    }
  }

  lemma {:induction false} ZonesOnAppend(a: seq<MapZone>, b: seq<MapZone>, side: Page)
    ensures ZonesOn(a + b, side) == ZonesOn(a, side) + ZonesOn(b, side)
  {
    if a == [] {
      assert a + b == b;
    } else {
      assert (a + b)[1..] == a[1..] + b;
      ZonesOnAppend(a[1..], b, side);
    }
  }

  /** The colour of one cell of the progress bar. */
  datatype Cell = Cleared | Now | Dim

  /** The ten cells of the progress bar, for steps 1 to 10: green for a completed
      step, highlighted for the current one, dim otherwise. */
  function ProgressCells(currentStepId: int, completedSteps: seq<int>): (cells: seq<Cell>)
    ensures |cells| == 10
    ensures forall k :: 1 <= k <= 10 ==>
      (cells[k - 1] == Cleared <==> k in completedSteps)
      && (cells[k - 1] == Now <==> k !in completedSteps && k == currentStepId)
  {
    seq(10, i => if i + 1 in completedSteps then Cleared else if i + 1 == currentStepId then Now else Dim)
  }

  /** The number of green cells among the first n. */
  function CountCleared(cells: seq<Cell>): (n: nat)
    ensures n <= |cells|
  {
    if cells == [] then 0 else CountCleared(cells[..|cells| - 1]) + (if cells[|cells| - 1] == Cleared then 1 else 0)
  }

  /** The number of steps among 1..n that the list holds. */
  function CountIn(steps: seq<int>, n: nat): nat
  {
    if n == 0 then 0 else CountIn(steps, n - 1) + (if n in steps then 1 else 0)
  }

  lemma {:induction false} CountClearedIsCountIn(cells: seq<Cell>, steps: seq<int>)
    requires forall i :: 0 <= i < |cells| ==> (cells[i] == Cleared <==> i + 1 in steps)
    ensures CountCleared(cells) == CountIn(steps, |cells|)
  {
    if cells != [] {
      CountClearedIsCountIn(cells[..|cells| - 1], steps);
    }
  }

  lemma {:induction false} CountInAppend(steps: seq<int>, x: int, n: nat)
    requires x !in steps
    ensures CountIn(steps + [x], n) == CountIn(steps, n) + (if 1 <= x <= n then 1 else 0)
  {
    if n > 0 {
      CountInAppend(steps, x, n - 1);
      assert n in steps + [x] <==> n in steps || n == x;
    }
  }

  lemma {:induction false} CountInAll(steps: seq<int>, n: nat)
    requires NoDup(steps)
    requires forall k :: k in steps ==> 1 <= k <= n
    ensures CountIn(steps, n) == |steps|
  {
    if steps == [] {
      CountInNone(n);
    } else {
      var p, x := steps[..|steps| - 1], steps[|steps| - 1];
      assert steps == p + [x];
      assert x in steps;
      assert x !in p by {
        forall i | 0 <= i < |p| ensures p[i] != x {
          assert p[i] == steps[i];
        }
      }
      assert forall k :: k in p ==> k in steps;
      assert NoDup(p) by {
        forall i, j | 0 <= i < j < |p| ensures p[i] != p[j] {
          assert p[i] == steps[i] && p[j] == steps[j];
        }
      }
      CountInAll(p, n);
      CountInAppend(p, x, n);
    }
  }

  lemma {:induction false} CountInNone(n: nat)
    ensures CountIn([], n) == 0
  {
    if n > 0 {
      CountInNone(n - 1);
    }
  }

  /** The counter under the bar shows `completedSteps.length` out of 10; when the
      list holds distinct steps between 1 and 10 (as the session keeps it), that is
      exactly the number of green cells, and so at most 10. */
  lemma ProgressCounterMatchesCells(currentStepId: int, completedSteps: seq<int>)
    requires NoDup(completedSteps)
    requires forall k :: k in completedSteps ==> 1 <= k <= 10
    ensures CountCleared(ProgressCells(currentStepId, completedSteps)) == |completedSteps| <= 10
  {
    CountClearedIsCountIn(ProgressCells(currentStepId, completedSteps), completedSteps);
    CountInAll(completedSteps, 10);
  }
}
