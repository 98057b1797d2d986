/**
 Assigning OCR observations to review items, and the placeholder inventory check
 (`application/privacy_refill_review.py`, `_prepare`; `domain/privacy_refill.py`).
 */
module RefillPartition {
  import opened Common

  /** `tokens` is what the placeholder pattern finds in the text: the entities named, or
      nothing at all when the text holds a malformed placeholder. */
  datatype Text = Text(chars: string, tokens: Option<seq<nat>>)

  datatype Region = Region(page: nat, x0: real, y0: real, x1: real, y1: real)

  datatype Observation = Observation(region: Region, text: Text, confidence: Option<real>)

  /** `printed` is the placeholder text of the target's entity. */
  datatype Target = Target(occurrence: nat, entity: nat, region: Region, present: bool, printed: Text)

  datatype Kind = Placeholder | Measured

  datatype Item = Item(kind: Kind, region: Region, members: seq<nat>, expected: Option<Text>, confirmed: Option<Text>)

  const REVIEW_BELOW := 0.85

  predicate ValidRegion(r: Region) {
    0.0 <= r.x0 < r.x1 && 0.0 <= r.y0 < r.y1
  }

  predicate Overlaps(a: Region, b: Region) {
    && a.page == b.page
    && a.x0 < b.x1 && b.x0 < a.x1 && a.x0 < a.x1 && b.x0 < b.x1
    && a.y0 < b.y1 && b.y0 < a.y1 && a.y0 < a.y1 && b.y0 < b.y1
  }

  predicate Inside(cell: Region, r: Region) {
    cell.x0 <= r.x0 < r.x1 <= cell.x1 && cell.y0 <= r.y0 < r.y1 <= cell.y1
  }

  /** The descriptor's own validation. */
  ghost predicate ValidTargets(targets: seq<Target>) {
    && (forall i :: 0 <= i < |targets| ==> ValidRegion(targets[i].region) && targets[i].printed.tokens == Some([targets[i].entity]))
    && (forall i, j :: 0 <= i < j < |targets| ==> !Overlaps(targets[j].region, targets[i].region))
    && (forall i, j :: 0 <= i < j < |targets| ==> targets[i].occurrence != targets[j].occurrence)
  }

  ghost predicate ValidObservations(measured: seq<Observation>) {
    forall i :: 0 <= i < |measured| ==> ValidRegion(measured[i].region)
  }

  /** A human must read it: uncertain, or showing anything like a placeholder. */
  predicate Required(o: Observation) {
    o.confidence.None? || o.confidence.value < REVIEW_BELOW || o.text.tokens != Some([])
  }

  predicate Touches(o: Observation, t: Target) {
    t.present && Overlaps(o.region, t.region)
  }

  /** Every observation that touches a printed target lies within it. */
  ghost predicate WithinCells(measured: seq<Observation>, targets: seq<Target>) {
    forall i, t :: 0 <= i < |measured| && 0 <= t < |targets| && Touches(measured[i], targets[t]) ==>
      Inside(targets[t].region, measured[i].region)
  }

  /** `cells[k]` is the target of the `k`th placeholder item: one item per present target. */
  ghost predicate CellsAreTargets(cells: seq<nat>, items: seq<Item>, targets: seq<Target>) {
    && |cells| <= |items|
    && (forall k :: 0 <= k < |cells| ==>
          && cells[k] < |targets| && targets[cells[k]].present
          && items[k].kind == Placeholder && items[k].region == targets[cells[k]].region
          && items[k].expected == Some(targets[cells[k]].printed))
    && (forall k, l :: 0 <= k < l < |cells| ==> cells[k] < cells[l])
  }

  /** Membership and the observation's item id say the same. */
  ghost predicate Agree(rows: seq<Option<nat>>, items: seq<Item>) {
    && (forall i, k :: 0 <= i < |rows| && rows[i] == Some(k) ==> k < |items| && i in items[k].members)
    && (forall k, m :: 0 <= k < |items| && 0 <= m < |items[k].members| ==>
          items[k].members[m] < |rows| && rows[items[k].members[m]] == Some(k))
    && (forall k, m, n :: 0 <= k < |items| && 0 <= m < n < |items[k].members| ==> items[k].members[m] < items[k].members[n])
  }

  ghost predicate Fresh(items: seq<Item>) {
    forall k :: 0 <= k < |items| ==> items[k].confirmed.None?
  }

  ghost predicate IsPartition(measured: seq<Observation>, targets: seq<Target>, rows: seq<Option<nat>>, items: seq<Item>, cells: seq<nat>) {
    && |rows| == |measured|
    && Agree(rows, items)
    && Fresh(items)
    && CellsAreTargets(cells, items, targets)
    && (forall t :: 0 <= t < |targets| && targets[t].present ==> t in cells)
    // A cell holds exactly the observations that touch its target.
    && (forall i, k :: 0 <= i < |rows| && 0 <= k < |cells| ==>
          (rows[i] == Some(k) <==> Overlaps(measured[i].region, targets[cells[k]].region)))
    // Any other item is one observation that needs a human reading.
    && (forall k :: |cells| <= k < |items| ==>
          SingleItem(measured, items[k]))
    // What is left unassigned needs none.
    && (forall i :: 0 <= i < |rows| && rows[i].None? ==> !Required(measured[i]))
  }

  predicate Within(x: real, y: real, r: Region) {
    r.x0 < x < r.x1 && r.y0 < y < r.y1
  }

  /** Two boxes overlap exactly if they are on one page and share an inner point. */
  lemma {:induction false} OverlapsExactly(a: Region, b: Region)
    requires ValidRegion(a) && ValidRegion(b)
    ensures Overlaps(a, b) <==> a.page == b.page && exists x, y :: Within(x, y, a) && Within(x, y, b)
  {
    if Overlaps(a, b) {
      var l, r := if a.x0 < b.x0 then b.x0 else a.x0, if a.x1 < b.x1 then a.x1 else b.x1;
      var t, u := if a.y0 < b.y0 then b.y0 else a.y0, if a.y1 < b.y1 then a.y1 else b.y1;
      assert Within((l + r) / 2.0, (t + u) / 2.0, a) && Within((l + r) / 2.0, (t + u) / 2.0, b);
    }
  }

  /** A box lies inside a cell exactly if all of it does, its border included. */
  lemma {:induction false} InsideExactly(cell: Region, r: Region)
    requires ValidRegion(r)
    ensures Inside(cell, r) <==> forall x, y :: OnOrIn(x, y, r) ==> OnOrIn(x, y, cell)
  {
    assert OnOrIn(r.x0, r.y0, r) && OnOrIn(r.x1, r.y1, r);
  }

  predicate OnOrIn(x: real, y: real, r: Region) {
    r.x0 <= x <= r.x1 && r.y0 <= y <= r.y1
  }

  /** Two different printed cells never hold the same observation. */
  lemma {:induction false} NoAmbiguity(targets: seq<Target>, a: nat, b: nat, o: Region)
    requires ValidTargets(targets) && ValidRegion(o) && a < |targets| && b < |targets|
    requires Overlaps(o, targets[a].region) && Overlaps(o, targets[b].region) && Inside(targets[a].region, o)
    ensures a == b
  {
    assert Overlaps(targets[a].region, targets[b].region) && Overlaps(targets[b].region, targets[a].region);
  }

  /** The state of the loops: rows done so far, and the cells made so far. */
  ghost predicate Building(measured: seq<Observation>, targets: seq<Target>, rows: seq<Option<nat>>, items: seq<Item>, cells: seq<nat>, t: nat)
    requires t <= |targets|
  {
    && |rows| == |measured| && |cells| == |items|
    && Agree(rows, items) && Fresh(items)
    && CellsAreTargets(cells, items, targets)
    && (forall k :: 0 <= k < |cells| ==> cells[k] < t)
    && (forall j :: 0 <= j < t && targets[j].present ==> j in cells)
    && (forall i, k :: 0 <= i < |rows| && 0 <= k < |cells| ==>
          (rows[i] == Some(k) <==> Overlaps(measured[i].region, targets[cells[k]].region)))
    && (forall i, j :: 0 <= i < |measured| && 0 <= j < t && Touches(measured[i], targets[j]) ==>
          Inside(targets[j].region, measured[i].region))
  }

  /** One target's cell: mark the observations that touch it. */
  method FillCell(measured: seq<Observation>, target: Target, rows: array<Option<nat>>, id: nat) returns (r: Result<seq<nat>, ()>)
    requires rows.Length == |measured| && ValidObservations(measured)
    requires forall i :: 0 <= i < |measured| ==> rows[i] != Some(id)
    modifies rows
    ensures r.Ok? ==>
      && (forall i :: 0 <= i < |measured| ==>
            rows[i] == if Overlaps(measured[i].region, target.region) then Some(id) else old(rows[i]))
      && (forall i :: 0 <= i < |measured| && Overlaps(measured[i].region, target.region) ==>
            old(rows[i]).None? && Inside(target.region, measured[i].region))
      && (forall i :: 0 <= i < |measured| ==> (i in r.value <==> Overlaps(measured[i].region, target.region)))
      && (forall m :: 0 <= m < |r.value| ==> r.value[m] < |measured|)
      && (forall m, n :: 0 <= m < n < |r.value| ==> r.value[m] < r.value[n])
    ensures r.Err? ==> exists i :: 0 <= i < |measured| && Overlaps(measured[i].region, target.region)
                         && (!Inside(target.region, measured[i].region) || old(rows[i]).Some?)
  {
    var covered: seq<nat> := [];
    for index := 0 to |measured|
      invariant forall i :: index <= i < |measured| ==> rows[i] == old(rows[i])
      invariant forall i :: 0 <= i < index ==>
        rows[i] == if Overlaps(measured[i].region, target.region) then Some(id) else old(rows[i])
      invariant forall i :: 0 <= i < index && Overlaps(measured[i].region, target.region) ==>
        old(rows[i]).None? && Inside(target.region, measured[i].region)
      invariant forall i :: 0 <= i < |measured| ==> (i in covered <==> i < index && Overlaps(measured[i].region, target.region))
      invariant forall m :: 0 <= m < |covered| ==> covered[m] < index
      invariant forall m, n :: 0 <= m < n < |covered| ==> covered[m] < covered[n]
    {
      if Overlaps(measured[index].region, target.region) {
        if !Inside(target.region, measured[index].region) || rows[index].Some? {
          return Err(());
        }
        rows[index] := Some(id);
        covered := covered + [index];
      }
    }
    r := Ok(covered);
  }

  /** Adding the cell of target `t`, whose observations were all free. */
  lemma {:induction false} CellAdded(
    measured: seq<Observation>, targets: seq<Target>, rows: seq<Option<nat>>, items: seq<Item>, cells: seq<nat>, t: nat,
    later: seq<Option<nat>>, members: seq<nat>, item: Item)
    requires t < |targets| && targets[t].present && Building(measured, targets, rows, items, cells, t)
    requires |later| == |measured|
    requires forall i :: 0 <= i < |measured| ==>
      later[i] == if Overlaps(measured[i].region, targets[t].region) then Some(|items|) else rows[i]
    requires forall i :: 0 <= i < |measured| && Overlaps(measured[i].region, targets[t].region) ==>
      rows[i].None? && Inside(targets[t].region, measured[i].region)
    requires forall i :: 0 <= i < |measured| ==> (i in members <==> Overlaps(measured[i].region, targets[t].region))
    requires forall m :: 0 <= m < |members| ==> members[m] < |measured|
    requires forall m, n :: 0 <= m < n < |members| ==> members[m] < members[n]
    requires item == Item(Placeholder, targets[t].region, members, Some(targets[t].printed), None)
    ensures Building(measured, targets, later, items + [item], cells + [t], t + 1)
  {
    AgreeAdded(rows, items, later, item);
  }

  /** A new last item that takes rows nobody had. */
  lemma {:induction false} AgreeAdded(rows: seq<Option<nat>>, items: seq<Item>, later: seq<Option<nat>>, item: Item)
    requires Agree(rows, items) && |later| == |rows|
    requires forall i :: 0 <= i < |rows| ==> (i in item.members ==> rows[i].None?)
    requires forall i :: 0 <= i < |rows| ==> later[i] == if i in item.members then Some(|items|) else rows[i]
    requires forall m :: 0 <= m < |item.members| ==> item.members[m] < |rows|
    requires forall m, n :: 0 <= m < n < |item.members| ==> item.members[m] < item.members[n]
    ensures Agree(later, items + [item])
  {
    var all := items + [item];
    forall k, m | 0 <= k < |all| && 0 <= m < |all[k].members|
      ensures all[k].members[m] < |later| && later[all[k].members[m]] == Some(k)
    {
      if k < |items| {
        assert rows[items[k].members[m]] == Some(k);
      }
    }
  }

  /** The loops of `_prepare`. A page can be prepared for review exactly when every observation
      that touches a printed target lies within its cell: the ambiguity check never fires. */
  method Partition(measured: seq<Observation>, targets: seq<Target>)
    returns (r: Result<(seq<Option<nat>>, seq<Item>), ()>, ghost cells: seq<nat>)
    requires ValidTargets(targets) && ValidObservations(measured)
    ensures r.Ok? <==> WithinCells(measured, targets)
    ensures r.Ok? ==> IsPartition(measured, targets, r.value.0, r.value.1, cells)
  {
    var rows := new Option<nat>[|measured|](_ => None);
    var items: seq<Item> := [];
    cells := [];
    for t := 0 to |targets|
      invariant Building(measured, targets, rows[..], items, cells, t)
    {
      if targets[t].present {
        ghost var before := rows[..];
        var covered := FillCell(measured, targets[t], rows, |items|);
        if covered.Err? {
          CrossesCell(measured, targets, before, items, cells, t);
          return Err(()), cells;
        }
        var item := Item(Placeholder, targets[t].region, covered.value, Some(targets[t].printed), None);
        CellAdded(measured, targets, before, items, cells, t, rows[..], covered.value, item);
        items := items + [item];
        cells := cells + [t];
      }
    }
    items := ReadTheRest(measured, targets, rows, items, cells);
    r := Ok((rows[..], items));
  }

  /** A refused cell is one that an observation sticks out of. */
  lemma {:induction false} CrossesCell(
    measured: seq<Observation>, targets: seq<Target>, rows: seq<Option<nat>>, items: seq<Item>, cells: seq<nat>, t: nat)
    requires ValidTargets(targets) && ValidObservations(measured)
    requires t < |targets| && targets[t].present && Building(measured, targets, rows, items, cells, t)
    requires exists i :: 0 <= i < |measured| && Overlaps(measured[i].region, targets[t].region)
                         && (!Inside(targets[t].region, measured[i].region) || rows[i].Some?)
    ensures !WithinCells(measured, targets)
  {
    var i :| 0 <= i < |measured| && Overlaps(measured[i].region, targets[t].region)
             && (!Inside(targets[t].region, measured[i].region) || rows[i].Some?);
    assert Touches(measured[i], targets[t]);
    if Inside(targets[t].region, measured[i].region) {
      var k := rows[i].value;
      NoAmbiguity(targets, t, cells[k], measured[i].region);
    }
  }

  /** The second loop: every remaining observation that needs a reading becomes its own item. */
  method ReadTheRest(measured: seq<Observation>, targets: seq<Target>, rows: array<Option<nat>>, cellItems: seq<Item>, ghost cells: seq<nat>)
    returns (items: seq<Item>)
    requires rows.Length == |measured| && Building(measured, targets, rows[..], cellItems, cells, |targets|)
    modifies rows
    ensures WithinCells(measured, targets)
    ensures IsPartition(measured, targets, rows[..], items, cells)
  {
    items := cellItems;
    for index := 0 to |measured|
      invariant Agree(rows[..], items) && Fresh(items) && CellsAreTargets(cells, items, targets)
      invariant CellsHold(measured, targets, rows[..], cells)
      invariant forall k :: |cells| <= k < |items| ==> SingleItem(measured, items[k])
      invariant forall i :: 0 <= i < index && rows[i].None? ==> !Required(measured[i])
    {
      if rows[index].None? && Required(measured[index]) {
        ghost var before := rows[..];
        rows[index] := Some(|items|);
        var item := Item(Measured, measured[index].region, [index], None, None);
        AgreeAdded(before, items, rows[..], item);
        SingleAdded(measured, targets, before, rows[..], cells, items, index);
        items := items + [item];
      }
    }
  }

  ghost predicate CellsHold(measured: seq<Observation>, targets: seq<Target>, rows: seq<Option<nat>>, cells: seq<nat>) {
    && |rows| == |measured|
    && (forall k :: 0 <= k < |cells| ==> cells[k] < |targets|)
    && (forall i, k :: 0 <= i < |rows| && 0 <= k < |cells| ==>
          (rows[i] == Some(k) <==> Overlaps(measured[i].region, targets[cells[k]].region)))
  }

  ghost predicate SingleItem(measured: seq<Observation>, item: Item) {
    && item.kind == Measured && item.expected.None? && |item.members| == 1 && item.members[0] < |measured|
    && item.region == measured[item.members[0]].region && Required(measured[item.members[0]])
  }

  lemma {:induction false} SingleAdded(
    measured: seq<Observation>, targets: seq<Target>, rows: seq<Option<nat>>, later: seq<Option<nat>>, cells: seq<nat>, items: seq<Item>, index: nat)
    requires CellsHold(measured, targets, rows, cells) && |cells| <= |items|
    requires index < |rows| && rows[index].None? && later == rows[index := Some(|items|)]
    ensures CellsHold(measured, targets, later, cells)
  {
  }
}
