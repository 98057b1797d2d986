/**
 The two-stage review of a locally restored document (`application/privacy_refill_review.py`).

 Every operation starts and ends with `_check`; what the clock, the engine identity and the
 publication authority say at each of those moments is a parameter. An operation that is
 refused half-way keeps what it had already stored, as the source does.
 */
module RefillReview {
  import opened Common
  import opened RefillPartition

  // ------------------------------------------------------------- placeholder inventory

  datatype Reading = Reading(text: Text, region: Region)

  predicate Fits(t: Target, entity: nat, region: Region) {
    t.present && t.entity == entity && t.region.page == region.page && Inside(t.region, region)
  }

  /** Occurrences a placeholder reading could stand for, among those not yet taken. */
  function Possible(targets: seq<Target>, taken: seq<nat>, entity: nat, region: Region): seq<nat> {
    if targets == [] then []
    else
      var rest, t := Possible(targets[..|targets| - 1], taken, entity, region), targets[|targets| - 1];
      if Fits(t, entity, region) && t.occurrence !in taken then rest + [t.occurrence] else rest
  }

  function Claim(targets: seq<Target>, taken: seq<nat>, tokens: seq<nat>, region: Region): Option<seq<nat>> {
    if tokens == [] then Some(taken)
    else
      match Claim(targets, taken, tokens[..|tokens| - 1], region)
      case None => None
      case Some(now) =>
        var possible := Possible(targets, now, tokens[|tokens| - 1], region);
        if |possible| != 1 then None else Some(now + possible)
  }

  /** `verify_text_regions`: the occurrences the readings account for, in reading order. */
  function Inventory(readings: seq<Reading>, targets: seq<Target>): Option<seq<nat>> {
    if readings == [] then Some([])
    else
      var last := readings[|readings| - 1];
      match Inventory(readings[..|readings| - 1], targets)
      case None => None
      case Some(taken) => if last.text.tokens.None? then None else Claim(targets, taken, last.text.tokens.value, last.region)
  }

  function Printed(targets: seq<Target>): set<nat> {
    set i | 0 <= i < |targets| && targets[i].present :: targets[i].occurrence
  }

  function Members(s: seq<nat>): set<nat> {
    set o | o in s
  }

  predicate Verified(readings: seq<Reading>, targets: seq<Target>, all: bool) {
    var inventory := Inventory(readings, targets);
    inventory.Some? && (all ==> Members(inventory.value) == Printed(targets))
  }

  function TokenCount(readings: seq<Reading>): nat {
    if readings == [] then 0
    else
      var tokens := readings[|readings| - 1].text.tokens;
      TokenCount(readings[..|readings| - 1]) + (if tokens.Some? then |tokens.value| else 0)
  }

  ghost predicate Placed(targets: seq<Target>, entity: nat, region: Region) {
    exists t :: 0 <= t < |targets| && Fits(targets[t], entity, region)
  }

  lemma {:induction false} PossibleIsFree(targets: seq<Target>, taken: seq<nat>, entity: nat, region: Region)
    ensures forall k :: 0 <= k < |Possible(targets, taken, entity, region)| ==>
      Possible(targets, taken, entity, region)[k] !in taken && Possible(targets, taken, entity, region)[k] in Printed(targets)
    ensures Possible(targets, taken, entity, region) != [] ==> Placed(targets, entity, region)
  {
    if targets != [] {
      var n := |targets| - 1;
      PossibleIsFree(targets[..n], taken, entity, region);
      forall o | o in Printed(targets[..n]) ensures o in Printed(targets) {
        var i :| 0 <= i < n && targets[..n][i].present && targets[..n][i].occurrence == o;
        assert targets[i].present && targets[i].occurrence == o;
      }
      if Possible(targets[..n], taken, entity, region) != [] {
        var t :| 0 <= t < n && Fits(targets[..n][t], entity, region);
        assert Fits(targets[t], entity, region);
      } else if Fits(targets[n], entity, region) {
        assert targets[n].occurrence in Printed(targets);
      }
    }
  }

  ghost predicate Taken(taken: seq<nat>, targets: seq<Target>, n: nat) {
    |taken| == n && NoDuplicates(taken) && forall i :: 0 <= i < |taken| ==> taken[i] in Printed(targets)
  }

  lemma {:induction false} ClaimTakes(targets: seq<Target>, taken: seq<nat>, tokens: seq<nat>, region: Region, n: nat)
    requires Taken(taken, targets, n) && Claim(targets, taken, tokens, region).Some?
    ensures Taken(Claim(targets, taken, tokens, region).value, targets, n + |tokens|)
    ensures forall j :: 0 <= j < |tokens| ==> Placed(targets, tokens[j], region)
  {
    if tokens != [] {
      var k := |tokens| - 1;
      ClaimTakes(targets, taken, tokens[..k], region, n);
      var now := Claim(targets, taken, tokens[..k], region).value;
      PossibleIsFree(targets, now, tokens[k], region);
      forall j | 0 <= j < |tokens| ensures Placed(targets, tokens[j], region) {
        if j < k {
          assert tokens[..k][j] == tokens[j];
        }
      }
    }
  }

  lemma {:induction false} InventoryTakes(readings: seq<Reading>, targets: seq<Target>)
    requires Inventory(readings, targets).Some?
    ensures Taken(Inventory(readings, targets).value, targets, TokenCount(readings))
    ensures forall i, j :: 0 <= i < |readings| && readings[i].text.tokens.Some? && 0 <= j < |readings[i].text.tokens.value| ==>
      Placed(targets, readings[i].text.tokens.value[j], readings[i].region)
  {
    if readings != [] {
      var k := |readings| - 1;
      InventoryTakes(readings[..k], targets);
      var taken := Inventory(readings[..k], targets).value;
      ClaimTakes(targets, taken, readings[k].text.tokens.value, readings[k].region, |taken|);
      forall i, j | 0 <= i < |readings| && readings[i].text.tokens.Some? && 0 <= j < |readings[i].text.tokens.value|
        ensures Placed(targets, readings[i].text.tokens.value[j], readings[i].region)
      {
        if i < k {
          assert readings[..k][i] == readings[i];
        }
      }
    }
  }

  lemma {:induction false} SizeOfSeq(s: seq<nat>)
    requires NoDuplicates(s)
    ensures |Members(s)| == |s|
  {
    if s == [] {
      assert Members(s) == {};
    } else {
      var n := |s| - 1;
      var front := s[..n];
      SizeOfSeq(front);
      assert s[n] !in Members(front);
      assert Members(s) == Members(front) + {s[n]};
    }
  }

  /** The target of that entity is printed on the page, and the reading lies in its cell. */
  predicate Prints(t: Target, entity: nat, region: Region) {
    && t.present && t.entity == entity && t.region.page == region.page
    && t.region.x0 <= region.x0 < region.x1 <= t.region.x1 && t.region.y0 <= region.y0 < region.y1 <= t.region.y1
  }

  lemma {:induction false} AllReadable(readings: seq<Reading>, targets: seq<Target>)
    requires Inventory(readings, targets).Some?
    ensures forall i :: 0 <= i < |readings| ==> readings[i].text.tokens.Some?
  {
    if readings != [] {
      AllReadable(readings[..|readings| - 1], targets);
      assert forall i :: 0 <= i < |readings| - 1 ==> readings[..|readings| - 1][i] == readings[i];
    }
  }

  /** A full inventory is exact: as many placeholders are read as targets are printed, each
      printed target once, and each within the cell of a target of its own entity. */
  lemma {:induction false} InventoryIsExact(readings: seq<Reading>, targets: seq<Target>)
    requires Verified(readings, targets, true)
    ensures TokenCount(readings) == |Printed(targets)|
    ensures NoDuplicates(Inventory(readings, targets).value)
    ensures forall i :: 0 <= i < |readings| ==> readings[i].text.tokens.Some?
    ensures forall i, j :: 0 <= i < |readings| && readings[i].text.tokens.Some? && 0 <= j < |readings[i].text.tokens.value| ==>
      exists t :: 0 <= t < |targets| && Prints(targets[t], readings[i].text.tokens.value[j], readings[i].region)
  {
    InventoryTakes(readings, targets);
    AllReadable(readings, targets);
    forall i, j | 0 <= i < |readings| && readings[i].text.tokens.Some? && 0 <= j < |readings[i].text.tokens.value|
      ensures exists t :: 0 <= t < |targets| && Prints(targets[t], readings[i].text.tokens.value[j], readings[i].region)
    {
      var t :| 0 <= t < |targets| && Fits(targets[t], readings[i].text.tokens.value[j], readings[i].region);
      assert Prints(targets[t], readings[i].text.tokens.value[j], readings[i].region);
    }
    SizeOfSeq(Inventory(readings, targets).value);
  }

  // ----------------------------------------------------------------------- the session

  datatype Stage = Published | Restored

  datatype Page = Page(number: nat, image: string)

  /** A stage under review; `rows` gives each observation its item. */
  datatype View = View(
    stage: Stage, input: string, pages: seq<Page>, observations: seq<Observation>, rows: seq<Option<nat>>, items: seq<Item>)

  datatype Receipt = Receipt(digest: View, items: seq<Item>)

  datatype Viewing = Viewing(stage: Stage, page: nat)

  /** `viewed` is the history of delivered pages; the source keeps only `seen`. */
  datatype State = State(
    view: View, seen: set<nat>, receipts: seq<Receipt>, history: Option<View>,
    candidate: Option<string>, complete: Option<string>, viewed: set<Viewing>)

  datatype Setup = Setup(originalBytes: nat, pdf: string, targets: seq<Target>, limit: nat)

  function Unconfirmed(items: seq<Item>): seq<Item> {
    seq(|items|, i requires 0 <= i < |items| => items[i].(confirmed := None))
  }

  /** The digest of a view covers everything but the readings. */
  function Digest(v: View): View {
    v.(items := Unconfirmed(v.items))
  }

  function TargetsOf(setup: Setup, stage: Stage): seq<Target> {
    if stage.Published? then setup.targets else []
  }

  // Retained sizes, in UTF-8 bytes.

  function CharBytes(c: char): nat {
    var n := c as int;
    if n < 0x80 then 1 else if n < 0x800 then 2 else if n < 0x1_0000 then 3 else 4
  }

  function TextBytes(s: string): nat {
    if s == "" then 0 else TextBytes(s[..|s| - 1]) + CharBytes(s[|s| - 1])
  }

  function OptionBytes(t: Option<Text>): nat {
    if t.Some? then TextBytes(t.value.chars) else 0
  }

  function ImageBytes(pages: seq<Page>): nat {
    if pages == [] then 0 else ImageBytes(pages[..|pages| - 1]) + |pages[|pages| - 1].image|
  }

  function ObservationBytes(observations: seq<Observation>): nat {
    if observations == [] then 0
    else ObservationBytes(observations[..|observations| - 1]) + TextBytes(observations[|observations| - 1].text.chars)
  }

  function ItemBytes(items: seq<Item>): nat {
    if items == [] then 0
    else
      var last := items[|items| - 1];
      ItemBytes(items[..|items| - 1]) + OptionBytes(last.expected) + OptionBytes(last.confirmed)
  }

  function ViewBytes(v: View): nat {
    ImageBytes(v.pages) + ObservationBytes(v.observations) + ItemBytes(v.items)
  }

  /** `retained_bytes`: the published view counts once, whether current or in the history. */
  function Retained(setup: Setup, st: State): nat {
    setup.originalBytes + |setup.pdf| + (if st.candidate.Some? then |st.candidate.value| else 0)
    + ViewBytes(st.view) + (if st.view.stage.Restored? && st.history.Some? then ViewBytes(st.history.value) else 0)
  }

  predicate Admits(setup: Setup, st: State, extra: nat) {
    Retained(setup, st) + extra <= setup.limit
  }

  // ------------------------------------------------------------------------- operations

  predicate AllConfirmed(items: seq<Item>) {
    forall k :: 0 <= k < |items| ==> items[k].confirmed.Some?
  }

  /** What a stage reads as: unassigned measurements, then the confirmed readings. */
  function FreeReadings(observations: seq<Observation>, rows: seq<Option<nat>>): seq<Reading>
    requires |rows| == |observations|
  {
    if rows == [] then []
    else
      var n := |rows| - 1;
      var rest := FreeReadings(observations[..n], rows[..n]);
      if rows[n].None? then rest + [Reading(observations[n].text, observations[n].region)] else rest
  }

  function ItemReadings(items: seq<Item>): seq<Reading>
    requires AllConfirmed(items)
  {
    seq(|items|, k requires 0 <= k < |items| => Reading(items[k].confirmed.value, items[k].region))
  }

  function StageReadings(v: View): seq<Reading>
    requires |v.rows| == |v.observations| && AllConfirmed(v.items)
  {
    FreeReadings(v.observations, v.rows) + ItemReadings(v.items)
  }

  predicate Wellformed(v: View) {
    |v.rows| == |v.observations|
  }

  datatype Taking = NotReady | Refused | Ready

  predicate HasReceipt(receipts: seq<Receipt>, digest: View) {
    exists i :: 0 <= i < |receipts| && receipts[i].digest == digest
  }

  /** `_receipt`. */
  function Take(setup: Setup, st: State, alive: bool): (State, Taking)
    requires Wellformed(st.view)
  {
    if !AllConfirmed(st.view.items) then (st, NotReady)
    else if !alive || !Verified(StageReadings(st.view), TargetsOf(setup, st.view.stage), true) then (st, Refused)
    else if HasReceipt(st.receipts, Digest(st.view)) then (st, Ready)
    else (st.(receipts := st.receipts + [Receipt(Digest(st.view), st.view.items)]), Ready)
  }

  predicate OnPages(pages: seq<Page>, page: nat) {
    exists i :: 0 <= i < |pages| && pages[i].number == page
  }

  function ImageOf(pages: seq<Page>, page: nat): string
    requires OnPages(pages, page)
  {
    if pages[|pages| - 1].number == page then pages[|pages| - 1].image else ImageOf(pages[..|pages| - 1], page)
  }

  /** `image`: delivering a page is what makes it seen. */
  function Show(st: State, page: nat, alive: bool, aliveAfter: bool): (State, bool) {
    if !alive || !OnPages(st.view.pages, page) then (st, false)
    else (st.(seen := st.seen + {page}, viewed := st.viewed + {Viewing(st.view.stage, page)}), aliveAfter)
  }

  predicate Space(c: char) {
    var n := c as int;
    n == 0x20 || n == 0x85 || n == 0xA0 || n == 0x1680 || 0x2000 <= n <= 0x200A
    || n == 0x2028 || n == 0x2029 || n == 0x202F || n == 0x205F || n == 0x3000
  }

  /** Something to see, and no control character. */
  predicate Visible(reading: Text) {
    && (exists i :: 0 <= i < |reading.chars| && !Space(reading.chars[i]))
    && (forall i :: 0 <= i < |reading.chars| ==> reading.chars[i] as int >= 32)
  }

  predicate Acceptable(setup: Setup, st: State, k: nat, digest: View, image: string, reading: Text)
    requires k < |st.view.items|
  {
    var item := st.view.items[k];
    && digest == Digest(st.view) && st.complete.None?
    && item.region.page in st.seen && OnPages(st.view.pages, item.region.page) && image == ImageOf(st.view.pages, item.region.page)
    && Visible(reading)
    && (item.expected.Some? ==> reading == item.expected.value)
    && (item.confirmed.Some? ==> reading == item.confirmed.value)
    && (item.confirmed.None? ==> Admits(setup, st, TextBytes(reading.chars)))
    && Verified([Reading(reading, item.region)], if item.kind.Placeholder? then setup.targets else [], false)
  }

  function WithReading(st: State, k: nat, reading: Text): State
    requires k < |st.view.items|
  {
    st.(view := st.view.(items := st.view.items[k := st.view.items[k].(confirmed := Some(reading))]))
  }

  /** `confirm`; it ends with a checked view, so it may be refused with the receipt already taken. */
  function Confirm(setup: Setup, st: State, k: nat, digest: View, image: string, reading: Text, a: bool, b: bool, c: bool, d: bool): (State, bool)
    requires Wellformed(st.view)
  {
    if !a || k >= |st.view.items| || !Acceptable(setup, st, k, digest, image, reading) then (st, false)
    else
      var changed := WithReading(st, k, reading);
      if !b then (changed, false)
      else
        var (after, taking) := Take(setup, changed, c);
        (after, !taking.Refused? && d)
  }

  /** What rendering, OCR and `_prepare`'s loops produced for a stage. */
  datatype Rendering = Rendering(pages: seq<Page>, observations: seq<Observation>, rows: seq<Option<nat>>, items: seq<Item>)

  function ViewFrom(stage: Stage, input: string, r: Rendering): View {
    View(stage, input, r.pages, r.observations, r.rows, r.items)
  }

  /** The second `_prepare`, for the restored candidate. */
  function PrepareRestored(setup: Setup, st: State, r: Option<Rendering>, alive: bool): (State, bool)
    requires st.candidate.Some?
  {
    if !alive || r.None? || !Admits(setup, st, ImageBytes(r.value.pages) + ObservationBytes(r.value.observations)) then (st, false)
    else (st.(view := ViewFrom(Restored, st.candidate.value, r.value), seen := {}), true)
  }

  /** `advance`, in two parts: leaving the published stage, and finishing the restored one. */
  function Restore(setup: Setup, st: State, written: string, r: Option<Rendering>, viewable: bool, alive: bool): (State, bool) {
    var kept := st.(history := Some(st.view));
    if !viewable then (st, false)
    else if !Admits(setup, kept, |written|) then (kept, false)
    else
      var (after, ok) := PrepareRestored(setup, kept.(candidate := Some(written)), r, alive);
      (after, ok)
  }

  function Finish(st: State, alive: bool): (State, Option<string>) {
    if st.candidate.None? || !alive then (st, None) else (st.(complete := st.candidate), st.candidate)
  }

  /** With a receipt for the restored stage, the candidate becomes the result. */
  function Conclude(setup: Setup, st: State, alive: bool, aliveAfter: bool): (State, Option<string>)
    requires Wellformed(st.view)
  {
    var (taken, taking) := Take(setup, st, alive);
    if taking.Ready? then Finish(taken, aliveAfter) else (taken, None)
  }

  function Advance(setup: Setup, st: State, written: string, r: Option<Rendering>, a: bool, b: bool, v: bool, c: bool, d: bool, e: bool)
    : (State, Option<string>)
    requires Wellformed(st.view) && (r.Some? ==> |r.value.rows| == |r.value.observations|)
  {
    if !a then (st, None)
    else if st.complete.Some? then (st, st.complete)
    else if st.view.stage.Restored? then Conclude(setup, st, b, e)
    else
      var (taken, taking) := Take(setup, st, b);
      if !taking.Ready? then (taken, None)
      else
        var (restored, ok) := Restore(setup, taken, written, r, v, c);
        if ok then Conclude(setup, restored, d, e) else (restored, None)
  }

  /** `permits_completed`, which starts with the same check as every operation. */
  predicate Permits(st: State, digest: string, alive: bool) {
    && alive
    && st.complete == Some(digest)
    && (forall i :: 0 <= i < |st.receipts| ==> st.receipts[i].digest.stage.Published? || st.receipts[i].digest.stage.Restored?)
    && (exists i :: 0 <= i < |st.receipts| && st.receipts[i].digest.stage.Published?)
    && (exists i :: 0 <= i < |st.receipts| && st.receipts[i].digest.stage.Restored?)
  }

  /** The constructor: the published stage, refused when it cannot be retained. */
  function Begin(setup: Setup, r: Rendering): Option<State> {
    var st := State(ViewFrom(Published, setup.pdf, r), {}, [], None, None, None, {});
    if Admits(setup, st, 0) then Some(st) else None
  }

  // -------------------------------------------------------------------------- invariant

  function ViewOf(st: State, stage: Stage): Option<View> {
    if st.view.stage == stage then Some(st.view) else if stage.Published? then st.history else None
  }

  /** Readings of a stage: exactly as bound, and of pages shown in that stage. */
  ghost predicate ReadingsOk(v: View, viewed: set<Viewing>) {
    && Wellformed(v)
    && forall k :: 0 <= k < |v.items| && v.items[k].confirmed.Some? ==>
         && (v.items[k].expected.Some? ==> v.items[k].confirmed == v.items[k].expected)
         && Viewing(v.stage, v.items[k].region.page) in viewed
  }

  /** A stage that a receipt may vouch for. */
  ghost predicate Reviewed(setup: Setup, v: View) {
    Wellformed(v) && AllConfirmed(v.items) && Verified(StageReadings(v), TargetsOf(setup, v.stage), true)
  }

  ghost predicate ReceiptOk(setup: Setup, r: Receipt, v: Option<View>) {
    v.Some? && r.digest == Digest(v.value) && r.items == v.value.items && Reviewed(setup, v.value)
  }

  ghost predicate ReceiptsOk(setup: Setup, st: State) {
    forall i :: 0 <= i < |st.receipts| ==> ReceiptOk(setup, st.receipts[i], ViewOf(st, st.receipts[i].digest.stage))
  }

  ghost predicate HistoryOk(setup: Setup, st: State) {
    && (st.history.Some? ==>
          && st.history.value.stage.Published? && Reviewed(setup, st.history.value)
          && ReadingsOk(st.history.value, st.viewed)
          && (st.view.stage.Published? ==> st.history.value == st.view))
    && (st.view.stage.Restored? ==>
          && st.history.Some? && HasReceipt(st.receipts, Digest(st.history.value))
          && st.candidate == Some(st.view.input))
  }

  /** The view is what `_prepare` made of its measurements and the stage's targets. */
  ghost predicate Prepared(setup: Setup, v: View) {
    exists cells :: IsPartition(v.observations, TargetsOf(setup, v.stage), v.rows, Unconfirmed(v.items), cells)
  }

  ghost predicate Inv(setup: Setup, st: State) {
    && Retained(setup, st) <= setup.limit
    && Prepared(setup, st.view) && (st.history.Some? ==> Prepared(setup, st.history.value))
    && ReadingsOk(st.view, st.viewed)
    && (forall p :: p in st.seen ==> Viewing(st.view.stage, p) in st.viewed)
    && HistoryOk(setup, st)
    && ReceiptsOk(setup, st)
    && (st.complete.Some? ==> st.view.stage.Restored? && st.complete == st.candidate && HasReceipt(st.receipts, Digest(st.view)))
  }

  lemma {:induction false} ItemBytesUpdate(items: seq<Item>, k: nat, reading: Text)
    requires k < |items|
    ensures ItemBytes(items[k := items[k].(confirmed := Some(reading))]) + OptionBytes(items[k].confirmed)
         == ItemBytes(items) + TextBytes(reading.chars)
  {
    var n, after := |items| - 1, items[k := items[k].(confirmed := Some(reading))];
    if k < n {
      ItemBytesUpdate(items[..n], k, reading);
      assert after[..n] == items[..n][k := items[k].(confirmed := Some(reading))];
    } else {
      assert after[..n] == items[..n];
    }
  }

  lemma {:induction false} FreshItemsWeighNothing(items: seq<Item>)
    requires forall k :: 0 <= k < |items| ==> items[k].expected.None? && items[k].confirmed.None?
    ensures ItemBytes(items) == 0
  {
    if items != [] {
      FreshItemsWeighNothing(items[..|items| - 1]);
    }
  }

  lemma {:induction false} RenderingIsPrepared(setup: Setup, stage: Stage, input: string, r: Rendering, cells: seq<nat>)
    requires IsPartition(r.observations, TargetsOf(setup, stage), r.rows, r.items, cells)
    ensures Prepared(setup, ViewFrom(stage, input, r))
  {
    assert Fresh(r.items);
    assert Unconfirmed(r.items) == r.items;
  }

  lemma {:induction false} ShowKeeps(setup: Setup, st: State, page: nat, a: bool, b: bool)
    requires Inv(setup, st)
    ensures Inv(setup, Show(st, page, a, b).0)
  {
  }

  /** Once a stage has a receipt or a history, confirming again changes nothing. */
  lemma {:induction false} ConfirmedIsFixed(setup: Setup, st: State, k: nat, reading: Text)
    requires k < |st.view.items| && st.view.items[k].confirmed == Some(reading)
    ensures WithReading(st, k, reading) == st
  {
    assert st.view.items[k := st.view.items[k].(confirmed := Some(reading))] == st.view.items;
  }

  lemma {:induction false} NewReadingKeeps(setup: Setup, st: State, k: nat, digest: View, image: string, reading: Text)
    requires Inv(setup, st) && k < |st.view.items| && Acceptable(setup, st, k, digest, image, reading)
    requires st.view.items[k].confirmed.None?
    ensures Inv(setup, WithReading(st, k, reading))
  {
    var after := WithReading(st, k, reading);
    ItemBytesUpdate(st.view.items, k, reading);
    assert Unconfirmed(after.view.items) == Unconfirmed(st.view.items);
    assert !AllConfirmed(st.view.items);
    forall i | 0 <= i < |st.receipts| ensures ReceiptOk(setup, st.receipts[i], ViewOf(after, st.receipts[i].digest.stage)) {
      assert ReceiptOk(setup, st.receipts[i], ViewOf(st, st.receipts[i].digest.stage));
    }
  }

  lemma {:induction false} MoreReceipts(receipts: seq<Receipt>, r: Receipt, d: View)
    ensures HasReceipt(receipts + [r], r.digest)
    ensures HasReceipt(receipts, d) ==> HasReceipt(receipts + [r], d)
  {
    assert (receipts + [r])[|receipts|] == r;
    if HasReceipt(receipts, d) {
      var i :| 0 <= i < |receipts| && receipts[i].digest == d;
      assert (receipts + [r])[i].digest == d;
    }
  }

  /** A receipt for the view under review may be added once it has been reviewed. */
  lemma {:induction false} ReceiptKeeps(setup: Setup, st: State)
    requires Inv(setup, st) && Reviewed(setup, st.view)
    ensures Inv(setup, st.(receipts := st.receipts + [Receipt(Digest(st.view), st.view.items)]))
  {
    var r := Receipt(Digest(st.view), st.view.items);
    var after := st.(receipts := st.receipts + [r]);
    MoreReceipts(st.receipts, r, Digest(st.view));
    if st.history.Some? {
      MoreReceipts(st.receipts, r, Digest(st.history.value));
    }
    forall i | 0 <= i < |after.receipts| ensures ReceiptOk(setup, after.receipts[i], ViewOf(after, after.receipts[i].digest.stage)) {
      assert i < |st.receipts| ==> ReceiptOk(setup, st.receipts[i], ViewOf(st, st.receipts[i].digest.stage));
    }
  }

  lemma {:induction false} TakeKeeps(setup: Setup, st: State, alive: bool)
    requires Inv(setup, st)
    ensures
      var (after, taking) := Take(setup, st, alive);
      && Inv(setup, after) && after == st.(receipts := after.receipts)
      && (taking.Ready? ==> HasReceipt(after.receipts, Digest(st.view)) && Reviewed(setup, st.view))
  {
    var (after, taking) := Take(setup, st, alive);
    if after != st {
      ReceiptKeeps(setup, st);
      MoreReceipts(st.receipts, Receipt(Digest(st.view), st.view.items), Digest(st.view));
    }
  }

  lemma {:induction false} ConfirmKeeps(setup: Setup, st: State, k: nat, digest: View, image: string, reading: Text, a: bool, b: bool, c: bool, d: bool)
    requires Inv(setup, st)
    ensures Inv(setup, Confirm(setup, st, k, digest, image, reading, a, b, c, d).0)
  {
    if a && k < |st.view.items| && Acceptable(setup, st, k, digest, image, reading) {
      var changed := WithReading(st, k, reading);
      if st.view.items[k].confirmed.Some? {
        ConfirmedIsFixed(setup, st, k, reading);
      } else {
        NewReadingKeeps(setup, st, k, digest, image, reading);
      }
      TakeKeeps(setup, changed, c);
    }
  }

  /** The restored stage has no placeholder cells: its targets are none. */
  ghost predicate RestoredRendering(r: Rendering) {
    IsPartition(r.observations, [], r.rows, r.items, [])
  }

  lemma {:induction false} RestoredItems(r: Rendering)
    requires RestoredRendering(r)
    ensures |r.rows| == |r.observations| && Fresh(r.items) && ItemBytes(r.items) == 0
  {
    forall k | 0 <= k < |r.items| ensures r.items[k].expected.None? && r.items[k].confirmed.None? {
      assert SingleItem(r.observations, r.items[k]);
    }
    FreshItemsWeighNothing(r.items);
  }

  /** The published stage enters the history, with or without a new candidate. */
  lemma {:induction false} HistoryKeeps(setup: Setup, st: State, candidate: Option<string>)
    requires Inv(setup, st) && st.view.stage.Published? && Reviewed(setup, st.view)
    requires st.complete.None? && Retained(setup, st.(history := Some(st.view), candidate := candidate)) <= setup.limit
    ensures Inv(setup, st.(history := Some(st.view), candidate := candidate))
  {
    var after := st.(history := Some(st.view), candidate := candidate);
    forall i | 0 <= i < |st.receipts| ensures ReceiptOk(setup, st.receipts[i], ViewOf(after, st.receipts[i].digest.stage)) {
      assert ReceiptOk(setup, st.receipts[i], ViewOf(st, st.receipts[i].digest.stage));
    }
  }

  lemma {:induction false} PrepareKeeps(setup: Setup, st: State, r: Option<Rendering>, alive: bool)
    requires Inv(setup, st) && st.view.stage.Published? && st.history == Some(st.view) && st.candidate.Some? && st.complete.None?
    requires HasReceipt(st.receipts, Digest(st.view)) && (r.Some? ==> RestoredRendering(r.value))
    ensures Inv(setup, PrepareRestored(setup, st, r, alive).0)
  {
    var (after, ok) := PrepareRestored(setup, st, r, alive);
    if ok {
      RestoredItems(r.value);
      RenderingIsPrepared(setup, Restored, st.candidate.value, r.value, []);
      forall i | 0 <= i < |st.receipts| ensures ReceiptOk(setup, st.receipts[i], ViewOf(after, st.receipts[i].digest.stage)) {
        assert ReceiptOk(setup, st.receipts[i], ViewOf(st, st.receipts[i].digest.stage));
      }
    }
  }

  lemma {:induction false} RestoreKeeps(setup: Setup, st: State, written: string, r: Option<Rendering>, viewable: bool, alive: bool)
    requires Inv(setup, st) && st.view.stage.Published? && Reviewed(setup, st.view) && HasReceipt(st.receipts, Digest(st.view))
    requires st.complete.None? && (r.Some? ==> RestoredRendering(r.value))
    ensures Inv(setup, Restore(setup, st, written, r, viewable, alive).0)
    ensures Restore(setup, st, written, r, viewable, alive).0.complete.None?
    ensures Restore(setup, st, written, r, viewable, alive).1 ==> Restore(setup, st, written, r, viewable, alive).0.view.stage.Restored?
  {
    HistoryKeeps(setup, st, st.candidate);
    var kept := st.(history := Some(st.view));
    assert kept == st.(history := Some(st.view), candidate := st.candidate);
    if Admits(setup, kept, |written|) {
      HistoryKeeps(setup, st, Some(written));
      PrepareKeeps(setup, kept.(candidate := Some(written)), r, alive);
    }
  }

  lemma {:induction false} ConcludeKeeps(setup: Setup, st: State, a: bool, b: bool)
    requires Inv(setup, st) && st.view.stage.Restored? && st.complete.None?
    ensures Inv(setup, Conclude(setup, st, a, b).0)
  {
    TakeKeeps(setup, st, a);
  }

  lemma {:induction false} AdvanceKeeps(
    setup: Setup, st: State, written: string, r: Option<Rendering>, a: bool, b: bool, v: bool, c: bool, d: bool, e: bool)
    requires Inv(setup, st) && (r.Some? ==> RestoredRendering(r.value))
    ensures Inv(setup, Advance(setup, st, written, r, a, b, v, c, d, e).0)
  {
    if a && st.complete.None? {
      if st.view.stage.Restored? {
        ConcludeKeeps(setup, st, b, e);
      } else {
        var (taken, taking) := Take(setup, st, b);
        TakeKeeps(setup, st, b);
        if taking.Ready? {
          RestoreKeeps(setup, taken, written, r, v, c);
          var (restored, ok) := Restore(setup, taken, written, r, v, c);
          if ok {
            ConcludeKeeps(setup, restored, d, e);
          }
        }
      }
    }
  }

  // -------------------------------------------------------------------------- every run

  datatype Step =
    | DoShow(page: nat, a: bool, b: bool)
    | DoConfirm(k: nat, digest: View, image: string, reading: Text, a: bool, b: bool, c: bool, d: bool)
    | DoAdvance(written: string, rendering: Option<Rendering>, a: bool, b: bool, v: bool, c: bool, d: bool, e: bool)

  ghost function Next(setup: Setup, st: State, step: Step): State {
    if !Wellformed(st.view) then st
    else
      match step
      case DoShow(page, a, b) => Show(st, page, a, b).0
      case DoConfirm(k, digest, image, reading, a, b, c, d) => Confirm(setup, st, k, digest, image, reading, a, b, c, d).0
      case DoAdvance(written, r, a, b, v, c, d, e) =>
        if r.Some? && !RestoredRendering(r.value) then st
        else Advance(setup, st, written, r, a, b, v, c, d, e).0
  }

  ghost predicate PublishedRendering(setup: Setup, r: Rendering) {
    exists cells :: IsPartition(r.observations, setup.targets, r.rows, r.items, cells)
  }

  /** The session after any sequence of operations on a review that began. */
  ghost function After(setup: Setup, r: Rendering, steps: seq<Step>): State
    requires Begin(setup, r).Some?
  {
    if steps == [] then Begin(setup, r).value
    else Next(setup, After(setup, r, steps[..|steps| - 1]), steps[|steps| - 1])
  }

  lemma {:induction false} ReachableInv(setup: Setup, r: Rendering, steps: seq<Step>)
    requires PublishedRendering(setup, r) && Begin(setup, r).Some?
    ensures Inv(setup, After(setup, r, steps))
  {
    if steps == [] {
      BeginKeeps(setup, r);
    } else {
      ReachableInv(setup, r, steps[..|steps| - 1]);
      NextKeeps(setup, After(setup, r, steps[..|steps| - 1]), steps[|steps| - 1]);
    }
  }

  lemma {:induction false} BeginKeeps(setup: Setup, r: Rendering)
    requires PublishedRendering(setup, r) && Begin(setup, r).Some?
    ensures Inv(setup, Begin(setup, r).value)
  {
    var cells :| IsPartition(r.observations, setup.targets, r.rows, r.items, cells);
    RenderingIsPrepared(setup, Published, setup.pdf, r, cells);
    BeginsFresh(setup, r);
  }

  lemma {:induction false} BeginsFresh(setup: Setup, r: Rendering)
    requires |r.rows| == |r.observations| && Fresh(r.items) && Begin(setup, r).Some?
    requires Prepared(setup, ViewFrom(Published, setup.pdf, r))
    ensures Inv(setup, Begin(setup, r).value)
  {
  }

  lemma {:induction false} NextKeeps(setup: Setup, st: State, step: Step)
    requires Inv(setup, st)
    ensures Inv(setup, Next(setup, st, step))
  {
    match step
    case DoShow(page, a, b) => ShowKeeps(setup, st, page, a, b);
    case DoConfirm(k, digest, image, reading, a, b, c, d) => ConfirmKeeps(setup, st, k, digest, image, reading, a, b, c, d);
    case DoAdvance(written, r, a, b, v, c, d, e) =>
      if r.Some? ==> RestoredRendering(r.value) {
        AdvanceKeeps(setup, st, written, r, a, b, v, c, d, e);
      }
  }

  // ------------------------------------------------------------------------ main results

  /** Everything of a stage that a human must read has been read: each uncertain or
      placeholder-like measurement lies in a confirmed item, and each target printed in that
      stage has its own item, confirmed with exactly the text it is bound to. */
  ghost predicate Covered(setup: Setup, v: View) {
    && Wellformed(v)
    && (forall i :: 0 <= i < |v.observations| ==> Plain(v.observations[i]) || ReadIn(v, i))
    && (forall t :: 0 <= t < |TargetsOf(setup, v.stage)| && TargetsOf(setup, v.stage)[t].present ==>
          exists k: nat :: ConfirmsTarget(v, k, TargetsOf(setup, v.stage)[t]))
  }

  /** Measured with confidence, and nothing like a placeholder in it. */
  predicate Plain(o: Observation) {
    o.confidence.Some? && o.confidence.value >= 0.85 && o.text.tokens == Some([])
  }

  ghost predicate ReadIn(v: View, i: nat) {
    && i < |v.rows| && v.rows[i].Some?
    && var k := v.rows[i].value;
       k < |v.items| && i in v.items[k].members && v.items[k].confirmed.Some?
  }

  ghost predicate ConfirmsTarget(v: View, k: nat, t: Target) {
    && k < |v.items| && v.items[k].kind.Placeholder?
    && v.items[k].region == t.region && v.items[k].confirmed == Some(t.printed)
  }

  lemma {:induction false} RequiredIsRead(v: View, targets: seq<Target>, blank: seq<Item>, cells: seq<nat>, i: nat)
    requires blank == Unconfirmed(v.items) && IsPartition(v.observations, targets, v.rows, blank, cells)
    requires AllConfirmed(v.items) && i < |v.observations| && Required(v.observations[i])
    ensures ReadIn(v, i)
  {
    var k := v.rows[i].value;
    assert Agree(v.rows, blank);
    assert i in blank[k].members;
  }

  lemma {:induction false} TargetIsRead(v: View, viewed: set<Viewing>, targets: seq<Target>, blank: seq<Item>, cells: seq<nat>, k: nat)
    requires blank == Unconfirmed(v.items) && CellsAreTargets(cells, blank, targets) && k < |cells|
    requires AllConfirmed(v.items) && ReadingsOk(v, viewed)
    ensures cells[k] < |targets| && ConfirmsTarget(v, k, targets[cells[k]])
  {
    assert blank[k].expected == v.items[k].expected;
  }

  lemma {:induction false} CoveredByPartition(
    setup: Setup, v: View, viewed: set<Viewing>, targets: seq<Target>, blank: seq<Item>, cells: seq<nat>)
    requires targets == TargetsOf(setup, v.stage) && blank == Unconfirmed(v.items)
    requires IsPartition(v.observations, targets, v.rows, blank, cells)
    requires AllConfirmed(v.items) && ReadingsOk(v, viewed)
    ensures Covered(setup, v)
  {
    forall i | 0 <= i < |v.observations| ensures Plain(v.observations[i]) || ReadIn(v, i) {
      if Required(v.observations[i]) {
        RequiredIsRead(v, targets, blank, cells, i);
      }
    }
    forall t | 0 <= t < |targets| && targets[t].present ensures exists k: nat :: ConfirmsTarget(v, k, targets[t]) {
      var k := CellOf(v, targets, blank, cells, t);
      TargetIsRead(v, viewed, targets, blank, cells, k);
    }
  }

  lemma {:induction false} CellOf(v: View, targets: seq<Target>, blank: seq<Item>, cells: seq<nat>, t: nat) returns (k: nat)
    requires IsPartition(v.observations, targets, v.rows, blank, cells) && t < |targets| && targets[t].present
    ensures k < |cells| && cells[k] == t
  {
    k :| k < |cells| && cells[k] == t;
  }

  lemma {:induction false} ReviewedIsCovered(setup: Setup, v: View, viewed: set<Viewing>)
    requires Prepared(setup, v) && AllConfirmed(v.items) && ReadingsOk(v, viewed)
    ensures Covered(setup, v)
  {
    var targets, blank := TargetsOf(setup, v.stage), Unconfirmed(v.items);
    var cells :| IsPartition(v.observations, targets, v.rows, blank, cells);
    CoveredByPartition(setup, v, viewed, targets, blank, cells);
  }

  /** Nothing is finished before both stages have receipts: every measurement that needs a human
      and every printed target has a confirmed reading, made of a page shown in its own stage, a
      placeholder's exactly as bound; each stage's readings account for exactly the printed targets; and the finished bytes are the very
      candidate that was reviewed. */
  lemma {:induction false} FinishedWasReviewedTwice(setup: Setup, r: Rendering, steps: seq<Step>)
    requires PublishedRendering(setup, r) && Begin(setup, r).Some?
    requires After(setup, r, steps).complete.Some?
    ensures
      var st := After(setup, r, steps);
      && st.history.Some? && st.history.value.stage.Published? && st.view.stage.Restored?
      && st.complete == st.candidate == Some(st.view.input)
      && HasReceipt(st.receipts, Digest(st.history.value)) && HasReceipt(st.receipts, Digest(st.view))
      && Reviewed(setup, st.history.value) && Reviewed(setup, st.view)
      && ReadingsOk(st.history.value, st.viewed) && ReadingsOk(st.view, st.viewed)
      && Covered(setup, st.history.value) && Covered(setup, st.view)
  {
    var st := After(setup, r, steps);
    ReachableInv(setup, r, steps);
    var i :| 0 <= i < |st.receipts| && st.receipts[i].digest == Digest(st.view);
    assert ReceiptOk(setup, st.receipts[i], ViewOf(st, st.receipts[i].digest.stage));
    ReviewedIsCovered(setup, st.history.value, st.viewed);
    ReviewedIsCovered(setup, st.view, st.viewed);
  }

  lemma {:induction false} ReceiptsPermit(st: State, digest: string, alive: bool)
    requires st.complete.Some? ==>
      && st.history.Some? && st.history.value.stage.Published? && st.view.stage.Restored?
      && HasReceipt(st.receipts, Digest(st.history.value)) && HasReceipt(st.receipts, Digest(st.view))
    ensures Permits(st, digest, alive) <==> alive && st.complete == Some(digest)
  {
    if st.complete == Some(digest) {
      var i :| 0 <= i < |st.receipts| && st.receipts[i].digest == Digest(st.history.value);
      var j :| 0 <= j < |st.receipts| && st.receipts[j].digest == Digest(st.view);
      assert st.receipts[i].digest.stage.Published? && st.receipts[j].digest.stage.Restored?;
    }
  }

  /** Completion is permitted for exactly the finished bytes, while the review is alive. */
  lemma {:induction false} PermitsExactlyTheFinished(setup: Setup, r: Rendering, steps: seq<Step>, digest: string, alive: bool)
    requires PublishedRendering(setup, r) && Begin(setup, r).Some?
    ensures Permits(After(setup, r, steps), digest, alive) <==> alive && After(setup, r, steps).complete == Some(digest)
  {
    if After(setup, r, steps).complete.Some? {
      FinishedWasReviewedTwice(setup, r, steps);
    }
    ReceiptsPermit(After(setup, r, steps), digest, alive);
  }

  // ------------------------------------------------ what is reviewed, and what is finished

  /** Leaving the published stage: the candidate is what was written, the new view is of just those
      bytes and of what was prepared from them, and the published view is kept. */
  ghost predicate LeavesPublished(st: State, after: State, written: string, r: Option<Rendering>) {
    && st.view.stage.Published? && after.view.stage.Restored?
    && after.candidate == Some(written) && after.view.input == written && after.history == Some(st.view)
    && r.Some? && after.view.pages == r.value.pages && after.view.observations == r.value.observations
    && after.view.rows == r.value.rows && after.view.items == r.value.items
    && after.seen == {}
    && (after.complete.Some? ==> after.complete == Some(written))
  }

  lemma {:induction false} AdvanceLeaves(
    setup: Setup, st: State, written: string, r: Option<Rendering>, a: bool, b: bool, v: bool, c: bool, d: bool, e: bool)
    requires Wellformed(st.view) && st.view.stage.Published? && (r.Some? ==> |r.value.rows| == |r.value.observations|)
    requires Advance(setup, st, written, r, a, b, v, c, d, e).0.view.stage.Restored?
    ensures LeavesPublished(st, Advance(setup, st, written, r, a, b, v, c, d, e).0, written, r)
  {
    var (taken, taking) := Take(setup, st, b);
    var (restored, ok) := Restore(setup, taken, written, r, v, c);
    if ok {
      ConcludeShape(setup, restored, d, e);
    }
  }

  /** Outside `advance` a session stays in its stage, and a restored one keeps its bytes. */
  lemma {:induction false} StageStays(setup: Setup, st: State, step: Step)
    requires !step.DoAdvance? || st.view.stage.Restored?
    ensures
      var after := Next(setup, st, step);
      after.view.stage == st.view.stage && after.view.input == st.view.input && after.candidate == st.candidate
  {
    if Wellformed(st.view) {
      match step
      case DoShow(_, _, _) =>
      case DoConfirm(k, digest, image, reading, a, b, c, d) => ConfirmStays(setup, st, k, digest, image, reading, a, b, c, d);
      case DoAdvance(_, _, _, b, _, _, _, e) => ConcludeShape(setup, st, b, e);
    }
  }

  lemma {:induction false} ConfirmStays(
    setup: Setup, st: State, k: nat, digest: View, image: string, reading: Text, a: bool, b: bool, c: bool, d: bool)
    requires Wellformed(st.view)
    ensures
      var after := Confirm(setup, st, k, digest, image, reading, a, b, c, d).0;
      after.view.stage == st.view.stage && after.view.input == st.view.input && after.candidate == st.candidate
  {
  }

  lemma {:induction false} ReachableWellformed(setup: Setup, r: Rendering, steps: seq<Step>)
    requires PublishedRendering(setup, r) && Begin(setup, r).Some?
    ensures Wellformed(After(setup, r, steps).view)
  {
    ReachableInv(setup, r, steps);
  }

  /** Step `k` was the one that left the published stage, and it wrote `bytes`. */
  ghost predicate WroteAt(setup: Setup, r: Rendering, steps: seq<Step>, k: nat, bytes: string)
    requires Begin(setup, r).Some?
  {
    && k < |steps| && steps[k].DoAdvance? && steps[k].written == bytes
    && After(setup, r, steps[..k]).view.stage.Published?
    && LeavesPublished(After(setup, r, steps[..k]), After(setup, r, steps[..k + 1]), bytes, steps[k].rendering)
  }

  lemma {:induction false} RestoredWasWritten(setup: Setup, r: Rendering, steps: seq<Step>) returns (k: nat)
    requires PublishedRendering(setup, r) && Begin(setup, r).Some?
    requires After(setup, r, steps).view.stage.Restored?
    ensures WroteAt(setup, r, steps, k, After(setup, r, steps).view.input)
  {
    var n := |steps| - 1;
    var before := After(setup, r, steps[..n]);
    if before.view.stage.Restored? {
      StageStays(setup, before, steps[n]);
      k := RestoredWasWritten(setup, r, steps[..n]);
      WroteEarlier(setup, r, steps, k, before.view.input);
    } else {
      if !steps[n].DoAdvance? {
        StageStays(setup, before, steps[n]);
      }
      k := n;
      LeftNow(setup, r, steps);
    }
  }

  lemma {:induction false} WroteEarlier(setup: Setup, r: Rendering, steps: seq<Step>, k: nat, bytes: string)
    requires Begin(setup, r).Some? && steps != [] && WroteAt(setup, r, steps[..|steps| - 1], k, bytes)
    ensures WroteAt(setup, r, steps, k, bytes)
  {
    var n := |steps| - 1;
    assert steps[..n][..k] == steps[..k] && steps[..n][..k + 1] == steps[..k + 1] && steps[..n][k] == steps[k];
  }

  lemma {:induction false} LeftNow(setup: Setup, r: Rendering, steps: seq<Step>)
    requires PublishedRendering(setup, r) && Begin(setup, r).Some? && steps != []
    requires steps[|steps| - 1].DoAdvance? && After(setup, r, steps).view.stage.Restored?
    requires After(setup, r, steps[..|steps| - 1]).view.stage.Published?
    ensures WroteAt(setup, r, steps, |steps| - 1, After(setup, r, steps).view.input)
  {
    var n := |steps| - 1;
    ReachableWellformed(setup, r, steps[..n]);
    LeftHere(setup, After(setup, r, steps[..n]), steps[n]);
    assert steps[..n + 1] == steps;
  }

  lemma {:induction false} LeftHere(setup: Setup, st: State, step: Step)
    requires Wellformed(st.view) && st.view.stage.Published? && step.DoAdvance? && Next(setup, st, step).view.stage.Restored?
    ensures LeavesPublished(st, Next(setup, st, step), step.written, step.rendering)
  {
    AdvanceLeaves(setup, st, step.written, step.rendering, step.a, step.b, step.v, step.c, step.d, step.e);
  }

  /** A finished artifact is what the processor wrote when the review left its published stage. */
  lemma {:induction false} FinishedIsWhatWasWritten(setup: Setup, r: Rendering, steps: seq<Step>) returns (k: nat)
    requires PublishedRendering(setup, r) && Begin(setup, r).Some?
    requires After(setup, r, steps).complete.Some?
    ensures WroteAt(setup, r, steps, k, After(setup, r, steps).complete.value)
  {
    ReachableInv(setup, r, steps);
    k := RestoredWasWritten(setup, r, steps);
  }

  // ------------------------------------------------------------ when an operation succeeds

  /** The digest a client holds is of the view under review, whatever has been read since. */
  predicate IsOf(digest: View, v: View) {
    && digest.stage == v.stage && digest.input == v.input && digest.pages == v.pages
    && digest.observations == v.observations && digest.rows == v.rows && |digest.items| == |v.items|
    && forall i :: 0 <= i < |v.items| ==>
         digest.items[i].confirmed.None? && digest.items[i].(confirmed := v.items[i].confirmed) == v.items[i]
  }

  lemma {:induction false} DigestIdentifies(digest: View, v: View)
    ensures digest == Digest(v) <==> IsOf(digest, v)
  {
    if IsOf(digest, v) {
      forall i | 0 <= i < |v.items| ensures digest.items[i] == Unconfirmed(v.items)[i] {
      }
    }
  }

  /** The page as it was rendered last. */
  predicate ShownAs(pages: seq<Page>, number: nat, image: string) {
    exists i :: 0 <= i < |pages| && pages[i] == Page(number, image) && forall j :: i < j < |pages| ==> pages[j].number != number
  }

  lemma {:induction false} ShownExactly(pages: seq<Page>, number: nat, image: string)
    ensures OnPages(pages, number) <==> exists i :: 0 <= i < |pages| && pages[i].number == number
    ensures ShownAs(pages, number, image) <==> OnPages(pages, number) && image == ImageOf(pages, number)
  {
    if pages != [] {
      var n := |pages| - 1;
      if pages[n].number == number {
        assert pages[n] == Page(number, pages[n].image);
      } else {
        ShownExactly(pages[..n], number, image);
        assert forall i :: 0 <= i < n ==> pages[..n][i] == pages[i];
        ShownInFront(pages, number, image);
      }
    }
  }

  lemma {:induction false} ShownInFront(pages: seq<Page>, number: nat, image: string)
    requires pages != [] && pages[|pages| - 1].number != number
    ensures ShownAs(pages, number, image) <==> ShownAs(pages[..|pages| - 1], number, image)
    ensures OnPages(pages, number) <==> OnPages(pages[..|pages| - 1], number)
  {
    var front := pages[..|pages| - 1];
    assert forall i :: 0 <= i < |front| ==> front[i] == pages[i];
    if ShownAs(front, number, image) {
      var i :| 0 <= i < |front| && front[i] == Page(number, image) && forall j :: i < j < |front| ==> front[j].number != number;
      assert pages[i] == Page(number, image);
    }
    if ShownAs(pages, number, image) {
      var i :| 0 <= i < |pages| && pages[i] == Page(number, image) && forall j :: i < j < |pages| ==> pages[j].number != number;
      assert front[i] == Page(number, image);
    }
    if OnPages(pages, number) {
      var i :| 0 <= i < |pages| && pages[i].number == number;
      assert front[i].number == number;
    }
  }

  /** The white space a reading may not consist of alone; control characters are refused anyway. */
  predicate Blank(c: char) {
    c as int in {0x20, 0x85, 0xA0, 0x1680, 0x2000, 0x2001, 0x2002, 0x2003, 0x2004, 0x2005, 0x2006, 0x2007, 0x2008, 0x2009, 0x200A,
                 0x2028, 0x2029, 0x202F, 0x205F, 0x3000}
  }

  /** Readings the session accepts for item `k`. */
  ghost predicate AcceptableReading(setup: Setup, st: State, k: nat, image: string, reading: Text) {
    && k < |st.view.items|
    && var item := st.view.items[k];
    && item.region.page in st.seen && ShownAs(st.view.pages, item.region.page, image)
    && (exists i :: 0 <= i < |reading.chars| && !Blank(reading.chars[i]))
    && (forall i :: 0 <= i < |reading.chars| ==> 32 <= reading.chars[i] as int)
    && (item.expected.None? || reading == item.expected.value)
    && (item.confirmed.None? || reading == item.confirmed.value)
    && (item.confirmed.Some? || Retained(setup, st) + TextBytes(reading.chars) <= setup.limit)
    && Verified([Reading(reading, item.region)], if item.kind.Placeholder? then setup.targets else [], false)
  }

  /** Reading item `k`, and nothing else of the view. */
  ghost predicate ReadsItem(st: State, after: State, k: nat, reading: Text) {
    && after == st.(view := st.view.(items := after.view.items), receipts := after.receipts)
    && |after.view.items| == |st.view.items|
    && forall i :: 0 <= i < |st.view.items| ==>
         after.view.items[i] == if i == k then st.view.items[i].(confirmed := Some(reading)) else st.view.items[i]
  }

  /** The receipt of a stage is taken exactly when it is reviewed, once. */
  lemma {:induction false} ReceiptTakenExactly(setup: Setup, st: State, alive: bool)
    requires Wellformed(st.view)
    ensures
      var (after, taking) := Take(setup, st, alive);
      && after == st.(receipts := if alive && Reviewed(setup, st.view) && !HasReceipt(st.receipts, Digest(st.view))
                                  then st.receipts + [Receipt(Digest(st.view), st.view.items)] else st.receipts)
      && (taking.NotReady? <==> !AllConfirmed(st.view.items))
      && (taking.Ready? <==> alive && Reviewed(setup, st.view))
  {
  }

  lemma {:induction false} AcceptableExactly(setup: Setup, st: State, k: nat, digest: View, image: string, reading: Text)
    requires k < |st.view.items|
    ensures Acceptable(setup, st, k, digest, image, reading) <==>
            st.complete.None? && IsOf(digest, st.view) && AcceptableReading(setup, st, k, image, reading)
  {
    DigestIdentifies(digest, st.view);
    ShownExactly(st.view.pages, st.view.items[k].region.page, image);
    forall i | 0 <= i < |reading.chars| ensures Space(reading.chars[i]) <==> Blank(reading.chars[i]) {
      SpacesAre(reading.chars[i]);
    }
  }

  lemma {:induction false} SpacesAre(c: char)
    ensures Space(c) <==> Blank(c)
  {
  }

  /** A page is delivered exactly if the review is alive and has it; from then on it counts as seen,
      even if the review is found dead afterwards. */
  lemma {:induction false} DeliveredExactly(st: State, page: nat, a: bool, b: bool)
    ensures
      var (after, ok) := Show(st, page, a, b);
      var delivered := a && exists i :: 0 <= i < |st.view.pages| && st.view.pages[i].number == page;
      && (ok <==> delivered && b)
      && after == (if delivered then st.(seen := st.seen + {page}, viewed := st.viewed + {Viewing(st.view.stage, page)}) else st)
  {
    ShownExactly(st.view.pages, page, "");
  }

  /** What a stage reads as: each measurement outside every item as measured, each item as confirmed. */
  lemma {:induction false} StageReadsExactly(v: View, reading: Reading)
    requires Wellformed(v) && AllConfirmed(v.items)
    ensures reading in StageReadings(v) <==>
            || (exists i :: 0 <= i < |v.rows| && v.rows[i].None? && reading == Reading(v.observations[i].text, v.observations[i].region))
            || (exists k :: 0 <= k < |v.items| && reading == Reading(v.items[k].confirmed.value, v.items[k].region))
    ensures |StageReadings(v)| == |FreeReadings(v.observations, v.rows)| + |v.items|
  {
    FreeReadsExactly(v.observations, v.rows, reading);
    var items := ItemReadings(v.items);
    if reading in items {
      var k :| 0 <= k < |items| && items[k] == reading;
    }
    if k :| 0 <= k < |v.items| && reading == Reading(v.items[k].confirmed.value, v.items[k].region) {
      assert items[k] == reading;
    }
  }

  lemma {:induction false} FreeReadsExactly(observations: seq<Observation>, rows: seq<Option<nat>>, reading: Reading)
    requires |rows| == |observations|
    ensures reading in FreeReadings(observations, rows) <==>
            exists i :: 0 <= i < |rows| && rows[i].None? && reading == Reading(observations[i].text, observations[i].region)
  {
    if rows != [] {
      var n := |rows| - 1;
      FreeReadsExactly(observations[..n], rows[..n], reading);
      assert forall i :: 0 <= i < n ==> rows[..n][i] == rows[i] && observations[..n][i] == observations[i];
    }
  }

  /** The size of a character is its length in UTF-8: the least whose code points reach it. */
  lemma {:induction false} Utf8Length(c: char)
    ensures 1 <= CharBytes(c) <= 4
    ensures CharBytes(c) == 1 <==> c as int < 128
    ensures CharBytes(c) <= 2 <==> c as int < 2048
    ensures CharBytes(c) <= 3 <==> c as int < 65536
  {
  }

  /** A reading is stored exactly for a live, unfinished review, the view the client was shown, and
      an acceptable reading; nothing else of the view changes. With the last reading, and only then,
      the stage gets its receipt, if the inventory of its readings is exact. */
  lemma {:induction false} ReadingIsStoredExactly(
    setup: Setup, st: State, k: nat, digest: View, image: string, reading: Text, a: bool, b: bool, c: bool, d: bool)
    requires Inv(setup, st)
    ensures
      var (after, ok) := Confirm(setup, st, k, digest, image, reading, a, b, c, d);
      if !(a && st.complete.None? && IsOf(digest, st.view) && AcceptableReading(setup, st, k, image, reading)) then after == st && !ok
      else
        && ReadsItem(st, after, k, reading)
        && after.receipts == (if b && c && Reviewed(setup, after.view) && !HasReceipt(st.receipts, Digest(st.view))
                              then st.receipts + [Receipt(Digest(st.view), after.view.items)] else st.receipts)
        && (ok <==> b && d && (AllConfirmed(after.view.items) ==> c && Reviewed(setup, after.view)))
  {
    if k < |st.view.items| {
      AcceptableExactly(setup, st, k, digest, image, reading);
      var changed := WithReading(st, k, reading);
      assert Unconfirmed(changed.view.items) == Unconfirmed(st.view.items);
      ReceiptTakenExactly(setup, changed, c);
    }
  }

  /** The published stage is left exactly when it is reviewed, every check on the way finds the
      review alive, the candidate could be prepared, and what is retained stays within the limit. */
  lemma {:induction false} PublishedIsLeftExactly(
    setup: Setup, st: State, written: string, r: Option<Rendering>, a: bool, b: bool, v: bool, c: bool, d: bool, e: bool)
    requires Inv(setup, st) && st.view.stage.Published? && (r.Some? ==> |r.value.rows| == |r.value.observations|)
    ensures Advance(setup, st, written, r, a, b, v, c, d, e).0.view.stage.Restored? <==>
            && a && b && v && c && Reviewed(setup, st.view) && r.Some?
            && Retained(setup, st.(candidate := None)) + (if st.candidate.Some? then |st.candidate.value| else 0) + |written| <= setup.limit
            && Retained(setup, st.(candidate := None)) + |written| + ImageBytes(r.value.pages) + ObservationBytes(r.value.observations)
                 <= setup.limit
  {
    ReceiptTakenExactly(setup, st, b);
    var (taken, taking) := Take(setup, st, b);
    var (restored, ok) := Restore(setup, taken, written, r, v, c);
    if ok {
      ConcludeShape(setup, restored, d, e);
    }
  }

  /** The restored stage is finished exactly when it is reviewed while the review is alive. */
  lemma {:induction false} RestoredIsFinishedExactly(
    setup: Setup, st: State, written: string, r: Option<Rendering>, a: bool, b: bool, v: bool, c: bool, d: bool, e: bool)
    requires Inv(setup, st) && st.view.stage.Restored? && st.complete.None? && (r.Some? ==> |r.value.rows| == |r.value.observations|)
    ensures
      var (after, result) := Advance(setup, st, written, r, a, b, v, c, d, e);
      && (after.complete.Some? <==> a && b && e && Reviewed(setup, st.view))
      && result == after.complete && (after.complete.Some? ==> after.complete == Some(st.view.input))
  {
    ReceiptTakenExactly(setup, st, b);
  }

  /** The limit on retained bytes holds after every operation, refused ones included, and the
      retained evidence never contradicts a receipt. */
  lemma {:induction false} RetentionIsBounded(setup: Setup, r: Rendering, steps: seq<Step>)
    requires PublishedRendering(setup, r) && Begin(setup, r).Some?
    ensures Retained(setup, After(setup, r, steps)) <= setup.limit
    ensures ReceiptsOk(setup, After(setup, r, steps))
  {
    ReachableInv(setup, r, steps);
  }

  /** Everything a stage's readings said before, they still say. */
  ghost predicate Remembers(before: Option<View>, after: Option<View>) {
    before.Some? ==>
      && after.Some? && |after.value.items| == |before.value.items|
      && forall k :: 0 <= k < |before.value.items| && before.value.items[k].confirmed.Some? ==>
           after.value.items[k].confirmed == before.value.items[k].confirmed
  }

  lemma {:induction false} ConfirmRemembers(setup: Setup, st: State, k: nat, digest: View, image: string, reading: Text, a: bool, b: bool, c: bool, d: bool, stage: Stage)
    requires Inv(setup, st)
    ensures
      var after := Confirm(setup, st, k, digest, image, reading, a, b, c, d).0;
      Remembers(ViewOf(st, stage), ViewOf(after, stage)) && after.complete == st.complete
  {
  }

  /** Where a step may leave the two stages: as they were, or the published one in the history. */
  ghost predicate StagesKept(st: State, after: State) {
    || (after.view == st.view && after.history == st.history)
    || (after.view == st.view && st.view.stage.Published? && after.history == Some(st.view))
    || (after.view.stage.Restored? && st.view.stage.Published? && after.history == Some(st.view))
  }

  lemma {:induction false} ConcludeShape(setup: Setup, st: State, a: bool, b: bool)
    requires Wellformed(st.view)
    ensures
      var after := Conclude(setup, st, a, b).0;
      after == st.(receipts := after.receipts, complete := after.complete)
  {
  }

  lemma {:induction false} RestoreShape(setup: Setup, st: State, written: string, r: Option<Rendering>, viewable: bool, alive: bool)
    requires st.view.stage.Published?
    ensures StagesKept(st, Restore(setup, st, written, r, viewable, alive).0)
  {
  }

  lemma {:induction false} AdvanceShape(
    setup: Setup, st: State, written: string, r: Option<Rendering>, a: bool, b: bool, v: bool, c: bool, d: bool, e: bool)
    requires Wellformed(st.view) && (r.Some? ==> |r.value.rows| == |r.value.observations|)
    ensures StagesKept(st, Advance(setup, st, written, r, a, b, v, c, d, e).0)
    ensures st.complete.Some? ==> Advance(setup, st, written, r, a, b, v, c, d, e).0 == st
  {
    if a && st.complete.None? {
      if st.view.stage.Restored? {
        ConcludeShape(setup, st, b, e);
      } else {
        var (taken, taking) := Take(setup, st, b);
        if taking.Ready? {
          RestoreShape(setup, taken, written, r, v, c);
          var (restored, ok) := Restore(setup, taken, written, r, v, c);
          if ok {
            ConcludeShape(setup, restored, d, e);
          }
        }
      }
    }
  }

  lemma {:induction false} KeptIsRemembered(setup: Setup, st: State, after: State, stage: Stage)
    requires HistoryOk(setup, st) && StagesKept(st, after)
    ensures Remembers(ViewOf(st, stage), ViewOf(after, stage))
  {
  }

  lemma {:induction false} AdvanceRemembers(
    setup: Setup, st: State, written: string, r: Option<Rendering>, a: bool, b: bool, v: bool, c: bool, d: bool, e: bool, stage: Stage)
    requires Inv(setup, st) && (r.Some? ==> |r.value.rows| == |r.value.observations|)
    ensures
      var after := Advance(setup, st, written, r, a, b, v, c, d, e).0;
      Remembers(ViewOf(st, stage), ViewOf(after, stage)) && (st.complete.Some? ==> after.complete == st.complete)
  {
    AdvanceShape(setup, st, written, r, a, b, v, c, d, e);
    KeptIsRemembered(setup, st, Advance(setup, st, written, r, a, b, v, c, d, e).0, stage);
  }

  lemma {:induction false} StepRemembers(setup: Setup, st: State, step: Step, stage: Stage)
    requires Inv(setup, st)
    ensures Remembers(ViewOf(st, stage), ViewOf(Next(setup, st, step), stage))
    ensures st.complete.Some? ==> Next(setup, st, step).complete == st.complete
  {
    match step
    case DoShow(page, a, b) =>
    case DoConfirm(k, digest, image, reading, a, b, c, d) =>
      ConfirmRemembers(setup, st, k, digest, image, reading, a, b, c, d, stage);
    case DoAdvance(written, r, a, b, v, c, d, e) =>
      if r.Some? ==> RestoredRendering(r.value) {
        AdvanceRemembers(setup, st, written, r, a, b, v, c, d, e, stage);
      }
  }

  lemma {:induction false} RemembersLonger(a: Option<View>, b: Option<View>, c: Option<View>)
    requires Remembers(a, b) && Remembers(b, c)
    ensures Remembers(a, c)
  {
  }

  /** Nothing confirmed or finished in `st` is different in `later`. */
  ghost predicate KeptSince(st: State, later: State, stage: Stage) {
    && Remembers(ViewOf(st, stage), ViewOf(later, stage))
    && (st.complete.Some? ==> later.complete == st.complete)
  }

  lemma {:induction false} KeptByStep(setup: Setup, st: State, mid: State, step: Step, stage: Stage)
    requires Inv(setup, mid) && KeptSince(st, mid, stage)
    ensures KeptSince(st, Next(setup, mid, step), stage)
  {
    StepRemembers(setup, mid, step, stage);
    RemembersLonger(ViewOf(st, stage), ViewOf(mid, stage), ViewOf(Next(setup, mid, step), stage));
  }

  lemma {:induction false} LastStep(setup: Setup, r: Rendering, steps: seq<Step>, more: seq<Step>)
    requires Begin(setup, r).Some? && more != []
    ensures var n := |more| - 1;
            After(setup, r, steps + more) == Next(setup, After(setup, r, steps + more[..n]), more[n])
  {
    var all := steps + more;
    assert all[..|all| - 1] == steps + more[..|more| - 1];
    assert all[|all| - 1] == more[|more| - 1];
  }

  /** A confirmed reading is immutable: no later operation changes or drops it, in any stage,
      and a finished result never changes. */
  lemma {:induction false} ReadingsAreImmutable(setup: Setup, r: Rendering, steps: seq<Step>, more: seq<Step>, stage: Stage)
    requires PublishedRendering(setup, r) && Begin(setup, r).Some?
    ensures KeptSince(After(setup, r, steps), After(setup, r, steps + more), stage)
  {
    if more == [] {
      assert steps + more == steps;
    } else {
      var n := |more| - 1;
      ReadingsAreImmutable(setup, r, steps, more[..n], stage);
      LastStep(setup, r, steps, more);
      ReachableInv(setup, r, steps + more[..n]);
      KeptByStep(setup, After(setup, r, steps), After(setup, r, steps + more[..n]), more[n], stage);
    }
  }

  // -------------------------------------------------------------------------- the object

  /** `LocalRefillReview`; `viewed` is ghost history. */
  class Session {
    const setup: Setup
    var view: View
    var seen: set<nat>
    var receipts: seq<Receipt>
    var history: Option<View>
    var candidate: Option<string>
    var complete: Option<string>
    ghost var viewed: set<Viewing>

    ghost function Value(): State
      reads this
    {
      State(view, seen, receipts, history, candidate, complete, viewed)
    }

    constructor (setup: Setup, r: Rendering)
      requires Begin(setup, r).Some?
      ensures this.setup == setup && Some(Value()) == Begin(setup, r)
    {
      this.setup := setup;
      view := ViewFrom(Published, setup.pdf, r);
      seen, receipts, history, candidate, complete := {}, [], None, None, None;
      viewed := {};
    }

    method Image(page: nat, alive: bool, aliveAfter: bool) returns (ok: bool)
      modifies this`seen, this`viewed
      ensures (Value(), ok) == Show(old(Value()), page, alive, aliveAfter)
    {
      if !alive || !OnPages(view.pages, page) {
        return false;
      }
      seen := seen + {page};
      viewed := viewed + {Viewing(view.stage, page)};
      ok := aliveAfter;
    }

    method TakeReceipt(alive: bool) returns (taking: Taking)
      requires Wellformed(view)
      modifies this`receipts
      ensures (Value(), taking) == Take(setup, old(Value()), alive)
    {
      if !AllConfirmed(view.items) {
        return NotReady;
      }
      if !alive || !Verified(StageReadings(view), TargetsOf(setup, view.stage), true) {
        return Refused;
      }
      if !HasReceipt(receipts, Digest(view)) {
        receipts := receipts + [Receipt(Digest(view), view.items)];
      }
      taking := Ready;
    }

    method RetainedBytes() returns (n: nat)
      ensures n == Retained(setup, Value())
    {
      n := setup.originalBytes + |setup.pdf|;
      if candidate.Some? {
        n := n + |candidate.value|;
      }
      n := n + ViewBytes(view);
      if view.stage.Restored? && history.Some? {
        n := n + ViewBytes(history.value);
      }
    }

    method ConfirmItem(k: nat, digest: View, image: string, reading: Text, a: bool, b: bool, c: bool, d: bool) returns (ok: bool)
      requires Wellformed(view)
      modifies this`view, this`receipts
      ensures (Value(), ok) == Confirm(setup, old(Value()), k, digest, image, reading, a, b, c, d)
    {
      if !a || k >= |view.items| || digest != Digest(view) || complete.Some? {
        return false;
      }
      var item := view.items[k];
      var page := item.region.page;
      if page !in seen || !OnPages(view.pages, page) || image != ImageOf(view.pages, page) || !Visible(reading) {
        return false;
      }
      if (item.expected.Some? && reading != item.expected.value) || (item.confirmed.Some? && reading != item.confirmed.value) {
        return false;
      }
      var retained := RetainedBytes();
      if item.confirmed.None? && retained + TextBytes(reading.chars) > setup.limit {
        return false;
      }
      if !Verified([Reading(reading, item.region)], if item.kind.Placeholder? then setup.targets else [], false) {
        return false;
      }
      view := view.(items := view.items[k := item.(confirmed := Some(reading))]);
      if !b {
        return false;
      }
      var taking := TakeReceipt(c);
      ok := !taking.Refused? && d;
    }

    /** Leaves the published stage; what it stored before a refusal stays stored. */
    method RestoreCandidate(written: string, r: Option<Rendering>, viewable: bool, alive: bool) returns (ok: bool)
      modifies this
      ensures (Value(), ok) == Restore(setup, old(Value()), written, r, viewable, alive)
    {
      if !viewable {
        return false;
      }
      history := Some(view);
      var retained := RetainedBytes();
      if retained + |written| > setup.limit {
        return false;
      }
      candidate := Some(written);
      retained := RetainedBytes();
      if !alive || r.None? || retained + (ImageBytes(r.value.pages) + ObservationBytes(r.value.observations)) > setup.limit {
        return false;
      }
      view := ViewFrom(Restored, written, r.value);
      seen := {};
      ok := true;
    }

    method ConcludeReview(alive: bool, aliveAfter: bool) returns (result: Option<string>)
      requires Wellformed(view)
      modifies this
      ensures (Value(), result) == Conclude(setup, old(Value()), alive, aliveAfter)
    {
      var taking := TakeReceipt(alive);
      if !taking.Ready? || candidate.None? || !aliveAfter {
        return None;
      }
      complete := candidate;
      result := complete;
    }

    method AdvanceReview(written: string, r: Option<Rendering>, a: bool, b: bool, v: bool, c: bool, d: bool, e: bool) returns (result: Option<string>)
      requires Wellformed(view) && (r.Some? ==> |r.value.rows| == |r.value.observations|)
      modifies this
      ensures (Value(), result) == Advance(setup, old(Value()), written, r, a, b, v, c, d, e)
    {
      if !a {
        return None;
      }
      if complete.Some? {
        return complete;
      }
      if view.stage.Restored? {
        result := ConcludeReview(b, e);
        return;
      }
      var taking := TakeReceipt(b);
      if !taking.Ready? {
        return None;
      }
      var ok := RestoreCandidate(written, r, v, c);
      if !ok {
        return None;
      }
      result := ConcludeReview(d, e);
    }
  }
}
