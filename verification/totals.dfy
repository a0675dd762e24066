/** The totals panel: a reduction over the selected lines. A line whose
    catalogue entry says its price includes GST is split into its ex-GST part
    (total / 1.1) and the GST in it; any other line, custom lines included,
    has GST of a tenth added on top. Amounts are exact. */
module Totals {
  import opened Wrappers
  import opened Catalogue
  import opened Estimator

  /** A running pair of sums: the amount excluding GST and the GST. */
  datatype Amounts = Amounts(exGst: real, gst: real)

  const Zero: Amounts := Amounts(0.0, 0.0)

  function Plus(a: Amounts, b: Amounts): Amounts {
    Amounts(a.exGst + b.exGst, a.gst + b.gst)
  }

  /** What the panel shows. */
  datatype Totals = Totals(subtotal: real, gst: real, total: real)

  /** `itemData?.gstIncluded`: only a line that has a catalogue entry, and
      whose entry is flagged, counts as GST-inclusive. */
  predicate GstIncluded(cat: seq<CatalogueItem>, line: SelectedItem) {
    Find(cat, line.id).Some? && Find(cat, line.id).value.gstIncluded
  }

  /** A line counts as inclusive only through a catalogue entry with its id
      and the flag set; with distinct ids, exactly when its entry is flagged. */
  lemma GstIncludedMeaning(cat: seq<CatalogueItem>, line: SelectedItem)
    ensures GstIncluded(cat, line) ==>
              exists i | 0 <= i < |cat| :: cat[i].id == line.id && cat[i].gstIncluded
    ensures (forall i | 0 <= i < |cat| :: cat[i].id != line.id) ==> !GstIncluded(cat, line)
    ensures IdsDistinct(cat) ==>
              forall i | 0 <= i < |cat| && cat[i].id == line.id ::
                GstIncluded(cat, line) == cat[i].gstIncluded
  {
  }

  /** One line's share. An inclusive total splits into an ex-GST part whose
      110% is the total and the GST that makes up the rest; an exclusive
      total is itself the ex-GST part, and its GST is a tenth of it. */
  function Contribution(cat: seq<CatalogueItem>, line: SelectedItem): (a: Amounts)
    ensures GstIncluded(cat, line) ==> a.exGst * 1.1 == line.total && a.exGst + a.gst == line.total
    ensures !GstIncluded(cat, line) ==> a.exGst == line.total && a.gst * 10.0 == line.total
  {
    if GstIncluded(cat, line) then
      var exGst := line.total / 1.1;
      Amounts(exGst, line.total - exGst)
    else
      Amounts(line.total, line.total * 0.1)
  }

  /** What a line adds to the grand total: its own total when GST is
      included, its total plus a tenth otherwise. */
  function Gross(cat: seq<CatalogueItem>, line: SelectedItem): real {
    if GstIncluded(cat, line) then line.total else line.total * 1.1
  }

  /** No line total is negative. */
  predicate NonNegativeLines(lines: seq<SelectedItem>) {
    forall i | 0 <= i < |lines| :: lines[i].total >= 0.0
  }

  /** The `forEach` over `Object.values(selectedItems)`: contributions
      summed in order. */
  function Accumulate(cat: seq<CatalogueItem>, lines: seq<SelectedItem>): (a: Amounts)
    ensures NonNegativeLines(lines) ==> a.exGst >= 0.0 && a.gst >= 0.0
    decreases |lines|
  {
    if |lines| == 0 then Zero
    else Plus(Accumulate(cat, lines[..|lines| - 1]), Contribution(cat, lines[|lines| - 1]))
  }

  /** `calculateTotals`: the two sums and their sum. */
  function CalculateTotals(cat: seq<CatalogueItem>, lines: seq<SelectedItem>): (t: Totals)
    ensures t.total == t.subtotal + t.gst
    ensures |lines| == 0 ==> t == Totals(0.0, 0.0, 0.0)
  {
    var a := Accumulate(cat, lines);
    Totals(a.exGst, a.gst, a.exGst + a.gst)
  }

  /** The grand totals of the lines, summed independently of the split. */
  function GrossSum(cat: seq<CatalogueItem>, lines: seq<SelectedItem>): real
    decreases |lines|
  {
    if |lines| == 0 then 0.0
    else GrossSum(cat, lines[..|lines| - 1]) + Gross(cat, lines[|lines| - 1])
  }

  /** The total shown is the sum of what each line adds: inclusive lines
      exactly their total, exclusive lines their total plus GST. */
  lemma {:induction false} TotalIsGrossSum(cat: seq<CatalogueItem>, lines: seq<SelectedItem>)
    ensures CalculateTotals(cat, lines).total == GrossSum(cat, lines)
    decreases |lines|
  {
    if |lines| > 0 {
      TotalIsGrossSum(cat, lines[..|lines| - 1]);
    }
  }

  // ---------------------------------------------------------------------
  // Totals of a selection map, whatever order its values come in

  /** The contributions of the lines in `m`, summed over its keys. */
  ghost function MapAmounts(cat: seq<CatalogueItem>, m: map<string, SelectedItem>): Amounts
    decreases |m.Keys|
  {
    if m.Keys == {} then Zero
    else
      var k :| k in m;
      assert (m - {k}).Keys == m.Keys - {k};
      Plus(MapAmounts(cat, m - {k}), Contribution(cat, m[k]))
  }

  /** Any key can be taken out first. */
  lemma {:induction false} MapAmountsPick(cat: seq<CatalogueItem>, m: map<string, SelectedItem>, k: string)
    requires k in m
    ensures MapAmounts(cat, m) == Plus(MapAmounts(cat, m - {k}), Contribution(cat, m[k]))
    decreases |m.Keys|
  {
    var j :| j in m && MapAmounts(cat, m) == Plus(MapAmounts(cat, m - {j}), Contribution(cat, m[j]));
    if j != k {
      var mj, mk := m - {j}, m - {k};
      assert mj.Keys == m.Keys - {j};
      assert mk.Keys == m.Keys - {k};
      assert mj - {k} == mk - {j};
      MapAmountsPick(cat, mj, k);
      MapAmountsPick(cat, mk, j);
      PlusSwap(MapAmounts(cat, mj - {k}), Contribution(cat, m[k]), Contribution(cat, m[j]));
    }
  }

  lemma PlusSwap(a: Amounts, b: Amounts, c: Amounts)
    ensures Plus(Plus(a, b), c) == Plus(Plus(a, c), b)
  {
  }

  /** `Object.values(m)` when `keys` is `Object.keys(m)`. */
  function ValuesInOrder(m: map<string, SelectedItem>, keys: seq<string>): (vs: seq<SelectedItem>)
    requires forall i | 0 <= i < |keys| :: keys[i] in m
    ensures |vs| == |keys|
    ensures forall i | 0 <= i < |keys| :: vs[i] == m[keys[i]]
    decreases |keys|
  {
    if |keys| == 0 then [] else ValuesInOrder(m, keys[..|keys| - 1]) + [m[keys[|keys| - 1]]]
  }

  /** `keys` lists every key of `m` once. */
  ghost predicate Enumerates(keys: seq<string>, m: map<string, SelectedItem>) {
    && (forall i, j | 0 <= i < j < |keys| :: keys[i] != keys[j])
    && (forall i | 0 <= i < |keys| :: keys[i] in m)
    && (forall k | k in m :: k in keys)
  }

  /** Summing the values in any key order gives the same amounts. */
  lemma {:induction false} AccumulateValuesInAnyOrder(cat: seq<CatalogueItem>, m: map<string, SelectedItem>, keys: seq<string>)
    requires Enumerates(keys, m)
    ensures Accumulate(cat, ValuesInOrder(m, keys)) == MapAmounts(cat, m)
    decreases |keys|
  {
    if |keys| == 0 {
      assert m.Keys == {};
    } else {
      var n := |keys| - 1;
      var k := keys[n];
      var init := keys[..n];
      var rest := m - {k};
      assert Enumerates(init, rest) by {
        forall j | j in rest
          ensures j in init
        {
          var i :| 0 <= i < |keys| && keys[i] == j;
          assert i != n;
        }
      }
      assert ValuesInOrder(m, init) == ValuesInOrder(rest, init);
      AccumulateValuesInAnyOrder(cat, rest, init);
      MapAmountsPick(cat, m, k);
      var vs := ValuesInOrder(m, keys);
      assert vs[..n] == ValuesInOrder(m, init);
    }
  }

  /** The totals of a state, independent of the order the lines are read. */
  ghost function StateTotals(cat: seq<CatalogueItem>, s: State): (t: Totals)
    ensures t.total == t.subtotal + t.gst
  {
    var a := MapAmounts(cat, s.selected);
    Totals(a.exGst, a.gst, a.exGst + a.gst)
  }

  /** `calculateTotals` over `Object.values(selectedItems)` is the state's
      totals, whatever order the keys are enumerated in. */
  lemma CalculateTotalsOrderFree(cat: seq<CatalogueItem>, s: State, keys: seq<string>)
    requires Enumerates(keys, s.selected)
    ensures CalculateTotals(cat, ValuesInOrder(s.selected, keys)) == StateTotals(cat, s)
  {
    AccumulateValuesInAnyOrder(cat, s.selected, keys);
  }

  // ---------------------------------------------------------------------
  // How the handlers move the totals

  lemma MapAmountsEmpty(cat: seq<CatalogueItem>, m: map<string, SelectedItem>)
    requires m == map[]
    ensures MapAmounts(cat, m) == Zero
  {
    assert m.Keys == {};
  }

  /** After a reset the panel shows zero everywhere, as at mount. */
  lemma ResetTotalsZero(cat: seq<CatalogueItem>, s: State)
    ensures StateTotals(cat, HandleReset(s)) == Totals(0.0, 0.0, 0.0)
    ensures StateTotals(cat, Initial) == Totals(0.0, 0.0, 0.0)
  {
    MapAmountsEmpty(cat, HandleReset(s).selected);
  }

  /** Two selections that differ only at `k`: their amounts differ by the
      two versions of that line. */
  lemma MapAmountsReplace(cat: seq<CatalogueItem>, before: map<string, SelectedItem>,
                          after: map<string, SelectedItem>, k: string)
    requires k in before && k in after
    requires after - {k} == before - {k}
    ensures Plus(MapAmounts(cat, after), Contribution(cat, before[k])) ==
            Plus(MapAmounts(cat, before), Contribution(cat, after[k]))
  {
    MapAmountsPick(cat, before, k);
    MapAmountsPick(cat, after, k);
  }

  /** Unchecking a selected catalogue line takes exactly its share off. */
  lemma UncheckTakesOffLine(cat: seq<CatalogueItem>, s: State, id: string)
    requires id in s.selected && Find(cat, id).Some?
    ensures MapAmounts(cat, s.selected) ==
              Plus(MapAmounts(cat, HandleItemToggle(cat, s, id, false).selected), Contribution(cat, s.selected[id]))
  {
    MapAmountsPick(cat, s.selected, id);
    assert HandleItemToggle(cat, s, id, false).selected == s.selected - {id};
  }

  /** Checking an unselected catalogue line adds exactly its share. */
  lemma CheckAddsLine(cat: seq<CatalogueItem>, s: State, id: string)
    requires id !in s.selected && Find(cat, id).Some?
    ensures var r := HandleItemToggle(cat, s, id, true);
            MapAmounts(cat, r.selected) == Plus(MapAmounts(cat, s.selected), Contribution(cat, r.selected[id]))
  {
    var r := HandleItemToggle(cat, s, id, true);
    MapAmountsPick(cat, r.selected, id);
    assert r.selected - {id} == s.selected;
  }

  /** A quantity change moves the totals by the difference between the
      line's old and new share, and by nothing else. */
  lemma QuantityChangeMovesOneLine(cat: seq<CatalogueItem>, s: State, id: string, q: int)
    requires id in s.selected
    ensures var r := HandleQuantityChange(s, id, q);
            Plus(MapAmounts(cat, r.selected), Contribution(cat, s.selected[id])) ==
            Plus(MapAmounts(cat, s.selected), Contribution(cat, r.selected[id]))
  {
    var r := HandleQuantityChange(s, id, q);
    MapAmountsReplace(cat, s.selected, r.selected, id);
  }

  /** With non-negative line totals every sum is non-negative and GST never
      lowers the total below the subtotal. */
  lemma {:induction false} MapAmountsNonNegative(cat: seq<CatalogueItem>, m: map<string, SelectedItem>)
    requires forall k | k in m :: m[k].total >= 0.0
    ensures MapAmounts(cat, m).exGst >= 0.0 && MapAmounts(cat, m).gst >= 0.0
    decreases |m.Keys|
  {
    if m.Keys != {} {
      var k :| k in m;
      assert (m - {k}).Keys == m.Keys - {k};
      MapAmountsPick(cat, m, k);
      MapAmountsNonNegative(cat, m - {k});
    }
  }

  // ---------------------------------------------------------------------
  // The shipped catalogue

  /** A free line adds nothing at any quantity, because its stored cost is
      zero. */
  lemma FreeItemsAddNothing(i: int, q: int)
    requires 0 <= i < |Default| && Default[i].category == Free
    ensures Contribution(Default, CatalogueLine(Default[i], q)) == Zero
  {
    DefaultFreeItemsCostZero();
  }

  /** A custom line finds no catalogue entry, so GST of a tenth is added on
      top of its total. */
  lemma CustomLinesAddGst(line: SelectedItem, n: nat)
    requires line.id == CustomId(n)
    ensures !GstIncluded(Default, line)
    ensures Contribution(Default, line) == Amounts(line.total, line.total / 10.0)
    ensures Gross(Default, line) == line.total * 1.1
  {
    DefaultHasNoCustomIds(n);
  }

  /** One ID verification at 29.90, GST included: 299/11 (about 27.18) ex
      GST and 29.9/11 (about 2.72) GST, adding 29.90 in all. */
  lemma VerificationIdExample()
    ensures Default[1].id == "verification-id"
    ensures Contribution(Default, CatalogueLine(Default[1], 1)) == Amounts(299.0 / 11.0, 29.9 / 11.0)
    ensures Gross(Default, CatalogueLine(Default[1], 1)) == 29.90
  {
    DefaultIdsDistinct();
    FindDistinct(Default, 1);
  }

  /** A line with no catalogue entry and total 100.00: 100.00 ex GST, 10.00
      GST, 110.00 in all. */
  lemma ExclusiveHundredExample(line: SelectedItem)
    requires Find(Default, line.id).None? && line.total == 100.0
    ensures Contribution(Default, line) == Amounts(100.0, 10.0)
    ensures Gross(Default, line) == 110.0
  {
  }
}
