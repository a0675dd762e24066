/** The estimator's session state and the handlers that change it. Each
    handler is one atomic step from a state to the next; the catalogue and
    `parseFloat` on custom cost text are passed in. */
module Estimator {
  import opened Wrappers
  import opened Text
  import opened Catalogue

  /** A line of the estimate. `unitCost` is fixed when the line is created;
      `total` is unit cost times quantity. */
  datatype SelectedItem = SelectedItem(
    id: string,
    description: string,
    unitCost: real,
    quantity: int,
    total: real)

  /** A user-added line: description and cost are the raw text of the form
      fields. */
  datatype CustomItem = CustomItem(
    id: string,
    description: string,
    unitCost: string,
    quantity: int)

  datatype CustomField = DescriptionField | UnitCostField

  /** `propertyType` is `""` until a type is chosen; `selected`, `quantities`
      and `custom` are keyed by item id; `nextCustomId` numbers the next
      custom item. */
  datatype State = State(
    propertyType: string,
    selected: map<string, SelectedItem>,
    quantities: map<string, int>,
    custom: map<string, CustomItem>,
    nextCustomId: nat)

  /** The state the page mounts with. */
  const Initial: State := State("", map[], map[], map[], 1)

  /** `parseFloat` applied to custom cost text: `None` stands for `NaN`. */
  type Parser = string -> Option<real>

  // ---------------------------------------------------------------------
  // Quantities and ids

  /** What a quantity field passes to the handler, `parseInt(value) || 1`:
      an unparsable field (`NaN`) and `0` both become 1. */
  function QuantityFromInput(parsed: Option<int>): (q: int)
    ensures q != 0
    ensures parsed.Some? && parsed.value != 0 ==> q == parsed.value
    ensures parsed.None? || parsed.value == 0 ==> q == 1
  {
    if parsed.Some? && parsed.value != 0 then parsed.value else 1
  }

  /** `quantities[id] || 1`: the stored quantity, or 1 when there is none. */
  function StoredQuantity(quantities: map<string, int>, id: string): (q: int)
    ensures q != 0
    ensures id in quantities && quantities[id] != 0 ==> q == quantities[id]
    ensures id !in quantities || quantities[id] == 0 ==> q == 1
  {
    if id in quantities && quantities[id] != 0 then quantities[id] else 1
  }

  const CustomPrefix: string := "custom-"

  /** The id of the custom item numbered `n`, `custom-${n}`. */
  function CustomId(n: nat): (id: string)
    ensures |id| > |CustomPrefix| && id[..|CustomPrefix|] == CustomPrefix
  {
    CustomPrefix + NatToString(n)
  }

  lemma CustomIdInjective(a: nat, b: nat)
    requires CustomId(a) == CustomId(b)
    ensures a == b
  {
    assert CustomId(a)[|CustomPrefix|..] == NatToString(a);
    assert CustomId(b)[|CustomPrefix|..] == NatToString(b);
    NatToStringInjective(a, b);
  }

  /** The ids of the custom items numbered 1 to `next - 1`. */
  function IssuedCustomIds(next: nat): set<string> {
    set n | 1 <= n < next :: CustomId(n)
  }

  /** The counter's own number is never among the ids issued before it. */
  lemma NextCustomIdFresh(next: nat)
    ensures CustomId(next) !in IssuedCustomIds(next)
  {
    forall n | 1 <= n < next
      ensures CustomId(n) != CustomId(next)
    {
      if CustomId(n) == CustomId(next) {
        CustomIdInjective(n, next);
      }
    }
  }

  /** A custom id ends in a decimal digit. */
  lemma CustomIdEndsInDigit(n: nat)
    ensures '0' <= CustomId(n)[|CustomId(n)| - 1] <= '9'
  {
    var digits := NatToString(n);
    assert CustomId(n)[|CustomId(n)| - 1] == digits[|digits| - 1];
  }

  /** No shipped catalogue id looks like a custom id, so a custom item never
      finds a catalogue entry. */
  lemma DefaultHasNoCustomIds(n: nat)
    ensures Find(Default, CustomId(n)) == None
  {
    CustomIdEndsInDigit(n);
    DigitEndingIsNoDefaultId(CustomId(n));
  }

  /** Every shipped id ends in a letter. */
  lemma DigitEndingIsNoDefaultId(id: string)
    requires |id| > 0 && '0' <= id[|id| - 1] <= '9'
    ensures Find(Default, id) == None
  {
    DigitEndingHasNoRow(id);
    DefaultRows();
    RowlessNotFound(Default, id);
  }

  lemma RowlessNotFound(cat: seq<CatalogueItem>, id: string)
    requires forall i | 0 <= i < |cat| :: Row(cat[i].id) == i
    requires Row(id) == -1
    ensures Find(cat, id) == None
  {
  }

  lemma DigitEndingHasNoRow(id: string)
    requires |id| > 0 && '0' <= id[|id| - 1] <= '9'
    ensures Row(id) == -1
  {
    var c := id[|id| - 1];
    assert IdKey(id) == (|id|, c);
  }

  // ---------------------------------------------------------------------
  // The two object idioms the handlers use

  /** `{ ...m, [k]: v }`: `k` now maps to `v`, every other key as before. */
  function Put<V>(m: map<string, V>, k: string, v: V): (r: map<string, V>)
    ensures k in r && r[k] == v
    ensures r.Keys == m.Keys + {k}
    ensures r - {k} == m - {k}
  {
    m[k := v]
  }

  /** `delete copy[k]` on a copy of `m`: `k` is gone, every other key as
      before. */
  function Drop<V>(m: map<string, V>, k: string): (r: map<string, V>)
    ensures k !in r
    ensures r.Keys == m.Keys - {k}
    ensures r - {k} == m - {k}
  {
    m - {k}
  }

  // ---------------------------------------------------------------------
  // Lines

  /** A line's total, `unitCost * quantity`. */
  function LineTotal(unitCost: real, quantity: int): real {
    unitCost * quantity as real
  }

  /** The line a catalogue item contributes at quantity `q`. */
  function CatalogueLine(item: CatalogueItem, q: int): SelectedItem {
    SelectedItem(item.id, item.description, item.unitCost, q, LineTotal(item.unitCost, q))
  }

  /** The custom item's text is filled in: a non-blank description and a
      non-empty cost. */
  predicate Filled(c: CustomItem) {
    Trim(c.description) != [] && c.unitCost != []
  }

  /** The custom item would be selected: filled in and its cost parses. */
  predicate Acceptable(parse: Parser, c: CustomItem) {
    Filled(c) && parse(c.unitCost).Some?
  }

  /** The line the custom item stored under `id` contributes at unit cost
      `u`; it carries the key it is stored under. */
  function CustomLine(id: string, c: CustomItem, u: real): SelectedItem {
    SelectedItem(id, Trim(c.description), u, c.quantity, LineTotal(u, c.quantity))
  }

  // ---------------------------------------------------------------------
  // Auto-selection

  /** The selection and quantities that choosing a property type builds. */
  datatype Selection = Selection(items: map<string, SelectedItem>, quantities: map<string, int>)

  /** The last line of `cat` with id `k` that `t` selects: the one whose
      write the `forEach` leaves in place. */
  function LastMatching(cat: seq<CatalogueItem>, t: string, k: string): (r: Option<CatalogueItem>)
    ensures r.Some? <==> k in MatchedIds(cat, t)
    ensures r.Some? ==> r.value.id == k && r.value in cat && t in r.value.propertyTypes
    ensures r.Some? ==> exists i | 0 <= i < |cat| :: cat[i] == r.value && NoMatchAfter(cat, t, k, i)
  {
    if |cat| == 0 then None
    else
      MatchedIdsSnoc(cat, t);
      var item := cat[|cat| - 1];
      if item.id == k && t in item.propertyTypes then
        assert NoMatchAfter(cat, t, k, |cat| - 1);
        Some(item)
      else
        var init := cat[..|cat| - 1];
        var r := LastMatching(init, t, k);
        assert r.Some? ==> exists i | 0 <= i < |cat| :: cat[i] == r.value && NoMatchAfter(cat, t, k, i) by {
          if r.Some? {
            var i :| 0 <= i < |init| && init[i] == r.value && NoMatchAfter(init, t, k, i);
            assert cat[i] == r.value && NoMatchAfter(cat, t, k, i);
          }
        }
        r
  }

  /** No line after position `i` of `cat` has id `k` and is selected by `t`. */
  predicate NoMatchAfter(cat: seq<CatalogueItem>, t: string, k: string, i: int) {
    forall j | 0 <= j < |cat| && i < j :: !(cat[j].id == k && t in cat[j].propertyTypes)
  }

  /** `sel` holds exactly the ids `t` matches, in both maps. */
  ghost predicate SelectsMatchedIds(cat: seq<CatalogueItem>, t: string, sel: Selection) {
    sel.items.Keys == MatchedIds(cat, t) && sel.quantities.Keys == MatchedIds(cat, t)
  }

  /** Each selected id is the line of its (last) matching catalogue item at
      its stored quantity, and that quantity is recorded. */
  ghost predicate SelectsMatchedLines(cat: seq<CatalogueItem>, t: string, quantities: map<string, int>, sel: Selection) {
    forall k | k in sel.items ::
      && LastMatching(cat, t, k).Some?
      && sel.items[k] == CatalogueLine(LastMatching(cat, t, k).value, StoredQuantity(quantities, k))
      && (k in sel.quantities ==> sel.quantities[k] == StoredQuantity(quantities, k))
  }

  /** One turn of the `forEach`: a matching item is written into both maps. */
  function SelectStep(sel: Selection, item: CatalogueItem, t: string, quantities: map<string, int>): Selection {
    if t in item.propertyTypes then
      var q := StoredQuantity(quantities, item.id);
      Selection(sel.items[item.id := CatalogueLine(item, q)], sel.quantities[item.id := q])
    else sel
  }

  /** The `forEach` over the catalogue that auto-selects the lines tagged
      with `t`, each at its stored quantity or 1. */
  function AutoSelection(cat: seq<CatalogueItem>, t: string, quantities: map<string, int>): (r: Selection)
    ensures SelectsMatchedIds(cat, t, r)
    ensures SelectsMatchedLines(cat, t, quantities, r)
  {
    if |cat| == 0 then Selection(map[], map[])
    else
      var prev := AutoSelection(cat[..|cat| - 1], t, quantities);
      SelectStepIds(cat, t, quantities, prev);
      SelectStepLines(cat, t, quantities, prev);
      SelectStep(prev, cat[|cat| - 1], t, quantities)
  }

  lemma SelectStepIds(cat: seq<CatalogueItem>, t: string, quantities: map<string, int>, prev: Selection)
    requires |cat| > 0
    requires SelectsMatchedIds(cat[..|cat| - 1], t, prev)
    ensures SelectsMatchedIds(cat, t, SelectStep(prev, cat[|cat| - 1], t, quantities))
  {
    MatchedIdsSnoc(cat, t);
  }

  lemma SelectStepLines(cat: seq<CatalogueItem>, t: string, quantities: map<string, int>, prev: Selection)
    requires |cat| > 0
    requires SelectsMatchedLines(cat[..|cat| - 1], t, quantities, prev)
    ensures SelectsMatchedLines(cat, t, quantities, SelectStep(prev, cat[|cat| - 1], t, quantities))
  {
    var item := cat[|cat| - 1];
    var r := SelectStep(prev, item, t, quantities);
    forall k | k in r.items
      ensures LastMatching(cat, t, k).Some?
      ensures r.items[k] == CatalogueLine(LastMatching(cat, t, k).value, StoredQuantity(quantities, k))
      ensures k in r.quantities ==> r.quantities[k] == StoredQuantity(quantities, k)
    {
      if !(k == item.id && t in item.propertyTypes) {
        assert LastMatching(cat, t, k) == LastMatching(cat[..|cat| - 1], t, k);
      }
    }
  }

  /** The ids matched by a catalogue are those matched by all but its last
      line, plus the last line's id when it matches. */
  lemma MatchedIdsSnoc(cat: seq<CatalogueItem>, t: string)
    requires |cat| > 0
    ensures forall i | 0 <= i < |cat| - 1 :: cat[..|cat| - 1][i] == cat[i]
    ensures MatchedIds(cat, t) ==
              MatchedIds(cat[..|cat| - 1], t) + (if t in cat[|cat| - 1].propertyTypes then {cat[|cat| - 1].id} else {})
  {
    var init := cat[..|cat| - 1];
    assert forall i | 0 <= i < |init| :: init[i] == cat[i];
  }

  /** With distinct ids, the last matching line for a matched line's id is
      that line. */
  lemma {:induction false} LastMatchingDistinct(cat: seq<CatalogueItem>, t: string, i: int)
    requires IdsDistinct(cat)
    requires 0 <= i < |cat| && t in cat[i].propertyTypes
    ensures LastMatching(cat, t, cat[i].id) == Some(cat[i])
  {
    var n := |cat| - 1;
    if i < n {
      assert cat[n].id != cat[i].id;
      var init := cat[..n];
      assert init[i] == cat[i];
      LastMatchingDistinct(init, t, i);
    }
  }

  /** With distinct catalogue ids, each matched line is selected as exactly
      that catalogue line at its stored quantity. */
  lemma AutoSelectionLines(cat: seq<CatalogueItem>, t: string, quantities: map<string, int>, i: int)
    requires IdsDistinct(cat)
    requires 0 <= i < |cat| && t in cat[i].propertyTypes
    ensures var r := AutoSelection(cat, t, quantities);
            cat[i].id in r.items
            && r.items[cat[i].id] == CatalogueLine(cat[i], StoredQuantity(quantities, cat[i].id))
  {
    assert cat[i].id in MatchedIds(cat, t);
    LastMatchingDistinct(cat, t, i);
  }

  // ---------------------------------------------------------------------
  // Handlers

  /** Choosing a property type. The auto-select effect runs only when the
      type actually changes and is non-empty; it then replaces `selected`
      and `quantities` wholesale, keeping `custom` as it is. */
  function SetPropertyType(cat: seq<CatalogueItem>, s: State, t: string): (r: State)
    ensures r.propertyType == t
    ensures r.custom == s.custom && r.nextCustomId == s.nextCustomId
    ensures t == s.propertyType || t == "" ==>
              r.selected == s.selected && r.quantities == s.quantities
    ensures t != s.propertyType && t != "" ==>
              && r.selected.Keys == MatchedIds(cat, t)
              && r.quantities.Keys == MatchedIds(cat, t)
              && forall k | k in r.selected ::
                   r.selected[k].quantity == StoredQuantity(s.quantities, k) == r.quantities[k]
  {
    if t == s.propertyType || t == "" then s.(propertyType := t)
    else
      var sel := AutoSelection(cat, t, s.quantities);
      s.(propertyType := t, selected := sel.items, quantities := sel.quantities)
  }

  /** `handleItemToggle`: for a catalogue id, checking inserts its line at the
      stored quantity, unchecking removes it; an unknown id changes
      nothing. */
  function HandleItemToggle(cat: seq<CatalogueItem>, s: State, id: string, checked: bool): (r: State)
    ensures Find(cat, id).None? ==> r == s
    ensures r.propertyType == s.propertyType && r.quantities == s.quantities
    ensures r.custom == s.custom && r.nextCustomId == s.nextCustomId
    ensures r.selected - {id} == s.selected - {id}
    ensures Find(cat, id).Some? && !checked ==> id !in r.selected
    ensures Find(cat, id).Some? && checked ==>
              && id in r.selected
              && r.selected[id].id == id
              && r.selected[id].description == Find(cat, id).value.description
              && r.selected[id].unitCost == Find(cat, id).value.unitCost
              && r.selected[id].quantity == StoredQuantity(s.quantities, id)
              && r.selected[id].total == Find(cat, id).value.unitCost * StoredQuantity(s.quantities, id) as real
  {
    match Find(cat, id)
    case None => s
    case Some(item) =>
      if checked then
        s.(selected := Put(s.selected, id, CatalogueLine(item, StoredQuantity(s.quantities, id))))
      else
        s.(selected := Drop(s.selected, id))
  }

  /** `handleCustomItemToggle`: checking a filled-in custom item whose cost
      parses selects it; checking one whose cost does not parse changes
      nothing; unchecking, or checking one that is not filled in, removes
      it. An unknown id changes nothing. */
  function HandleCustomItemToggle(parse: Parser, s: State, id: string, checked: bool): (r: State)
    ensures id !in s.custom ==> r == s
    ensures r.propertyType == s.propertyType && r.quantities == s.quantities
    ensures r.custom == s.custom && r.nextCustomId == s.nextCustomId
    ensures r.selected - {id} == s.selected - {id}
    ensures id in s.custom && !(checked && Filled(s.custom[id])) ==> id !in r.selected
    ensures id in s.custom && checked && Filled(s.custom[id]) && parse(s.custom[id].unitCost).None? ==>
              r == s
    ensures id in s.custom && checked && Acceptable(parse, s.custom[id]) ==>
              && id in r.selected
              && r.selected[id].id == id
              && r.selected[id].description == Trim(s.custom[id].description)
              && Some(r.selected[id].unitCost) == parse(s.custom[id].unitCost)
              && r.selected[id].quantity == s.custom[id].quantity
              && r.selected[id].total == r.selected[id].unitCost * s.custom[id].quantity as real
  {
    if id !in s.custom then s
    else
      var c := s.custom[id];
      if checked && Filled(c) then
        match parse(c.unitCost)
        case None => s
        case Some(u) => s.(selected := Put(s.selected, id, CustomLine(id, c, u)))
      else
        s.(selected := Drop(s.selected, id))
  }

  /** `handleQuantityChange`: the quantity is always recorded; a selected line
      keeps its unit cost and gets the new quantity and total; a custom item
      gets the new quantity too. */
  function HandleQuantityChange(s: State, id: string, q: int): (r: State)
    ensures r.quantities == s.quantities[id := q]
    ensures r.propertyType == s.propertyType && r.nextCustomId == s.nextCustomId
    ensures r.selected.Keys == s.selected.Keys
    ensures r.selected - {id} == s.selected - {id}
    ensures id in s.selected ==>
              && r.selected[id].id == s.selected[id].id
              && r.selected[id].description == s.selected[id].description
              && r.selected[id].unitCost == s.selected[id].unitCost
              && r.selected[id].quantity == q
              && r.selected[id].total == LineTotal(s.selected[id].unitCost, q)
    ensures r.custom.Keys == s.custom.Keys
    ensures r.custom - {id} == s.custom - {id}
    ensures id in s.custom ==> r.custom[id] == s.custom[id].(quantity := q)
  {
    var selected :=
      if id in s.selected then
        Put(s.selected, id, s.selected[id].(quantity := q, total := LineTotal(s.selected[id].unitCost, q)))
      else s.selected;
    var custom :=
      if id in s.custom then Put(s.custom, id, s.custom[id].(quantity := q)) else s.custom;
    s.(quantities := Put(s.quantities, id, q), selected := selected, custom := custom)
  }

  /** `addCustomItem`: a blank custom item `custom-N` with quantity 1, where
      N is the counter, which then moves on; nothing is selected. */
  function AddCustomItem(s: State): (r: State)
    ensures r.custom.Keys == s.custom.Keys + {CustomId(s.nextCustomId)}
    ensures r.custom - {CustomId(s.nextCustomId)} == s.custom - {CustomId(s.nextCustomId)}
    ensures r.custom[CustomId(s.nextCustomId)] == CustomItem(CustomId(s.nextCustomId), "", "", 1)
    ensures r.nextCustomId == s.nextCustomId + 1
    ensures r.selected == s.selected && r.quantities == s.quantities
    ensures r.propertyType == s.propertyType
  {
    var id := CustomId(s.nextCustomId);
    s.(custom := Put(s.custom, id, CustomItem(id, "", "", 1)), nextCustomId := s.nextCustomId + 1)
  }

  /** The custom item with one text field replaced. */
  function WithField(c: CustomItem, field: CustomField, value: string): (r: CustomItem)
    ensures r.id == c.id && r.quantity == c.quantity
    ensures r.description == (if field == DescriptionField then value else c.description)
    ensures r.unitCost == (if field == UnitCostField then value else c.unitCost)
  {
    match field
    case DescriptionField => c.(description := value)
    case UnitCostField => c.(unitCost := value)
  }

  /** The selection after custom item `c`, stored under `id`, was edited: its line when it is
      filled in and its cost parses, no line for it otherwise. */
  function Reselect(parse: Parser, selected: map<string, SelectedItem>, id: string, c: CustomItem)
    : (r: map<string, SelectedItem>)
    ensures r - {id} == selected - {id}
    ensures id in r <==> Acceptable(parse, c)
    ensures id in r ==> r[id] == CustomLine(id, c, parse(c.unitCost).value)
    ensures id in r ==>
              && r[id].id == id
              && r[id].description == Trim(c.description)
              && Some(r[id].unitCost) == parse(c.unitCost)
              && r[id].quantity == c.quantity
              && r[id].total == r[id].unitCost * c.quantity as real
  {
    if Acceptable(parse, c) then Put(selected, id, CustomLine(id, c, parse(c.unitCost).value))
    else Drop(selected, id)
  }

  /** `handleCustomItemChange`: stores the edited text, then selects the item
      exactly when it is filled in and its cost parses, and removes it
      otherwise. Only rendered custom items can be edited. */
  function HandleCustomItemChange(parse: Parser, s: State, id: string, field: CustomField, value: string): (r: State)
    requires id in s.custom
    ensures id in r.custom && r.custom[id] == WithField(s.custom[id], field, value)
    ensures r.custom.Keys == s.custom.Keys
    ensures r.custom - {id} == s.custom - {id}
    ensures r.custom[id].id == s.custom[id].id && r.custom[id].quantity == s.custom[id].quantity
    ensures r.custom[id].description == (if field == DescriptionField then value else s.custom[id].description)
    ensures r.custom[id].unitCost == (if field == UnitCostField then value else s.custom[id].unitCost)
    ensures r.propertyType == s.propertyType && r.quantities == s.quantities
    ensures r.nextCustomId == s.nextCustomId
    ensures r.selected - {id} == s.selected - {id}
    ensures id in r.selected <==> Acceptable(parse, r.custom[id])
    ensures id in r.selected ==>
              && r.selected[id].id == id
              && r.selected[id].description == Trim(r.custom[id].description)
              && Some(r.selected[id].unitCost) == parse(r.custom[id].unitCost)
              && r.selected[id].quantity == r.custom[id].quantity
              && r.selected[id].total == r.selected[id].unitCost * r.custom[id].quantity as real
  {
    var c := WithField(s.custom[id], field, value);
    var custom := Put(s.custom, id, c);
    assert custom[id] == c;
    s.(custom := custom, selected := Reselect(parse, s.selected, id, c))
  }

  /** `handleReset`, once confirmed: everything back to the mount state. */
  function HandleReset(s: State): (r: State)
    ensures r.propertyType == "" && r.nextCustomId == 1
    ensures r.selected == map[] && r.quantities == map[] && r.custom == map[]
  {
    Initial
  }
}
