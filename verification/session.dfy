/** The estimator as the page drives it: the events its controls raise, the
    invariant every handler keeps, and the runs that start from the mount
    state. */
module Session {
  import opened Wrappers
  import opened Text
  import opened Catalogue
  import opened Estimator

  // ---------------------------------------------------------------------
  // The invariant

  /** The selected line under `k` is the catalogue item's line at the stored
      quantity. */
  ghost predicate FromCatalogue(cat: seq<CatalogueItem>, s: State, k: string)
    requires k in s.selected
  {
    Find(cat, k).Some? && s.selected[k] == CatalogueLine(Find(cat, k).value, StoredQuantity(s.quantities, k))
  }

  /** The selected line under `k` is the custom item's line: the item is
      filled in, its cost parses to the line's unit cost, and the quantities
      agree. */
  ghost predicate FromCustom(parse: Parser, s: State, k: string)
    requires k in s.selected
  {
    && k in s.custom
    && Acceptable(parse, s.custom[k])
    && s.selected[k] == CustomLine(k, s.custom[k], parse(s.custom[k].unitCost).value)
  }

  /** What holds of every state the page can reach: custom items are keyed
      by their own ids, all issued by the counter before its current value,
      and every selected line is the line of a catalogue item or of a
      filled-in custom item. */
  ghost predicate Valid(cat: seq<CatalogueItem>, parse: Parser, s: State) {
    && s.nextCustomId >= 1
    && s.custom.Keys <= IssuedCustomIds(s.nextCustomId)
    && (forall k | k in s.custom :: s.custom[k].id == k)
    && (forall k | k in s.selected :: FromCatalogue(cat, s, k) || FromCustom(parse, s, k))
  }

  /** In a valid state every line is keyed by its own id and its total is
      its unit cost times its quantity. */
  lemma ValidLines(cat: seq<CatalogueItem>, parse: Parser, s: State, k: string)
    requires Valid(cat, parse, s) && k in s.selected
    ensures s.selected[k].id == k
    ensures s.selected[k].total == LineTotal(s.selected[k].unitCost, s.selected[k].quantity)
  {
    var line := s.selected[k];
    if FromCatalogue(cat, s, k) {
      var item := Find(cat, k).value;
      var q := StoredQuantity(s.quantities, k);
      assert line == CatalogueLine(item, q);
      assert line.unitCost == item.unitCost && line.quantity == q;
    } else {
      assert FromCustom(parse, s, k);
      var c := s.custom[k];
      var u := parse(c.unitCost).value;
      assert line == CustomLine(k, c, u);
      assert line.unitCost == u && line.quantity == c.quantity;
      assert c.id == k;
    }
  }

  lemma InitialValid(cat: seq<CatalogueItem>, parse: Parser)
    ensures Valid(cat, parse, Initial)
  {
  }

  // ---------------------------------------------------------------------
  // Each handler keeps the invariant

  /** With distinct catalogue ids, auto-selection's last matching line is the
      one `find` returns. */
  lemma FindIsLastMatching(cat: seq<CatalogueItem>, t: string, k: string)
    requires IdsDistinct(cat)
    requires LastMatching(cat, t, k).Some?
    ensures Find(cat, k) == LastMatching(cat, t, k)
  {
    var i :| 0 <= i < |cat| && cat[i] == LastMatching(cat, t, k).value;
    FindDistinct(cat, i);
  }

  lemma SetPropertyTypeKeepsValid(cat: seq<CatalogueItem>, parse: Parser, s: State, t: string)
    requires IdsDistinct(cat)
    requires Valid(cat, parse, s)
    ensures Valid(cat, parse, SetPropertyType(cat, s, t))
  {
    var r := SetPropertyType(cat, s, t);
    if t != s.propertyType && t != "" {
      var sel := AutoSelection(cat, t, s.quantities);
      forall k | k in r.selected
        ensures FromCatalogue(cat, r, k)
      {
        FindIsLastMatching(cat, t, k);
      }
    }
  }

  lemma HandleItemToggleKeepsValid(cat: seq<CatalogueItem>, parse: Parser, s: State, id: string, checked: bool)
    requires Valid(cat, parse, s)
    ensures Valid(cat, parse, HandleItemToggle(cat, s, id, checked))
  {
    var r := HandleItemToggle(cat, s, id, checked);
    forall k | k in r.selected
      ensures FromCatalogue(cat, r, k) || FromCustom(parse, r, k)
    {
      if k != id {
        assert r.selected[k] == (r.selected - {id})[k];
        assert FromCatalogue(cat, s, k) || FromCustom(parse, s, k);
      }
    }
  }

  lemma HandleCustomItemToggleKeepsValid(parse: Parser, cat: seq<CatalogueItem>, s: State, id: string, checked: bool)
    requires Valid(cat, parse, s)
    ensures Valid(cat, parse, HandleCustomItemToggle(parse, s, id, checked))
  {
    var r := HandleCustomItemToggle(parse, s, id, checked);
    forall k | k in r.selected
      ensures FromCatalogue(cat, r, k) || FromCustom(parse, r, k)
    {
      if k != id {
        assert r.selected[k] == (r.selected - {id})[k];
        assert FromCatalogue(cat, s, k) || FromCustom(parse, s, k);
      }
    }
  }

  /** A quantity change leaves every other line as valid as it was. */
  lemma QuantityChangeKeepsOtherLine(cat: seq<CatalogueItem>, parse: Parser, s: State, id: string, q: int, k: string)
    requires Valid(cat, parse, s)
    requires k in s.selected && k != id
    ensures var r := HandleQuantityChange(s, id, q);
            k in r.selected && (FromCatalogue(cat, r, k) || FromCustom(parse, r, k))
  {
    var r := HandleQuantityChange(s, id, q);
    assert r.selected[k] == s.selected[k] by {
      assert r.selected[k] == (r.selected - {id})[k];
    }
    if FromCatalogue(cat, s, k) {
      assert StoredQuantity(r.quantities, k) == StoredQuantity(s.quantities, k);
      assert FromCatalogue(cat, r, k);
    } else {
      assert FromCustom(parse, s, k);
      assert r.custom[k] == s.custom[k] by {
        assert r.custom[k] == (r.custom - {id})[k];
      }
      assert FromCustom(parse, r, k);
    }
  }

  /** The changed line itself stays valid: its stored quantity is the new,
      non-zero quantity it shows. */
  lemma QuantityChangeKeepsOwnLine(cat: seq<CatalogueItem>, parse: Parser, s: State, id: string, q: int)
    requires q != 0
    requires Valid(cat, parse, s)
    requires id in s.selected
    ensures var r := HandleQuantityChange(s, id, q);
            id in r.selected && (FromCatalogue(cat, r, id) || FromCustom(parse, r, id))
  {
    var r := HandleQuantityChange(s, id, q);
    if FromCatalogue(cat, s, id) {
      assert StoredQuantity(r.quantities, id) == q;
      assert FromCatalogue(cat, r, id);
    } else {
      assert FromCustom(parse, r, id);
    }
  }

  /** Quantities the page passes are never 0, so the stored quantity stays
      the one the line shows. */
  lemma HandleQuantityChangeKeepsValid(cat: seq<CatalogueItem>, parse: Parser, s: State, id: string, q: int)
    requires q != 0
    requires Valid(cat, parse, s)
    ensures Valid(cat, parse, HandleQuantityChange(s, id, q))
  {
    var r := HandleQuantityChange(s, id, q);
    forall k | k in r.custom
      ensures r.custom[k].id == k
    {
      if k != id {
        assert r.custom[k] == (r.custom - {id})[k];
      }
    }
    forall k | k in r.selected
      ensures FromCatalogue(cat, r, k) || FromCustom(parse, r, k)
    {
      if k != id {
        QuantityChangeKeepsOtherLine(cat, parse, s, id, q, k);
      } else {
        QuantityChangeKeepsOwnLine(cat, parse, s, id, q);
      }
    }
  }

  lemma AddCustomItemKeepsValid(cat: seq<CatalogueItem>, parse: Parser, s: State)
    requires Valid(cat, parse, s)
    ensures Valid(cat, parse, AddCustomItem(s))
  {
    var r := AddCustomItem(s);
    var id := CustomId(s.nextCustomId);
    NextCustomIdFresh(s.nextCustomId);
    assert IssuedCustomIds(r.nextCustomId) == IssuedCustomIds(s.nextCustomId) + {id};
    forall k | k in r.custom
      ensures r.custom[k].id == k
    {
      if k != id {
        assert r.custom[k] == (r.custom - {id})[k];
      }
    }
    forall k | k in r.selected
      ensures FromCatalogue(cat, r, k) || FromCustom(parse, r, k)
    {
      assert FromCatalogue(cat, s, k) || FromCustom(parse, s, k);
      assert k in s.custom ==> k != id && r.custom[k] == (r.custom - {id})[k];
    }
  }

  lemma HandleCustomItemChangeKeepsValid(parse: Parser, cat: seq<CatalogueItem>, s: State, id: string,
                                         field: CustomField, value: string)
    requires id in s.custom
    requires Valid(cat, parse, s)
    ensures Valid(cat, parse, HandleCustomItemChange(parse, s, id, field, value))
  {
    var r := HandleCustomItemChange(parse, s, id, field, value);
    forall k | k in r.custom
      ensures r.custom[k].id == k
    {
      if k != id {
        assert r.custom[k] == (r.custom - {id})[k];
      }
    }
    forall k | k in r.selected
      ensures FromCatalogue(cat, r, k) || FromCustom(parse, r, k)
    {
      if k != id {
        assert FromCatalogue(cat, s, k) || FromCustom(parse, s, k);
        assert r.selected[k] == (r.selected - {id})[k];
        assert k in s.custom ==> r.custom[k] == (r.custom - {id})[k];
      }
    }
  }

  lemma HandleResetValid(cat: seq<CatalogueItem>, parse: Parser, s: State)
    ensures Valid(cat, parse, HandleReset(s))
  {
  }

  // ---------------------------------------------------------------------
  // Consequences of the invariant

  /** In a valid state the counter's next id is unused, so adding a custom
      item never overwrites one: there is exactly one more afterwards. */
  lemma AddCustomItemFresh(cat: seq<CatalogueItem>, parse: Parser, s: State)
    requires Valid(cat, parse, s)
    ensures CustomId(s.nextCustomId) !in s.custom
    ensures |AddCustomItem(s).custom| == |s.custom| + 1
  {
    NextCustomIdFresh(s.nextCustomId);
  }

  /** With the shipped catalogue, choosing a new property type leaves no
      custom item selected, whatever was selected before. */
  lemma SetPropertyTypeDropsCustomItems(s: State, t: string, n: nat)
    requires t != s.propertyType && t != ""
    ensures CustomId(n) !in SetPropertyType(Default, s, t).selected
  {
    DefaultHasNoCustomIds(n);
  }

  // ---------------------------------------------------------------------
  // Events

  /** What the page's controls can raise: the property-type radio group, a
      catalogue or custom checkbox, a quantity field (with `parseInt` of its
      text), the add button, a custom text field, and a confirmed reset. */
  datatype Event =
    | PropertyTypeChosen(propertyType: string)
    | ItemToggled(itemId: string, checked: bool)
    | CustomItemToggled(itemId: string, checked: bool)
    | QuantityEntered(itemId: string, parsed: Option<int>)
    | CustomItemAdded
    | CustomItemEdited(itemId: string, field: CustomField, value: string)
    | ResetConfirmed

  /** The handler an event runs. `None` when the page could not have raised
      the event: an edit of a custom row that is not rendered. */
  function Step(cat: seq<CatalogueItem>, parse: Parser, s: State, e: Event): (r: Option<State>)
    ensures r.None? <==> e.CustomItemEdited? && e.itemId !in s.custom
  {
    match e
    case PropertyTypeChosen(t) => Some(SetPropertyType(cat, s, t))
    case ItemToggled(id, checked) => Some(HandleItemToggle(cat, s, id, checked))
    case CustomItemToggled(id, checked) => Some(HandleCustomItemToggle(parse, s, id, checked))
    case QuantityEntered(id, parsed) => Some(HandleQuantityChange(s, id, QuantityFromInput(parsed)))
    case CustomItemAdded => Some(AddCustomItem(s))
    case CustomItemEdited(id, field, value) =>
      if id in s.custom then Some(HandleCustomItemChange(parse, s, id, field, value)) else None
    case ResetConfirmed => Some(HandleReset(s))
  }

  lemma StepKeepsValid(cat: seq<CatalogueItem>, parse: Parser, s: State, e: Event)
    requires IdsDistinct(cat)
    requires Valid(cat, parse, s)
    ensures Step(cat, parse, s, e).Some? ==> Valid(cat, parse, Step(cat, parse, s, e).value)
  {
    match e
    case PropertyTypeChosen(t) => SetPropertyTypeKeepsValid(cat, parse, s, t);
    case ItemToggled(id, checked) => HandleItemToggleKeepsValid(cat, parse, s, id, checked);
    case CustomItemToggled(id, checked) => HandleCustomItemToggleKeepsValid(parse, cat, s, id, checked);
    case QuantityEntered(id, parsed) => HandleQuantityChangeKeepsValid(cat, parse, s, id, QuantityFromInput(parsed));
    case CustomItemAdded => AddCustomItemKeepsValid(cat, parse, s);
    case CustomItemEdited(id, field, value) =>
      if id in s.custom {
        HandleCustomItemChangeKeepsValid(parse, cat, s, id, field, value);
      }
    case ResetConfirmed => HandleResetValid(cat, parse, s);
  }

  /** The events applied in order; `None` as soon as one could not have been
      raised. */
  function Run(cat: seq<CatalogueItem>, parse: Parser, s: State, events: seq<Event>): Option<State>
    decreases |events|
  {
    if |events| == 0 then Some(s)
    else
      match Step(cat, parse, s, events[0])
      case None => None
      case Some(next) => Run(cat, parse, next, events[1..])
  }

  lemma {:induction false} RunKeepsValid(cat: seq<CatalogueItem>, parse: Parser, s: State, events: seq<Event>)
    requires IdsDistinct(cat)
    requires Valid(cat, parse, s)
    ensures Run(cat, parse, s, events).Some? ==> Valid(cat, parse, Run(cat, parse, s, events).value)
    decreases |events|
  {
    if |events| > 0 {
      StepKeepsValid(cat, parse, s, events[0]);
      var next := Step(cat, parse, s, events[0]);
      if next.Some? {
        RunKeepsValid(cat, parse, next.value, events[1..]);
      }
    }
  }

  /** Every state the page reaches from mounting, with the shipped catalogue
      and any `parseFloat`, satisfies the invariant. */
  lemma ReachableStatesValid(parse: Parser, events: seq<Event>)
    ensures Run(Default, parse, Initial, events).Some? ==>
              Valid(Default, parse, Run(Default, parse, Initial, events).value)
  {
    DefaultIdsDistinct();
    InitialValid(Default, parse);
    RunKeepsValid(Default, parse, Initial, events);
  }
}
