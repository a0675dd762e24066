# Disbursement estimator — a Dafny model

This project models the conveyancing disbursement estimator: a single page on
which a user picks a property type (`land`, `house` or `unit`), ticks
catalogue searches and fees, adds free-form custom lines, edits quantities,
and reads a subtotal, a GST figure and a grand total. These parts are
modelled:

- **Catalogue** (`catalogue.dfy`): the seventeen shipped disbursement items,
  with their costs, tags and GST flags exactly as listed in
  `shared/schema.ts`. It also has `find` as a first-match lookup, and the set
  of ids a property type selects.
- **Estimator** (`estimator.dfy`): the page state and its handlers, each a
  pure function from a state to the next state:
  - the auto-select effect that runs when the property type changes;
  - catalogue and custom check-boxes;
  - quantity edits;
  - adding a custom line;
  - editing a custom line's text;
  - a confirmed reset.
- **Session** (`session.dfy`): the events the page's controls raise, and an
  invariant that holds in every reachable state. The invariant says every
  selected line is exactly the line of a catalogue item at its stored
  quantity, or of a filled-in custom item whose cost parses, and that custom
  ids are all ones the counter has issued.
- **Totals** (`totals.dfy`): `calculateTotals`. Each line is split into its
  ex-GST part and its GST part. Lines whose catalogue entry has GST included
  are divided by 1.1. All other lines, custom lines included, get a tenth
  added. The result is the same whatever order `Object.values` lists the
  lines in.
- **Text** (`text.dfy`): the parts of JavaScript the handlers rely on. These
  are `String.prototype.trim`, with the ECMAScript white-space set, and the
  decimal rendering of the custom-line counter.

Money is `real`, so the model's arithmetic is exact. `parseFloat` applied to
the text of a custom cost is a parameter `parse: string -> Option<real>`,
where `None` stands for `NaN`. The catalogue's own cost strings are written
as the decimal values they denote. `parseInt(value) || 1` on a quantity
field is `QuantityFromInput` applied to the parsed integer, if there is one.

## Model

| member | source | states |
|---|---|---|
| Catalogue.Find | client/src/pages/calculator.tsx:67-68 | `find` returns nothing exactly when no line carries the id; otherwise it returns the first line carrying it |
| Catalogue.FindDistinct | client/src/pages/calculator.tsx:195 | when catalogue ids are distinct, looking up a line's id returns that line |
| Catalogue.MatchedIds | client/src/pages/calculator.tsx:47 | the reference set for `item.propertyTypes.includes(propertyType)`: the ids of the lines tagged with the type. Its values on the shipped data are fixed by `Catalogue.LandMatches`, `Catalogue.HouseMatches` and `Catalogue.UnitMatches`, and `Estimator.AutoSelection` ties the `forEach` to it |
| Catalogue.DefaultIdsDistinct | shared/schema.ts:60-197 | no two shipped items share an id |
| Catalogue.DefaultPropertyTypesKnown | shared/schema.ts:60-197 | every tag in the catalogue is `land`, `house` or `unit` |
| Catalogue.UnknownPropertyTypeMatchesNothing | shared/schema.ts:60-197 | any other property type selects no item |
| Catalogue.DefaultFreeItemsCostZero | shared/schema.ts:181-196 | the free-category items are `qbcc-pool-safety` and `council-zoning`, and both store a cost of 0.00 |
| Catalogue.DefaultCostsAreDecimal10x2 | shared/schema.ts:60-197 | every shipped cost is non-negative, has at most two decimals and fits the `decimal(10, 2)` unit-cost column |
| Catalogue.CouncilZoningNeverMatched | shared/schema.ts:189-196 | `council-zoning` has no tags, so no property type selects it |
| Catalogue.BodyCorporateOnlyUnit | shared/schema.ts:149-172 | the two body-corporate items are selected by `unit` and by no other type |
| Catalogue.LandMatches | shared/schema.ts:60-197 | `land` selects exactly nine items: `professional-fees`, `verification-id`, `titles-search`, `registered-plan`, `transport-roads`, `heritage-search`, `qcat-records`, `council-rates` and `asic-search` |
| Catalogue.HouseMatches | shared/schema.ts:60-197 | `house` selects exactly those nine plus five more: `contaminated-land`, `qbcc-insurance`, `water-services`, `cms-dealing` and `qbcc-pool-safety` |
| Catalogue.UnitMatches | shared/schema.ts:60-197 | `unit` selects every item except `council-zoning` |
| Catalogue.DefaultMatchesNested | shared/schema.ts:60-197 | the `land` selection is contained in the `house` selection, which is contained in the `unit` selection |
| Text.Trim | client/src/pages/calculator.tsx:96-103 | `trim` never lengthens its input, and a non-empty result neither starts nor ends with white space; the same call is at lines 169 and 175 |
| Text.TrimStart | client/src/pages/calculator.tsx:96 | drops exactly the leading white space: the dropped prefix is white space, and what is left is a suffix that does not start with white space |
| Text.TrimEnd | client/src/pages/calculator.tsx:96 | the mirror image of `TrimStart` for trailing white space |
| Text.TrimMiddle | client/src/pages/calculator.tsx:103 | `trim` cuts the input into white space, the result and white space; the result neither starts nor ends with white space |
| Text.TrimEmptyIff | client/src/pages/calculator.tsx:96 | a trimmed description is empty (falsy) exactly when the description is all white space |
| Text.TrimIdempotent | client/src/pages/calculator.tsx:103 | trimming a trimmed description changes nothing |
| Text.NatToString | client/src/pages/calculator.tsx:153 | the counter renders as a non-empty string of decimal digits with no leading zero, whose decimal value (read back by `DigitsValue`) is the counter itself |
| Text.NatToStringInjective | client/src/pages/calculator.tsx:153 | different counter values render differently |
| Estimator.QuantityFromInput | client/src/pages/calculator.tsx:354 | `parseInt(..) \|\| 1` is never 0: it keeps a non-zero parsed value, and turns NaN and 0 into 1 |
| Estimator.StoredQuantity | client/src/pages/calculator.tsx:48 | `quantities[id] \|\| 1` is never 0: a stored non-zero quantity is kept, and a missing or zero one reads as 1; line 71 reads it the same way |
| Estimator.CustomId | client/src/pages/calculator.tsx:153 | a custom id is `custom-` followed by something |
| Estimator.CustomIdInjective | client/src/pages/calculator.tsx:153 | different counter values give different custom ids |
| Estimator.NextCustomIdFresh | client/src/pages/calculator.tsx:152-159 | the id made from the counter's current value is none of the ids issued before it |
| Estimator.DefaultHasNoCustomIds | client/src/pages/calculator.tsx:195 | no custom id finds a catalogue entry |
| Estimator.LastMatching | client/src/pages/calculator.tsx:46-59 | the line the `forEach` leaves under an id exists exactly when that id is among the selected type's matches. It is a catalogue line with that id, tagged with the type, and no later line has the id and the tag, so it is the last write |
| Estimator.AutoSelection | client/src/pages/calculator.tsx:41-64 | the effect builds a selection whose keys are exactly the matched ids. Each line is its item's line at the previously stored quantity, or at 1 when there was none, and that quantity is stored again |
| Estimator.LastMatchingDistinct | client/src/pages/calculator.tsx:46-59 | when ids are distinct, the line written under a matched item's id is that item |
| Estimator.AutoSelectionLines | client/src/pages/calculator.tsx:50-57 | each matched item's line carries its description and cost, and its quantity is `quantities[id] \|\| 1` |
| Estimator.SetPropertyType | client/src/pages/calculator.tsx:41-64 | an empty or unchanged type leaves the selection and quantities alone. A new type replaces both with exactly the matched ids at their stored quantities. Custom items and the counter are untouched |
| Estimator.HandleItemToggle | client/src/pages/calculator.tsx:66-90 | an id not in the catalogue changes nothing. Checking inserts a line under the id that carries that id, the item's description and cost, the stored quantity, and cost times quantity as its total. Unchecking deletes it. Nothing else changes |
| Estimator.HandleCustomItemToggle | client/src/pages/calculator.tsx:92-117 | an unknown id changes nothing. Checking a filled-in item whose cost parses selects a line that carries the item's id, its trimmed description, the parsed cost, its quantity, and cost times quantity as its total. Checking a filled-in item whose cost is NaN changes nothing. Any other toggle deletes the line. Other lines are kept |
| Estimator.HandleQuantityChange | client/src/pages/calculator.tsx:119-150 | the quantity is always stored. A selected line keeps its id, description and unit cost, and gets the new quantity and total. A custom item gets the new quantity. No other entry changes |
| Estimator.Put | client/src/pages/calculator.tsx:73-82 | `{ ...prev, [k]: v }`: the key now maps to the new value, the key set gains that key, and every other entry is unchanged; the same spread is at lines 154-157 |
| Estimator.Drop | client/src/pages/calculator.tsx:84-88 | copying and then deleting a key: the key is gone, and every other entry is unchanged; the same idiom is at lines 111-115 and 182-186 |
| Estimator.WithField | client/src/pages/calculator.tsx:168 | `{ ...item, [field]: value }` replaces exactly the edited text field and keeps the id, the quantity and the other field; the same spread is at line 164 |
| Estimator.Reselect | client/src/pages/calculator.tsx:168-187 | after an edit the item's line is present exactly when the item is filled in and its cost parses. The line then carries the id, the trimmed description, the parsed cost, the quantity, and cost times quantity as its total. Every other line is unchanged |
| Estimator.AddCustomItem | client/src/pages/calculator.tsx:152-159 | adds exactly one blank custom item, `custom-N` with quantity 1, and advances the counter. The selection is untouched |
| Estimator.HandleCustomItemChange | client/src/pages/calculator.tsx:161-188 | stores the edited text. The item is then selected if and only if its trimmed description is non-empty, its cost text is non-empty and the cost parses. A selected line carries the item's id, the trimmed description, the parsed cost, the item's quantity, and cost times quantity as its total |
| Estimator.HandleReset | client/src/pages/calculator.tsx:226-234 | a confirmed reset clears the type, the selection, the quantities and the custom items, and sets the counter back to 1 |
| Session.ValidLines | client/src/pages/calculator.tsx:50-56 | in every valid state each line is keyed by its own id, and its total is its unit cost times its quantity |
| Session.InitialValid | client/src/pages/calculator.tsx:27-31 | the mount state satisfies the invariant |
| Session.FindIsLastMatching | client/src/pages/calculator.tsx:46-67 | when ids are distinct, the line auto-selection writes is the one `find` would return |
| Session.SetPropertyTypeKeepsValid | client/src/pages/calculator.tsx:41-64 | choosing a property type keeps the invariant |
| Session.HandleItemToggleKeepsValid | client/src/pages/calculator.tsx:66-90 | a catalogue check-box keeps the invariant |
| Session.HandleCustomItemToggleKeepsValid | client/src/pages/calculator.tsx:92-117 | a custom check-box keeps the invariant |
| Session.HandleQuantityChangeKeepsValid | client/src/pages/calculator.tsx:119-150 | a non-zero quantity edit keeps the invariant. Quantity edits keep the stored quantity and the line's quantity in step |
| Session.AddCustomItemKeepsValid | client/src/pages/calculator.tsx:152-159 | adding a custom item keeps the invariant |
| Session.HandleCustomItemChangeKeepsValid | client/src/pages/calculator.tsx:161-188 | editing a custom item's text keeps the invariant |
| Session.HandleResetValid | client/src/pages/calculator.tsx:226-234 | a reset always yields a valid state |
| Session.AddCustomItemFresh | client/src/pages/calculator.tsx:152-159 | in a valid state a new custom id never overwrites an existing custom item, so the number of custom items grows by one |
| Session.SetPropertyTypeDropsCustomItems | client/src/pages/calculator.tsx:41-64 | changing to a new type clears every custom line from the selection, since the shipped catalogue matches no custom id |
| Session.Step | client/src/pages/calculator.tsx:270-521 | the dispatch of each control's event to its handler is the definition; the contract pins only the refusal: an event is refused exactly when it edits a custom row that is not rendered |
| Session.StepKeepsValid | client/src/pages/calculator.tsx:270-521 | every event the page can raise keeps the invariant |
| Session.RunKeepsValid | client/src/pages/calculator.tsx:26-234 | any sequence of events from a valid state ends in a valid state |
| Session.ReachableStatesValid | client/src/pages/calculator.tsx:26-234 | every state reachable from mounting with the shipped catalogue is valid, whatever `parseFloat` returns |
| Totals.GstIncluded | client/src/pages/calculator.tsx:195-197 | `itemData?.gstIncluded`; `Totals.GstIncludedMeaning` characterizes it |
| Totals.GstIncludedMeaning | client/src/pages/calculator.tsx:195-197 | a line is GST-inclusive only through a catalogue entry with its id and the flag set; a line no entry carries is never inclusive; with distinct ids a line is inclusive exactly when its entry is flagged |
| Totals.Accumulate | client/src/pages/calculator.tsx:194-210 | the `forEach` fold over the lines; when no line total is negative, the summed ex-GST amount and GST are non-negative |
| Totals.Contribution | client/src/pages/calculator.tsx:195-209 | a GST-inclusive line splits its total into an ex-GST part that is a 1.1th of it and a GST part that makes up the rest. Any other line contributes its total ex GST plus a tenth of it as GST |
| Totals.CalculateTotals | client/src/pages/calculator.tsx:190-218 | the total is the subtotal plus GST, and no lines give zeros |
| Totals.TotalIsGrossSum | client/src/pages/calculator.tsx:190-218 | the grand total is the sum of each line's gross: its total when GST is included, 1.1 times it otherwise |
| Totals.MapAmountsPick | client/src/pages/calculator.tsx:194 | the amounts of a selection are those of the rest plus any one chosen line's share |
| Totals.ValuesInOrder | client/src/pages/calculator.tsx:194 | `Object.values` for a given key order: one value per key, the value at each position being the one stored under the key at that position |
| Totals.AccumulateValuesInAnyOrder | client/src/pages/calculator.tsx:194-210 | folding the lines in any enumeration of the keys gives the same amounts |
| Totals.CalculateTotalsOrderFree | client/src/pages/calculator.tsx:190-218 | the totals shown depend on the selection only, not on the order of `Object.values` |
| Totals.ResetTotalsZero | client/src/pages/calculator.tsx:226-234 | after a reset, as at mount, every total is zero |
| Totals.MapAmountsReplace | client/src/pages/calculator.tsx:194-210 | when two selections differ only in one line, their amounts differ exactly by the two versions of that line |
| Totals.UncheckTakesOffLine | client/src/pages/calculator.tsx:83-89 | unchecking a selected catalogue line subtracts exactly its share from the totals |
| Totals.CheckAddsLine | client/src/pages/calculator.tsx:70-82 | checking an unselected catalogue line adds exactly its share |
| Totals.QuantityChangeMovesOneLine | client/src/pages/calculator.tsx:122-131 | a quantity change moves the totals by the difference between the line's old share and its new share, and by nothing else |
| Totals.MapAmountsNonNegative | client/src/pages/calculator.tsx:190-218 | when every line total is non-negative, the subtotal and GST are non-negative too |
| Totals.FreeItemsAddNothing | shared/schema.ts:181-196 | a free item adds nothing at any quantity |
| Totals.CustomLinesAddGst | client/src/pages/calculator.tsx:195-208 | a custom line is never GST-inclusive: a tenth is added on top, so its gross is 1.1 times its total |
| Totals.VerificationIdExample | shared/schema.ts:69-76 | one identity verification at 29.90, GST included, is 299/11 ex GST plus 29.9/11 GST, and adds 29.90 in all |
| Totals.ExclusiveHundredExample | client/src/pages/calculator.tsx:205-209 | a line of 100.00 that is not in the catalogue adds 100.00 ex GST and 10.00 GST |

## Left out

- Rendering (JSX, `formatCurrency`, the summary table), `window.print` and the `confirm` dialog: they are output and browser I/O. A reset is modelled as confirmed; a cancelled reset changes nothing.
- IEEE-754 arithmetic: money is exact `real`, so the model omits rounding in `/ 1.1` and `* 0.1`, and the `Infinity` that `parseFloat` can return.
- `parseFloat` is left abstract as a parameter, because its grammar is not part of this model. `parseInt` is represented by its result, `Option<int>`.
- Text.NatToString: it does not model JavaScript's exponent form for counters of 10^21 and above, because a counter that high cannot be reached by clicking.
- The custom-item counter and the quantities are unbounded integers. In the page both are JavaScript numbers: `prev + 1` stops growing at 2^53, after which the same `custom-N` id would be issued again and overwrite its item, and `parseInt` can return values above 2^53 or `Infinity`. Estimator.NextCustomIdFresh, Session.AddCustomItemFresh and the issued-ids part of the invariant therefore hold only up to that bound in the page. The counter cannot reach it by clicking, and quantities that large fall under the IEEE-754 behaviour left out above.
- React scheduling: each handler is one atomic transition on the state the event saw. The auto-select effect is folded into `SetPropertyType`, because its dependency list makes it run only when the type changes.
- handleQuantityChange updates a selected custom line twice with the same value; the model applies that update once, since the second write is identical.
- Estimator.HandleCustomItemChange requires an existing custom id, because the page only calls it from rendered rows. With an unknown id the code behaves differently by field. A description edit spreads `undefined` without error: it stores a partial item holding only the description and deletes any line under that id. A cost edit throws when it reads `.description.trim()` of that partial item. Neither path is modelled, and `Session.Step` refuses such an event.
- Session.HandleQuantityChangeKeepsValid requires a non-zero quantity: a direct call with 0 would store 0, which `quantities[id] || 1` later reads as 1. Every page event passes through `parseInt(..) || 1`, which is never 0 (`Estimator.QuantityFromInput`).
- Where the code accepts more than the form's inputs suggest, the model follows the code:
  - quantities may be negative: the quantity inputs carry `min="1"` (calculator.tsx lines 352 and 425), but `parseInt(..) || 1` lets a typed negative through;
  - custom costs may be negative: the cost input carries `min="0"` (line 415), but `parseFloat` accepts a negative;
  - only the rendering reads the `free` category, to show the FREE label (lines 338-339); no handler and not `calculateTotals` consults it, so free items cost nothing only because their stored cost is 0.00;
  - checking a custom item that is not filled in deletes any line it has (lines 96 and 110-116).
- The Drizzle tables and Zod insert schemas in `shared/schema.ts` (lines 1-57): they are persistence declarations with no behaviour here. `Catalogue.DefaultCostsAreDecimal10x2` still checks the shipped costs against the `decimal(10, 2)` column.
- The guided tutorial components and the spreadsheet import script are outside the estimator core.
