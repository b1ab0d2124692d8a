# Quote selection store

This project is a model of the quote selection store of a small real-estate quoting
application (`useSelectionStore` in `front/stores/useSelectionStore.ts`). An agent builds a
quote by choosing at most one property, a list of customisable items and a list of
builders. The store keeps that selection and computes its total cost. On request it
renders the selection as a plain-text budget in Spanish and stores it in its
`currentBudget` field. The quoting screen puts that field's value into the client record it
creates. How the screen reads the field is outside this model (see "## Left out").

The model has four modules:

- `Catalog` (Catalog.dfy): the property, item and builder records. Costs are natural numbers.
- `Decimal` (Decimal.dfy): the decimal numeral of a cost, as the template literals print it,
  plus a parser that reads a numeral back.
- `Budget` (Budget.dfy): the pure meaning of the store.
  - `Total` is the total cost. `SumOf` is the left fold that `reduce` computes.
  - `Render` is the budget text, built from one section per part of the selection and the
    total line.
  - `ReadTotal` reads the total back out of a budget.
  - The lemmas state what the source promises about all three.
- `Selection` (SelectionStore.dfy): the store itself, a class `SelectionStore` with the
  source's four fields (`selectedProperty`, `selectedItems`, `selectedBuilders`,
  `currentBudget`).
  - `TotalCost` reads the state.
  - `GenerateBudget` builds the text by appending to a local string, as the source does.
    Its two `forEach` loops are one generic method, `AppendLines`. The method's contract
    ties the new `currentBudget` to `Render` and says the selection is unchanged.
  - `ResetSelections` and the three setters are field assignments, each with a frame
    contract.
  - A few client methods drive the store through the usage sequences the quoting screen
    relies on.

How the store's operations behave:

- The setters replace a whole field with their argument
  (front/stores/useSelectionStore.ts:99, 102, 105). The store has no toggle, add or remove.
  Toggling an item or builder in or out of the selection happens in the quoting screen
  (front/app/(dashboard)/quoter.tsx:151-168). The screen builds the new list and passes it
  to `updateSelectedItems` or `updateSelectedBuilders`.
- The lists are plain sequences. They keep their order and may hold duplicates.
- `generateBudget` returns nothing. It only writes `currentBudget`.

## Model

| member | source | states |
|---|---|---|
| `Budget.PropertyCost` | front/stores/useSelectionStore.ts:53 | definition: the selected property's cost, or 0 when none is selected; its properties are stated by `Budget.TotalBounds` |
| `Budget.SumOf` | front/stores/useSelectionStore.ts:54-55 | definition: the left fold from 0 that `reduce((sum, x) => sum + x.cost, 0)` computes, with `x.cost` passed in as `Budget.ItemCost` or `Budget.BuilderCost`; its properties are stated by `Budget.SumOfAppend`, `Budget.SumOfPermutation` and `Budget.SumOfBounds` |
| `Budget.Total` | front/stores/useSelectionStore.ts:51-57 | definition: property cost plus the item sum plus the builder sum; its properties are stated by `Budget.TotalBounds`, `Budget.TotalAppend` and `Budget.TotalOrderIndependent` |
| `Selection.SelectionStore.TotalCost` | front/stores/useSelectionStore.ts:51-57 | reads the store without changing it; the result is at least the property's cost and each item's and builder's cost, and it is 0 exactly when all of these are 0 |
| `Budget.PropertySection` | front/stores/useSelectionStore.ts:65-67 | definition: the property line when a property is selected, otherwise nothing; its properties are stated by `Budget.PropertySectionShape` and `Budget.PropertyLineIffSelected` |
| `Budget.Lines` | front/stores/useSelectionStore.ts:71-80 | definition: one rendered line per entry, in list order, which is the text each `forEach` appends; its properties are stated by `Budget.LinesAppend`, `Budget.LinesAround` and `Budget.LinesSingle`, and `Selection.AppendLines` is proved equal to it |
| `Budget.PropertyLine` | front/stores/useSelectionStore.ts:66 | definition: `Propiedad seleccionada: <name>, Costo: $<cost>, Ubicación: <location>\n`; used by `Budget.PropertyLineIffSelected` |
| `Budget.ItemLine` | front/stores/useSelectionStore.ts:72 | definition: ` - <name>, Costo: $<cost>, Habilidad: <skill>\n`; used by `Budget.ItemSectionInOrder` |
| `Budget.BuilderLine` | front/stores/useSelectionStore.ts:79 | definition: ` - <name>, Experiencia: <experience> años, Habilidad: <skill>, Costo: $<cost>\n`; used by `Budget.BuilderSectionInOrder` |
| `Budget.ItemSection` | front/stores/useSelectionStore.ts:69-74 | definition: empty for no items, otherwise the item header and the item lines; its properties are stated by `Budget.ItemSectionInOrder` and `Budget.ItemHeaderIffItems` |
| `Budget.BuilderSection` | front/stores/useSelectionStore.ts:76-81 | definition: empty for no builders, otherwise the builder header and the builder lines; its properties are stated by `Budget.BuilderSectionInOrder` and `Budget.BuilderHeaderIffBuilders` |
| `Budget.Render` | front/stores/useSelectionStore.ts:63-83 | definition: property section, item section, builder section, then `"\nPrecio total: $"` and the total's numeral; its properties are stated by the `Render…` and `…Iff…` lemmas and `Budget.ReadTotalOfRender` |
| `Decimal.NatToString` | front/stores/useSelectionStore.ts:66-83 | a cost is printed as its shortest decimal numeral: at least one character, digits only, no leading zero, a single digit exactly for values below 10 |
| `Decimal.ParseNatToString` | front/stores/useSelectionStore.ts:83 | reading a printed numeral back as decimal digits gives the number that was printed |
| `Decimal.NatToStringInjective` | front/stores/useSelectionStore.ts:83 | two costs print the same exactly when they are equal |
| `Budget.SumOfAppend` | front/stores/useSelectionStore.ts:54-55 | the `reduce` sum of a concatenation is the sum of the parts |
| `Budget.SumOfPermutation` | front/stores/useSelectionStore.ts:54-55 | the `reduce` sum does not depend on the order of the entries (any two lists with the same multiset have the same sum) |
| `Budget.SumOfBounds` | front/stores/useSelectionStore.ts:54-55 | each entry's cost is at most the sum, and the sum is 0 exactly when every cost is 0 |
| `Budget.TotalBounds` | front/stores/useSelectionStore.ts:51-57 | the total is non-negative, at least the property's cost (0 when none is selected) and at least each item's and each builder's cost; it is 0 exactly when all of these are 0 |
| `Budget.TotalAppend` | front/stores/useSelectionStore.ts:53-56 | appending an item or a builder to its list raises the total by exactly that entry's cost |
| `Budget.TotalOrderIndependent` | front/stores/useSelectionStore.ts:53-56 | reordering the item or builder list leaves the total unchanged |
| `Budget.LinesAppend` | front/stores/useSelectionStore.ts:71-73 | the lines rendered for a concatenation of lists are the lines of the first list followed by those of the second |
| `Budget.LinesAround` | front/stores/useSelectionStore.ts:71-73 | an entry's line sits exactly between the lines of the entries before it and those after it |
| `Budget.ItemSectionInOrder` | front/stores/useSelectionStore.ts:69-74 | the item section is the header `Ítems seleccionados:\n` and then one ` - <name>, Costo: $<cost>, Habilidad: <skill>\n` line per item, in list order |
| `Budget.BuilderSectionInOrder` | front/stores/useSelectionStore.ts:76-81 | the builder section is the header `Albañiles seleccionados:\n` and then one ` - <name>, Experiencia: <experience> años, Habilidad: <skill>, Costo: $<cost>\n` line per builder, in list order |
| `Budget.RenderEmpty` | front/stores/useSelectionStore.ts:63-85 | with no property and both lists empty the budget is exactly `"\nPrecio total: $0"` |
| `Budget.PropertyLineIffSelected` | front/stores/useSelectionStore.ts:65-67 | the budget opens with `Propiedad seleccionada: ` exactly when a property is selected, and then with that property's full line |
| `Budget.ItemHeaderIffItems` | front/stores/useSelectionStore.ts:69-70 | right after the property section the budget continues with the item header exactly when the item list is non-empty |
| `Budget.BuilderHeaderIffBuilders` | front/stores/useSelectionStore.ts:76-77 | right after the item section the budget continues with the builder header exactly when the builder list is non-empty |
| `Budget.RenderEndsWithTotal` | front/stores/useSelectionStore.ts:83 | every budget ends with `"\nPrecio total: $"` followed by the numeral of the selection's total |
| `Budget.ReadTotalOfRender` | front/stores/useSelectionStore.ts:83 | the number after the last `$` of any budget is the selection's total, so the total can always be read back out of the text |
| `Selection.SelectionStore.constructor` | front/stores/useSelectionStore.ts:44-48 | the store starts with no property, empty lists and an empty budget |
| `Selection.SelectionStore.GenerateBudget` | front/stores/useSelectionStore.ts:60-86 | the new `currentBudget` is the rendering of the current selection; property, items and builders are unchanged |
| `Selection.AppendLines` | front/stores/useSelectionStore.ts:71-73 | one `forEach` pass appends the lines of all entries, in list order, to the text built so far |
| `Selection.SelectionStore.ResetSelections` | front/stores/useSelectionStore.ts:90-96 | property none, both lists empty, budget `""`, and the total is then 0 |
| `Selection.SelectionStore.UpdateSelectedProperty` | front/stores/useSelectionStore.ts:99 | the argument becomes the selected property; the lists and the stale budget are untouched |
| `Selection.SelectionStore.UpdateSelectedItems` | front/stores/useSelectionStore.ts:102 | the argument replaces the item list; the property, the builders and the budget are untouched |
| `Selection.SelectionStore.UpdateSelectedBuilders` | front/stores/useSelectionStore.ts:105 | the argument replaces the builder list; the property, the items and the budget are untouched |
| `Selection.SecondPropertyReplacesFirst` | front/stores/useSelectionStore.ts:99 | after two property selections only the second is selected and its cost is the whole total (nothing accumulates) |
| `Selection.ResetAfterSelection` | front/stores/useSelectionStore.ts:90-96 | after any selection and a rendered budget, a reset leaves budget `""` and total 0, and rendering again gives `"\nPrecio total: $0"` |
| `Selection.BudgetNotRecomputedOnUpdate` | front/stores/useSelectionStore.ts:102 | changing the items after rendering leaves the stored budget as the rendering of the old selection until `GenerateBudget` runs again |
| `Selection.HouseWithFlooring` | front/stores/useSelectionStore.ts:60-86 | a property `Casa A` of cost 1000 in `Lima` with one item `Piso` of cost 200 gives total 1200 and exactly this budget: the property line, the item header, the item line, an empty line (the total label starts with a newline), then `Precio total: $1200` |

The section lemmas are stated by position in the budget, not as "the header occurs somewhere
in the text". A property, item or builder name may itself contain a header's words, so a
substring statement would be false.

## Left out

- Costs are natural numbers. The source's `cost` is a JavaScript `number`. Fractional,
  negative, `NaN` and very large costs are not modelled. JavaScript prints values from
  10^21 upward in exponent notation, while `NatToString` always prints plain digits.
- Budget.SumOfPermutation, Budget.TotalAppend and Budget.TotalOrderIndependent hold for
  exact sums only. A JavaScript `number` holds integers exactly only up to 2^53. Above that
  the source's costs and its `reduce` sums are rounded, so the order of addition can change
  the result. `Total` stays exact.
- `selectedProperty?.cost || 0` also maps a cost of `NaN` to 0. For natural-number costs it
  is the property's cost or 0, which is what `PropertyCost` states.
- The optional `image` fields and the property's `description` are carried in the records
  but are not part of the total or the budget. Images are not modelled.
- The state library's `create`, `get` and `set` become a class with fields and methods.
  Subscriptions and re-rendering of the user interface on change are not modelled.
- The toggling of items and builders and the four-step wizard belong to the quoting screen
  (`front/app/(dashboard)/quoter.tsx`) and are not part of this model.
- The quoting screen calls `generateBudget()` and then reads `currentBudget` from the
  snapshot it took when it last rendered (front/app/(dashboard)/quoter.tsx:105-106). The
  quote it saves is therefore the budget rendered before that call. On a first confirmation
  the value is `""` and the handler returns without saving (quoter.tsx:108-111). This screen
  behaviour is not part of this model.
- `ReadTotal` takes the number after the last `$` of the budget. The client list screen
  reads the total with the first match of `Precio total: \$(\d+)`
  (`front/app/(dashboard)/clients.tsx`). It shares the budget's format but is not modelled.
- The API controllers, the network-backed stores (agents, items, builders, properties,
  clients), authentication, routes, the server bootstrap, the HTTP client instance and the
  user-interface components are forwarding code over a hosted backend and a mail library,
  and are not part of this model.
