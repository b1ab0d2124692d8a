/**
 * The quote selection store: one optional property, a list of items, a list
 * of builders and the last rendered budget text, with the operations the
 * quoting screen calls on it.
 */
module Selection {
  import opened Wrappers
  import opened Catalog
  import opened Decimal
  import opened Budget

  class SelectionStore {
    var selectedProperty: Option<Property>
    var selectedItems: seq<Item>
    var selectedBuilders: seq<Builder>
    /** The budget as plain text; only `GenerateBudget` and `ResetSelections` write it. */
    var currentBudget: string

    /** The store's initial state: nothing selected, no budget. */
    constructor ()
      ensures selectedProperty == None && selectedItems == [] && selectedBuilders == []
      ensures currentBudget == ""
    {
      selectedProperty := None;
      selectedItems := [];
      selectedBuilders := [];
      currentBudget := "";
    }

    /**
     * `totalCost`: computed from the current selection, reading the state and
     * changing nothing. It is at least the cost of every selected entry, and 0
     * exactly when every selected entry costs 0.
     */
    function TotalCost(): (r: nat)
      reads this
      ensures PropertyCost(selectedProperty) <= r
      ensures forall k :: 0 <= k < |selectedItems| ==> selectedItems[k].cost <= r
      ensures forall k :: 0 <= k < |selectedBuilders| ==> selectedBuilders[k].cost <= r
      ensures r == 0 <==>
        PropertyCost(selectedProperty) == 0 &&
        (forall k :: 0 <= k < |selectedItems| ==> selectedItems[k].cost == 0) &&
        (forall k :: 0 <= k < |selectedBuilders| ==> selectedBuilders[k].cost == 0)
    {
      TotalBounds(selectedProperty, selectedItems, selectedBuilders);
      Total(selectedProperty, selectedItems, selectedBuilders)
    }

    /**
     * `generateBudget`: appends the property line, the item lines and the
     * builder lines to a local text, then the total line, and stores the
     * result as the current budget. The selection itself is left as it was.
     */
    method GenerateBudget()
      modifies this
      ensures currentBudget == Render(selectedProperty, selectedItems, selectedBuilders)
      ensures selectedProperty == old(selectedProperty)
      ensures selectedItems == old(selectedItems)
      ensures selectedBuilders == old(selectedBuilders)
    {
      var property, items, builders := selectedProperty, selectedItems, selectedBuilders;
      var budget := "";

      if property.Some? {
        budget := budget + PropertyLine(property.value);
      }
      assert budget == PropertySection(property);

      ghost var start := budget;
      if |items| > 0 {
        budget := budget + ItemHeader;
        budget := AppendLines(budget, items, ItemLine);
        Associate(start, ItemHeader, Lines(items, ItemLine));
      }
      assert budget == start + ItemSection(items);

      start := budget;
      if |builders| > 0 {
        budget := budget + BuilderHeader;
        budget := AppendLines(budget, builders, BuilderLine);
        Associate(start, BuilderHeader, Lines(builders, BuilderLine));
      }
      assert budget == PropertySection(property) + ItemSection(items) + BuilderSection(builders);

      budget := budget + TotalLabel + NatToString(TotalCost());
      currentBudget := budget;
    }

    /** `resetSelections`: back to the initial state; the total is then 0. */
    method ResetSelections()
      modifies this
      ensures selectedProperty == None && selectedItems == [] && selectedBuilders == []
      ensures currentBudget == ""
      ensures TotalCost() == 0
    {
      selectedProperty := None;
      selectedItems := [];
      selectedBuilders := [];
      currentBudget := "";
    }

    /** `updateSelectedProperty`: the argument replaces any selected property; nothing else changes. */
    method UpdateSelectedProperty(property: Property)
      modifies this
      ensures selectedProperty == Some(property)
      ensures selectedItems == old(selectedItems)
      ensures selectedBuilders == old(selectedBuilders)
      ensures currentBudget == old(currentBudget)
    {
      selectedProperty := Some(property);
    }

    /** `updateSelectedItems`: the argument replaces the item list; nothing else changes. */
    method UpdateSelectedItems(items: seq<Item>)
      modifies this
      ensures selectedItems == items
      ensures selectedProperty == old(selectedProperty)
      ensures selectedBuilders == old(selectedBuilders)
      ensures currentBudget == old(currentBudget)
    {
      selectedItems := items;
    }

    /** `updateSelectedBuilders`: the argument replaces the builder list; nothing else changes. */
    method UpdateSelectedBuilders(builders: seq<Builder>)
      modifies this
      ensures selectedBuilders == builders
      ensures selectedProperty == old(selectedProperty)
      ensures selectedItems == old(selectedItems)
      ensures currentBudget == old(currentBudget)
    {
      selectedBuilders := builders;
    }
  }

  /** One `forEach` of `generateBudget`: appends the line of every entry, in list order. */
  method AppendLines<T>(budget: string, xs: seq<T>, line: T -> string) returns (text: string)
    ensures text == budget + Lines(xs, line)
  {
    text := budget;
    var i := 0;
    while i < |xs|
      invariant 0 <= i <= |xs|
      invariant text == budget + Lines(xs[..i], line)
    {
      AppendLine(budget, xs[..i], xs[i], line);
      assert xs[..i + 1] == xs[..i] + [xs[i]];
      text := text + line(xs[i]);
      i := i + 1;
    }
    assert xs[..i] == xs;
  }

  // Uses of the store, as the quoting screen drives it.

  /** Selecting a second property replaces the first; its cost is the whole total. */
  method SecondPropertyReplacesFirst(first: Property, second: Property)
    returns (selected: Option<Property>, total: nat)
    ensures selected == Some(second)
    ensures total == second.cost
  {
    var store := new SelectionStore();
    store.UpdateSelectedProperty(first);
    store.UpdateSelectedProperty(second);
    selected := store.selectedProperty;
    total := store.TotalCost();
  }

  /**
   * After any selection and a rendered budget, a reset leaves an empty
   * budget and a zero total, and rendering again gives the empty-selection
   * budget.
   */
  method ResetAfterSelection(p: Property, items: seq<Item>, builders: seq<Builder>)
    returns (budget: string, total: nat, rendered: string)
    ensures budget == "" && total == 0
    ensures rendered == "\nPrecio total: $0"
  {
    var store := new SelectionStore();
    store.UpdateSelectedProperty(p);
    store.UpdateSelectedItems(items);
    store.UpdateSelectedBuilders(builders);
    store.GenerateBudget();
    store.ResetSelections();
    budget, total := store.currentBudget, store.TotalCost();
    store.GenerateBudget();
    rendered := store.currentBudget;
    RenderEmpty();
  }

  /**
   * Changing the selection after rendering leaves the stored budget as it
   * was; only another `GenerateBudget` brings it up to date.
   */
  method BudgetNotRecomputedOnUpdate(p: Property, items: seq<Item>, newItems: seq<Item>)
    returns (stale: string, refreshed: string)
    ensures stale == Render(Some(p), items, [])
    ensures refreshed == Render(Some(p), newItems, [])
  {
    var store := new SelectionStore();
    store.UpdateSelectedProperty(p);
    store.UpdateSelectedItems(items);
    store.GenerateBudget();
    store.UpdateSelectedItems(newItems);
    stale := store.currentBudget;
    store.GenerateBudget();
    refreshed := store.currentBudget;
  }

  lemma Numerals()
    ensures NatToString(200) == "200" && NatToString(1000) == "1000" && NatToString(1200) == "1200"
  {
    assert NatToString(1) == "1" && NatToString(2) == "2" && NatToString(12) == "12";
    assert NatToString(10) == "10" && NatToString(20) == "20" && NatToString(120) == "120";
    assert NatToString(100) == "100";
  }

  lemma HouseLine()
    ensures PropertyLine(Property("p1", "Casa A", "", 1000, "Lima"))
      == "Propiedad seleccionada: Casa A, Costo: $1000, Ubicación: Lima\n"
  {
    Numerals();
  }

  lemma FlooringLine()
    ensures ItemLine(Item("i1", "Piso", 200, "Pisos")) == " - Piso, Costo: $200, Habilidad: Pisos\n"
  {
    Numerals();
  }

  /** A house of cost 1000 in Lima with one flooring item of cost 200 and no builders. */
  method HouseWithFlooring() returns (total: nat, budget: string)
    ensures total == 1200
    ensures budget == "Propiedad seleccionada: Casa A, Costo: $1000, Ubicación: Lima\n"
      + "Ítems seleccionados:\n"
      + " - Piso, Costo: $200, Habilidad: Pisos\n"
      + "\nPrecio total: $"
      + "1200"
  {
    var house := Property("p1", "Casa A", "", 1000, "Lima");
    var flooring := Item("i1", "Piso", 200, "Pisos");
    var store := new SelectionStore();
    store.UpdateSelectedProperty(house);
    store.UpdateSelectedItems([flooring]);
    store.GenerateBudget();
    total, budget := store.TotalCost(), store.currentBudget;
    SumOfSingle(flooring, ItemCost);
    LinesSingle(flooring, ItemLine);
    Reassociate(PropertyLine(house), ItemHeader, ItemLine(flooring), TotalLabel, NatToString(1200));
    Numerals();
    HouseLine();
    FlooringLine();
  }
}
