/**
 * The pure meaning of the selection store: the total cost of a selection
 * and the plain-text budget rendered from it.
 */
module Budget {
  import opened Wrappers
  import opened Catalog
  import opened Decimal

  // ---------------------------------------------------------------------
  // Total cost
  // ---------------------------------------------------------------------

  /** `selectedProperty?.cost || 0`: the property's cost, or 0 when none is selected. */
  function PropertyCost(p: Option<Property>): nat {
    match p
    case None => 0
    case Some(q) => q.cost
  }

  // `SumOf` takes the cost of an entry as a function; these two are the `x.cost` of each reduce.
  function ItemCost(i: Item): nat {
    i.cost
  }

  function BuilderCost(b: Builder): nat {
    b.cost
  }

  /** `xs.reduce((sum, x) => sum + cost(x), 0)`: a left fold from 0. */
  function SumOf<T>(xs: seq<T>, cost: T -> nat): nat {
    if xs == [] then 0 else SumOf(xs[..|xs| - 1], cost) + cost(xs[|xs| - 1])
  }

  /** The total that `totalCost` computes from a selection. */
  function Total(p: Option<Property>, items: seq<Item>, builders: seq<Builder>): nat {
    PropertyCost(p) + SumOf(items, ItemCost) + SumOf(builders, BuilderCost)
  }

  lemma SumOfSingle<T>(x: T, cost: T -> nat)
    ensures SumOf([x], cost) == cost(x)
  {
    assert [x][..0] == [];
  }

  lemma {:induction false} SumOfAppend<T>(a: seq<T>, b: seq<T>, cost: T -> nat)
    ensures SumOf(a + b, cost) == SumOf(a, cost) + SumOf(b, cost)
    decreases |b|
  {
    if b == [] {
      assert a + b == a;
    } else {
      var init := b[..|b| - 1];
      assert (a + b)[..|a + b| - 1] == a + init;
      SumOfAppend(a, init, cost);
    }
  }

  /** The cost of an entry sits between the costs of the entries before and after it. */
  lemma SumOfAround<T>(pre: seq<T>, x: T, post: seq<T>, cost: T -> nat)
    ensures SumOf(pre + [x] + post, cost) == SumOf(pre, cost) + cost(x) + SumOf(post, cost)
  {
    SumOfSingle(x, cost);
    SumOfAppend(pre, [x], cost);
    SumOfAppend(pre + [x], post, cost);
  }

  /** A list is the entries before `j`, entry `j`, and the entries after it. */
  lemma SplitAt<T>(b: seq<T>, j: nat)
    requires j < |b|
    ensures b == b[..j] + [b[j]] + b[j + 1..]
  {
  }

  /** Taking entry `j` out of a list takes its cost out of the fold. */
  lemma SumOfRemove<T>(b: seq<T>, j: nat, cost: T -> nat)
    requires j < |b|
    ensures SumOf(b, cost) == SumOf(b[..j] + b[j + 1..], cost) + cost(b[j])
    ensures multiset(b[..j] + b[j + 1..]) == multiset(b) - multiset{b[j]}
  {
    var pre, x, post := b[..j], b[j], b[j + 1..];
    SplitAt(b, j);
    SumOfAround(pre, x, post, cost);
    SumOfAppend(pre, post, cost);
  }

  /** The fold does not depend on the order of the entries. */
  lemma {:induction false} SumOfPermutation<T>(a: seq<T>, b: seq<T>, cost: T -> nat)
    requires multiset(a) == multiset(b)
    ensures SumOf(a, cost) == SumOf(b, cost)
    decreases |a|
  {
    if a != [] {
      var init, x := a[..|a| - 1], a[|a| - 1];
      assert multiset(init) == multiset(a) - multiset{x} by {
        assert a == init + [x];
      }
      assert x in multiset(b);
      var j :| 0 <= j < |b| && b[j] == x;
      SumOfRemove(b, j, cost);
      SumOfPermutation(init, b[..j] + b[j + 1..], cost);
    }
  }

  /** Every entry's cost is at most the fold, and the fold is 0 exactly when every cost is. */
  lemma {:induction false} SumOfBounds<T>(xs: seq<T>, cost: T -> nat)
    ensures forall k :: 0 <= k < |xs| ==> cost(xs[k]) <= SumOf(xs, cost)
    ensures SumOf(xs, cost) == 0 <==> forall k :: 0 <= k < |xs| ==> cost(xs[k]) == 0
    decreases |xs|
  {
    if xs != [] {
      var init := xs[..|xs| - 1];
      SumOfBounds(init, cost);
      assert forall k :: 0 <= k < |init| ==> init[k] == xs[k];
    }
  }

  /** Adding one entry to a list adds exactly its cost to the total. */
  lemma TotalAppend(p: Option<Property>, items: seq<Item>, i: Item, builders: seq<Builder>, b: Builder)
    ensures Total(p, items + [i], builders) == Total(p, items, builders) + i.cost
    ensures Total(p, items, builders + [b]) == Total(p, items, builders) + b.cost
  {
    SumOfAppend(items, [i], ItemCost);
    SumOfSingle(i, ItemCost);
    SumOfAppend(builders, [b], BuilderCost);
    SumOfSingle(b, BuilderCost);
  }

  /** Reordering the selected items or builders does not change the total. */
  lemma TotalOrderIndependent(p: Option<Property>, items: seq<Item>, items': seq<Item>, builders: seq<Builder>, builders': seq<Builder>)
    requires multiset(items) == multiset(items')
    requires multiset(builders) == multiset(builders')
    ensures Total(p, items, builders) == Total(p, items', builders')
  {
    SumOfPermutation(items, items', ItemCost);
    SumOfPermutation(builders, builders', BuilderCost);
  }

  /**
   * The total is at least the cost of each selected entry, and it is 0
   * exactly when the property (if any) and every item and builder cost 0.
   */
  lemma TotalBounds(p: Option<Property>, items: seq<Item>, builders: seq<Builder>)
    ensures PropertyCost(p) <= Total(p, items, builders)
    ensures forall k :: 0 <= k < |items| ==> items[k].cost <= Total(p, items, builders)
    ensures forall k :: 0 <= k < |builders| ==> builders[k].cost <= Total(p, items, builders)
    ensures Total(p, items, builders) == 0 <==>
      PropertyCost(p) == 0 &&
      (forall k :: 0 <= k < |items| ==> items[k].cost == 0) &&
      (forall k :: 0 <= k < |builders| ==> builders[k].cost == 0)
  {
    SumOfBounds(items, ItemCost);
    SumOfBounds(builders, BuilderCost);
  }

  // ---------------------------------------------------------------------
  // Budget text
  // ---------------------------------------------------------------------

  const PropertyPrefix := "Propiedad seleccionada: "
  const ItemHeader := "Ítems seleccionados:\n"
  const BuilderHeader := "Albañiles seleccionados:\n"
  const TotalLabel := "\nPrecio total: $"

  function PropertyLine(p: Property): string {
    PropertyPrefix + p.name + ", Costo: $" + NatToString(p.cost) + ", Ubicación: " + p.location + "\n"
  }

  function ItemLine(i: Item): string {
    " - " + i.name + ", Costo: $" + NatToString(i.cost) + ", Habilidad: " + i.skill + "\n"
  }

  function BuilderLine(b: Builder): string {
    " - " + b.name + ", Experiencia: " + b.experience + " años, Habilidad: " + b.skill
      + ", Costo: $" + NatToString(b.cost) + "\n"
  }

  /** One rendered line per entry of `xs`, in list order (the source's `forEach` appends). */
  function Lines<T>(xs: seq<T>, line: T -> string): string {
    if xs == [] then "" else Lines(xs[..|xs| - 1], line) + line(xs[|xs| - 1])
  }

  function PropertySection(p: Option<Property>): string {
    match p
    case None => ""
    case Some(q) => PropertyLine(q)
  }

  function ItemSection(items: seq<Item>): string {
    if |items| > 0 then ItemHeader + Lines(items, ItemLine) else ""
  }

  function BuilderSection(builders: seq<Builder>): string {
    if |builders| > 0 then BuilderHeader + Lines(builders, BuilderLine) else ""
  }

  /** The budget text that `generateBudget` renders for a selection. */
  function Render(p: Option<Property>, items: seq<Item>, builders: seq<Builder>): string {
    PropertySection(p) + ItemSection(items) + BuilderSection(builders)
      + TotalLabel + NatToString(Total(p, items, builders))
  }

  predicate StartsWith(s: string, prefix: string) {
    |prefix| <= |s| && s[..|prefix|] == prefix
  }

  predicate EndsWith(s: string, suffix: string) {
    |suffix| <= |s| && s[|s| - |suffix|..] == suffix
  }

  // Facts about concatenation, stated over arbitrary strings so that the
  // lemmas about budgets only instantiate them.

  lemma Associate(a: string, b: string, c: string)
    ensures a + b + c == a + (b + c)
  {
  }

  lemma Reassociate(a: string, b: string, c: string, d: string, e: string)
    ensures a + b + c + d + e == a + (b + (c + (d + e)))
    ensures a + (b + (c + (d + e))) == (a + b) + (c + (d + e))
    ensures a + b + c + d + e == (a + b + c) + (d + e)
    ensures a + (b + c) + "" + d + e == a + b + c + d + e
  {
  }

  lemma Regroup(a: string, b: string, c: string, d: string)
    ensures a + (b + c + d) == a + b + c + d
  {
  }

  lemma StartsWithConcat(a: string, b: string)
    ensures StartsWith(a + b, a)
  {
    assert (a + b)[..|a|] == a;
  }

  lemma EndsWithConcat(a: string, b: string)
    ensures EndsWith(a + b, b)
  {
    assert (a + b)[|a|..] == b;
  }

  /**
   * A section that is either empty or opens with `prefix`, followed by text
   * that does not open like `prefix`: the whole opens with `prefix` exactly
   * when the section is present.
   */
  lemma SectionFirst(section: string, rest: string, prefix: string)
    requires |prefix| > 0 && |rest| > 0 && rest[0] != prefix[0]
    requires section == "" || StartsWith(section, prefix)
    ensures StartsWith(section + rest, prefix) <==> section != ""
  {
    if section == "" {
      assert section + rest == rest;
      if |prefix| <= |rest| {
        assert rest[..|prefix|][0] == rest[0];
      }
    } else {
      assert (section + rest)[..|prefix|] == section[..|prefix|];
    }
  }

  /** The first character of a concatenation. */
  lemma HeadOfConcat(a: string, b: string)
    requires |a + b| > 0
    ensures (a + b)[0] == if a != "" then a[0] else b[0]
  {
  }

  lemma {:induction false} LinesAppend<T>(a: seq<T>, b: seq<T>, line: T -> string)
    ensures Lines(a + b, line) == Lines(a, line) + Lines(b, line)
    decreases |b|
  {
    if b == [] {
      assert a + b == a;
    } else {
      var init := b[..|b| - 1];
      assert (a + b)[..|a + b| - 1] == a + init;
      LinesAppend(a, init, line);
    }
  }

  /** Appending one more rendered line to a text that ends with the lines of `xs`. */
  lemma AppendLine<T>(start: string, xs: seq<T>, x: T, line: T -> string)
    ensures start + Lines(xs, line) + line(x) == start + Lines(xs + [x], line)
  {
    assert (xs + [x])[..|xs|] == xs;
  }

  lemma LinesSingle<T>(x: T, line: T -> string)
    ensures Lines([x], line) == line(x)
  {
    assert [x][..0] == [];
  }

  /** The line for an entry sits between the lines of the entries before and after it. */
  lemma LinesAround<T>(pre: seq<T>, x: T, post: seq<T>, line: T -> string)
    ensures Lines(pre + [x] + post, line) == Lines(pre, line) + line(x) + Lines(post, line)
  {
    LinesSingle(x, line);
    LinesAppend(pre, [x], line);
    LinesAppend(pre + [x], post, line);
  }

  /** The item section is the header and then one line per item, in list order. */
  lemma ItemSectionInOrder(pre: seq<Item>, i: Item, post: seq<Item>)
    ensures ItemSection(pre + [i] + post) ==
      ItemHeader + Lines(pre, ItemLine) + ItemLine(i) + Lines(post, ItemLine)
  {
    LinesAround(pre, i, post, ItemLine);
    Regroup(ItemHeader, Lines(pre, ItemLine), ItemLine(i), Lines(post, ItemLine));
  }

  /** The builder section is the header and then one line per builder, in list order. */
  lemma BuilderSectionInOrder(pre: seq<Builder>, b: Builder, post: seq<Builder>)
    ensures BuilderSection(pre + [b] + post) ==
      BuilderHeader + Lines(pre, BuilderLine) + BuilderLine(b) + Lines(post, BuilderLine)
  {
    LinesAround(pre, b, post, BuilderLine);
    Regroup(BuilderHeader, Lines(pre, BuilderLine), BuilderLine(b), Lines(post, BuilderLine));
  }

  /** The budget split into its sections and its total line. */
  lemma RenderShape(p: Option<Property>, items: seq<Item>, builders: seq<Builder>)
    ensures Render(p, items, builders) ==
      PropertySection(p) + (ItemSection(items) + (BuilderSection(builders)
        + (TotalLabel + NatToString(Total(p, items, builders)))))
  {
    Reassociate(PropertySection(p), ItemSection(items), BuilderSection(builders),
      TotalLabel, NatToString(Total(p, items, builders)));
  }

  /** With nothing selected the budget is the total line alone. */
  lemma RenderEmpty()
    ensures Render(None, [], []) == "\nPrecio total: $0"
  {
  }

  /** The budget always ends with the total line for the selection's total. */
  lemma RenderEndsWithTotal(p: Option<Property>, items: seq<Item>, builders: seq<Builder>)
    ensures EndsWith(Render(p, items, builders), TotalLabel + NatToString(Total(p, items, builders)))
  {
    Reassociate(PropertySection(p), ItemSection(items), BuilderSection(builders),
      TotalLabel, NatToString(Total(p, items, builders)));
    EndsWithConcat(PropertySection(p) + ItemSection(items) + BuilderSection(builders),
      TotalLabel + NatToString(Total(p, items, builders)));
  }

  lemma PropertySectionShape(p: Option<Property>)
    ensures PropertySection(p) == "" <==> p.None?
    ensures p.Some? ==> StartsWith(PropertySection(p), PropertyLine(p.value))
    ensures PropertySection(p) == "" || StartsWith(PropertySection(p), PropertyPrefix)
  {
    if p.Some? {
      var q := p.value;
      var tail := q.name + ", Costo: $" + NatToString(q.cost) + ", Ubicación: " + q.location + "\n";
      assert PropertyLine(q) == PropertyPrefix + tail;
      StartsWithConcat(PropertyPrefix, tail);
      StartsWithConcat(PropertyLine(q), "");
      assert PropertyLine(q) + "" == PropertyLine(q);
    }
  }

  lemma ItemSectionShape(items: seq<Item>)
    ensures ItemSection(items) == "" <==> |items| == 0
    ensures ItemSection(items) == "" || StartsWith(ItemSection(items), ItemHeader)
  {
    if |items| > 0 {
      StartsWithConcat(ItemHeader, Lines(items, ItemLine));
    }
  }

  lemma BuilderSectionShape(builders: seq<Builder>)
    ensures BuilderSection(builders) == "" <==> |builders| == 0
    ensures BuilderSection(builders) == "" || StartsWith(BuilderSection(builders), BuilderHeader)
  {
    if |builders| > 0 {
      StartsWithConcat(BuilderHeader, Lines(builders, BuilderLine));
    }
  }

  /** The budget opens with the property line exactly when a property is selected. */
  lemma PropertyLineIffSelected(p: Option<Property>, items: seq<Item>, builders: seq<Builder>)
    ensures p.Some? ==> StartsWith(Render(p, items, builders), PropertyLine(p.value))
    ensures StartsWith(Render(p, items, builders), PropertyPrefix) <==> p.Some?
  {
    var tail := TotalLabel + NatToString(Total(p, items, builders));
    var rest := ItemSection(items) + (BuilderSection(builders) + tail);
    RenderShape(p, items, builders);
    PropertySectionShape(p);
    ItemSectionShape(items);
    BuilderSectionShape(builders);
    HeadOfConcat(BuilderSection(builders), tail);
    HeadOfConcat(ItemSection(items), BuilderSection(builders) + tail);
    SectionFirst(PropertySection(p), rest, PropertyPrefix);
    if p.Some? {
      StartsWithConcat(PropertySection(p), rest);
    }
  }

  /** Right after the property section comes the item header exactly when items are selected. */
  lemma ItemHeaderIffItems(p: Option<Property>, items: seq<Item>, builders: seq<Builder>)
    ensures StartsWith(Render(p, items, builders)[|PropertySection(p)|..], ItemHeader) <==> |items| > 0
  {
    var tail := TotalLabel + NatToString(Total(p, items, builders));
    var rest := BuilderSection(builders) + tail;
    RenderShape(p, items, builders);
    assert Render(p, items, builders)[|PropertySection(p)|..] == ItemSection(items) + rest;
    ItemSectionShape(items);
    BuilderSectionShape(builders);
    HeadOfConcat(BuilderSection(builders), tail);
    SectionFirst(ItemSection(items), rest, ItemHeader);
  }

  /** Right after the item section comes the builder header exactly when builders are selected. */
  lemma BuilderHeaderIffBuilders(p: Option<Property>, items: seq<Item>, builders: seq<Builder>)
    ensures StartsWith(Render(p, items, builders)[|PropertySection(p) + ItemSection(items)|..], BuilderHeader)
      <==> |builders| > 0
  {
    var before := PropertySection(p) + ItemSection(items);
    var tail := TotalLabel + NatToString(Total(p, items, builders));
    RenderShape(p, items, builders);
    Reassociate(PropertySection(p), ItemSection(items), BuilderSection(builders),
      TotalLabel, NatToString(Total(p, items, builders)));
    assert Render(p, items, builders)[|before|..] == BuilderSection(builders) + tail;
    BuilderSectionShape(builders);
    SectionFirst(BuilderSection(builders), tail, BuilderHeader);
  }

  // ---------------------------------------------------------------------
  // Reading the total back out of a budget
  // ---------------------------------------------------------------------

  /** The position of the last occurrence of `c` in `s`, if any. */
  function LastIndexOf(s: string, c: char): (r: Option<nat>)
    ensures r.Some? ==> r.value < |s| && s[r.value] == c && forall k :: r.value < k < |s| ==> s[k] != c
    ensures r.None? ==> forall k :: 0 <= k < |s| ==> s[k] != c
  {
    if s == [] then None
    else if s[|s| - 1] == c then Some(|s| - 1)
    else LastIndexOf(s[..|s| - 1], c)
  }

  /** The number written after the last `$` of a budget text. */
  function ReadTotal(budget: string): Option<nat> {
    match LastIndexOf(budget, '$')
    case None => None
    case Some(k) => ParseDecimal(budget[k + 1..])
  }

  /** Text that ends in `c`, followed by text free of `c`: the last `c` is the one in the middle. */
  lemma LastIndexOfJoin(head: string, tail: string, c: char)
    requires |head| > 0 && head[|head| - 1] == c
    requires forall k :: 0 <= k < |tail| ==> tail[k] != c
    ensures LastIndexOf(head + tail, c) == Some(|head| - 1)
  {
    var s := head + tail;
    var r := LastIndexOf(s, c);
    assert s[|head| - 1] == c;
    assert forall k :: |head| <= k < |s| ==> s[k] == tail[k - |head|];
    assert r.Some? && r.value == |head| - 1;
  }

  /** The total can always be read back out of a rendered budget. */
  lemma ReadTotalOfRender(p: Option<Property>, items: seq<Item>, builders: seq<Builder>)
    ensures ReadTotal(Render(p, items, builders)) == Some(Total(p, items, builders))
  {
    var digits := NatToString(Total(p, items, builders));
    var head := PropertySection(p) + ItemSection(items) + BuilderSection(builders) + TotalLabel;
    assert Render(p, items, builders) == head + digits;
    LastIndexOfJoin(head, digits, '$');
    assert (head + digits)[|head|..] == digits;
    ParseNatToString(Total(p, items, builders));
  }
}
