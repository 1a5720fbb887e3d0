/** The quote page: a draft of client data and material lines that the user edits, priced
    against the inventory catalog, and a two-state screen (editing, summary). The edits are
    pure transforms of the draft; the page state that holds the draft is the class
    QuoteEditor. */
module QuotePage {
  import opened Domain
  import opened Seqs
  import opened Text

  /** One line of the draft: which material, and how much of it. */
  datatype QuoteItem = QuoteItem(materialId: string, quantity: real)

  datatype QuoteData = QuoteData(
    clientName: string, projectDescription: string, laborCost: real, items: seq<QuoteItem>)

  /** The draft the page starts from and `resetQuote` returns to. */
  const EmptyDraft := QuoteData("", "", 0.0, [])

  predicate HasItem(items: seq<QuoteItem>, id: string) {
    exists i :: 0 <= i < |items| && items[i].materialId == id
  }

  /** At most one line per material. */
  predicate UniqueIds(items: seq<QuoteItem>) {
    forall i, j :: 0 <= i < j < |items| ==> items[i].materialId != items[j].materialId
  }

  predicate PositiveQuantities(items: seq<QuoteItem>) {
    forall i :: 0 <= i < |items| ==> items[i].quantity > 0.0
  }

  /** The invariant the three edits keep: one line per material, every quantity positive. */
  predicate WellFormed(items: seq<QuoteItem>) {
    UniqueIds(items) && PositiveQuantities(items)
  }

  // ---------------------------------------------------------------------------------
  // The three edits

  /** `addMaterialToQuote`: one more unit of a material already in the draft, otherwise a
      new line with quantity 1 at the end. No catalog or stock check is made. */
  function AddMaterialToQuote(d: QuoteData, id: string): (r: QuoteData)
    ensures r.(items := d.items) == d
    ensures |r.items| == if HasItem(d.items, id) then |d.items| else |d.items| + 1
    ensures HasItem(r.items, id)
  {
    if HasItem(d.items, id) then
      var items := seq(|d.items|, i requires 0 <= i < |d.items| =>
                         if d.items[i].materialId == id
                         then d.items[i].(quantity := d.items[i].quantity + 1.0)
                         else d.items[i]);
      assert forall i :: 0 <= i < |d.items| ==> items[i].materialId == d.items[i].materialId;
      d.(items := items)
    else
      var items := d.items + [QuoteItem(id, 1.0)];
      assert items[|d.items|].materialId == id;
      d.(items := items)
  }

  /** `items.filter(item => item.materialId !== id)`. */
  function Without(items: seq<QuoteItem>, id: string): (r: seq<QuoteItem>)
    ensures |r| <= |items|
    ensures forall x :: x in r <==> x in items && x.materialId != id
    ensures !HasItem(r, id)
  {
    if items == [] then []
    else if items[0].materialId == id then Without(items[1..], id)
    else [items[0]] + Without(items[1..], id)
  }

  /** `removeItemFromQuote`: drop the line of that material. */
  function RemoveItemFromQuote(d: QuoteData, id: string): (r: QuoteData)
    ensures r.(items := d.items) == d
    ensures !HasItem(r.items, id)
  {
    d.(items := Without(d.items, id))
  }

  /** `updateItemQuantity`: a quantity of zero or less removes the line; any other
      quantity replaces the quantity of that material's line. */
  function UpdateItemQuantity(d: QuoteData, id: string, quantity: real): (r: QuoteData)
    ensures r.(items := d.items) == d
    ensures quantity > 0.0 ==> |r.items| == |d.items|
                               && forall i :: 0 <= i < |d.items| ==>
                                    r.items[i].materialId == d.items[i].materialId
    ensures quantity <= 0.0 ==> !HasItem(r.items, id)
  {
    if quantity <= 0.0 then RemoveItemFromQuote(d, id)
    else
      d.(items := seq(|d.items|, i requires 0 <= i < |d.items| =>
                        if d.items[i].materialId == id
                        then d.items[i].(quantity := quantity)
                        else d.items[i]))
  }

  // ---------------------------------------------------------------------------------
  // What the edits do to a well-formed draft

  /** Adding a material that is already in the draft adds 1 to that line only: length,
      order and every other line stay as they were. */
  lemma AddExistingBumpsOnlyItsLine(d: QuoteData, id: string, k: nat)
    requires UniqueIds(d.items)
    requires k < |d.items| && d.items[k].materialId == id
    ensures AddMaterialToQuote(d, id).items
            == d.items[k := d.items[k].(quantity := d.items[k].quantity + 1.0)]
  {
    assert HasItem(d.items, id);
  }

  /** Adding a material that is not in the draft appends a line with quantity 1. */
  lemma AddAbsentAppends(d: QuoteData, id: string)
    requires !HasItem(d.items, id)
    ensures AddMaterialToQuote(d, id).items == d.items + [QuoteItem(id, 1.0)]
  {
  }

  /** A quantity of zero or less is exactly removal; in particular the "-" button on a line
      whose quantity is at most 1 removes that line. */
  lemma UpdateNonPositiveIsRemove(d: QuoteData, id: string, quantity: real)
    requires quantity <= 0.0
    ensures UpdateItemQuantity(d, id, quantity) == RemoveItemFromQuote(d, id)
  {
  }

  lemma MinusOnSmallQuantityRemoves(d: QuoteData, k: nat)
    requires k < |d.items| && d.items[k].quantity <= 1.0
    ensures var id := d.items[k].materialId;
      UpdateItemQuantity(d, id, d.items[k].quantity - 1.0) == RemoveItemFromQuote(d, id)
  {
  }

  /** A positive quantity replaces the quantity of that material's line only. */
  lemma UpdatePositiveReplacesOnlyItsLine(d: QuoteData, id: string, quantity: real, k: nat)
    requires UniqueIds(d.items)
    requires quantity > 0.0
    requires k < |d.items| && d.items[k].materialId == id
    ensures UpdateItemQuantity(d, id, quantity).items
            == d.items[k := d.items[k].(quantity := quantity)]
  {
  }

  /** Removing a material the draft does not hold changes nothing. */
  lemma {:induction false} RemoveAbsentIsNoOp(items: seq<QuoteItem>, id: string)
    requires !HasItem(items, id)
    ensures Without(items, id) == items
  {
    if items != [] {
      assert !HasItem(items[1..], id) by {
        forall i | 0 <= i < |items[1..]| ensures items[1..][i].materialId != id {
          assert items[1..][i] == items[i + 1];
        }
      }
      RemoveAbsentIsNoOp(items[1..], id);
      assert items == [items[0]] + items[1..];
    }
  }

  /** Updating a material the draft does not hold changes nothing, whatever the quantity. */
  lemma UpdateAbsentIsNoOp(d: QuoteData, id: string, quantity: real)
    requires !HasItem(d.items, id)
    ensures UpdateItemQuantity(d, id, quantity) == d
  {
    if quantity <= 0.0 {
      RemoveAbsentIsNoOp(d.items, id);
    } else {
      var r := UpdateItemQuantity(d, id, quantity);
      assert r.items == d.items;
    }
  }

  /** Removing twice is removing once. */
  lemma RemoveIdempotent(d: QuoteData, id: string)
    ensures RemoveItemFromQuote(RemoveItemFromQuote(d, id), id) == RemoveItemFromQuote(d, id)
  {
    RemoveAbsentIsNoOp(Without(d.items, id), id);
  }

  /** Removing the line at position k of a draft with one line per material keeps every
      other line, in its original order. */
  lemma {:induction false} RemoveAt(items: seq<QuoteItem>, id: string, k: nat)
    requires UniqueIds(items)
    requires k < |items| && items[k].materialId == id
    ensures Without(items, id) == items[..k] + items[k + 1..]
  {
    var rest := items[1..];
    assert UniqueIds(rest) by {
      forall i, j | 0 <= i < j < |rest| ensures rest[i].materialId != rest[j].materialId {
        assert rest[i] == items[i + 1] && rest[j] == items[j + 1];
      }
    }
    if k == 0 {
      assert !HasItem(rest, id) by {
        forall i | 0 <= i < |rest| ensures rest[i].materialId != id {
          assert rest[i] == items[i + 1];
        }
      }
      RemoveAbsentIsNoOp(rest, id);
    } else {
      RemoveAt(rest, id, k - 1);
      assert items[0].materialId != id;
      assert Without(items, id) == [items[0]] + Without(rest, id);
      assert items[..k] == [items[0]] + rest[..k - 1];
      assert items[k + 1..] == rest[k..];
      ConcatAssociative([items[0]], rest[..k - 1], rest[k..]);
    }
  }

  // ---------------------------------------------------------------------------------
  // The invariant

  lemma AddKeepsWellFormed(d: QuoteData, id: string)
    requires WellFormed(d.items)
    ensures WellFormed(AddMaterialToQuote(d, id).items)
  {
    var r := AddMaterialToQuote(d, id).items;
    if !HasItem(d.items, id) {
      assert r == d.items + [QuoteItem(id, 1.0)];
      forall i, j | 0 <= i < j < |r| ensures r[i].materialId != r[j].materialId {
        if j == |d.items| {
          assert r[i] == d.items[i];
        }
      }
    }
  }

  lemma UpdateKeepsWellFormed(d: QuoteData, id: string, quantity: real)
    requires WellFormed(d.items)
    ensures WellFormed(UpdateItemQuantity(d, id, quantity).items)
  {
    if quantity <= 0.0 {
      RemoveKeepsWellFormed(d, id);
    }
  }

  lemma RemoveKeepsWellFormed(d: QuoteData, id: string)
    requires WellFormed(d.items)
    ensures WellFormed(RemoveItemFromQuote(d, id).items)
  {
    WithoutKeepsWellFormed(d.items, id);
  }

  lemma WithoutKeepsWellFormed(items: seq<QuoteItem>, id: string)
    requires WellFormed(items)
    ensures WellFormed(Without(items, id))
  {
    WithoutKeepsUnique(items, id);
    var r := Without(items, id);
    forall i | 0 <= i < |r| ensures r[i].quantity > 0.0 {
      assert r[i] in items;
    }
  }

  lemma {:induction false} WithoutKeepsUnique(items: seq<QuoteItem>, id: string)
    requires UniqueIds(items)
    ensures UniqueIds(Without(items, id))
  {
    if items != [] {
      var rest := items[1..];
      assert UniqueIds(rest) by {
        forall i, j | 0 <= i < j < |rest| ensures rest[i].materialId != rest[j].materialId {
          assert rest[i] == items[i + 1] && rest[j] == items[j + 1];
        }
      }
      WithoutKeepsUnique(rest, id);
      if items[0].materialId != id {
        var w := Without(rest, id);
        forall x | x in w ensures x.materialId != items[0].materialId {
          assert x in rest;
          var j :| 0 <= j < |rest| && rest[j] == x;
          assert items[j + 1] == x;
        }
        var r := [items[0]] + w;
        forall i, j | 0 <= i < j < |r| ensures r[i].materialId != r[j].materialId {
          assert r[j] == w[j - 1] && r[j] in w;
          if i > 0 {
            assert r[i] == w[i - 1];
          }
        }
      }
    }
  }

  /** The edits a user can make on the page. */
  datatype Edit = Add(id: string) | Update(id: string, quantity: real) | Remove(id: string)

  function ApplyEdit(d: QuoteData, e: Edit): QuoteData {
    match e
    case Add(id) => AddMaterialToQuote(d, id)
    case Update(id, q) => UpdateItemQuantity(d, id, q)
    case Remove(id) => RemoveItemFromQuote(d, id)
  }

  function ApplyEdits(d: QuoteData, edits: seq<Edit>): QuoteData
    decreases |edits|
  {
    if edits == [] then d else ApplyEdits(ApplyEdit(d, edits[0]), edits[1..])
  }

  /** From the empty draft, any sequence of adds, updates and removes leaves one line per
      material and every quantity positive. */
  lemma {:induction false} EditsKeepWellFormed(d: QuoteData, edits: seq<Edit>)
    requires WellFormed(d.items)
    ensures WellFormed(ApplyEdits(d, edits).items)
    decreases |edits|
  {
    if edits != [] {
      match edits[0] {
        case Add(id) => AddKeepsWellFormed(d, id);
        case Update(id, q) => UpdateKeepsWellFormed(d, id, q);
        case Remove(id) => RemoveKeepsWellFormed(d, id);
      }
      EditsKeepWellFormed(ApplyEdit(d, edits[0]), edits[1..]);
    }
  }

  lemma ReachableDraftsWellFormed(edits: seq<Edit>)
    ensures WellFormed(ApplyEdits(EmptyDraft, edits).items)
  {
    EditsKeepWellFormed(EmptyDraft, edits);
  }

  // ---------------------------------------------------------------------------------
  // Pricing

  /** What one line contributes: unit cost times quantity when the material is in the
      catalog, 0 when it is not. */
  function LineCost(item: QuoteItem, catalog: seq<Material>): real {
    match FindMaterial(catalog, item.materialId)
    case Some(m) => m.unitCost * item.quantity
    case None => 0.0
  }

  /** A line of a listed material costs the price of the first catalog entry with its id
      times the quantity. (A missing material costs 0: UnresolvedLineCostsNothing.) */
  lemma LineCostCases(item: QuoteItem, catalog: seq<Material>, k: nat)
    requires k < |catalog| && catalog[k].id == item.materialId
    requires forall j :: 0 <= j < k ==> catalog[j].id != item.materialId
    ensures LineCost(item, catalog) == catalog[k].unitCost * item.quantity
  {
    FindMaterialIsFirst(catalog, item.materialId, k);
  }

  predicate NonNegativePrices(catalog: seq<Material>) {
    forall i :: 0 <= i < |catalog| ==> catalog[i].unitCost >= 0.0
  }

  /** `calculateMaterialsCost`: the `reduce` that adds the line costs from the left,
      starting at 0. With non-negative prices and quantities the cost is non-negative. */
  function CalculateMaterialsCost(items: seq<QuoteItem>, catalog: seq<Material>): (r: real)
    ensures NonNegativePrices(catalog) && PositiveQuantities(items) ==> r >= 0.0
    decreases |items|
  {
    if items == [] then 0.0
    else
      var last := items[|items| - 1];
      assert PositiveQuantities(items) ==> PositiveQuantities(items[..|items| - 1]);
      CalculateMaterialsCost(items[..|items| - 1], catalog) + LineCost(last, catalog)
  }

  /** `calculateTotalCost`: materials plus labour. */
  function CalculateTotalCost(d: QuoteData, catalog: seq<Material>): (r: real)
    ensures r - d.laborCost == CalculateMaterialsCost(d.items, catalog)
    ensures NonNegativePrices(catalog) && PositiveQuantities(d.items) && d.laborCost >= 0.0 ==> r >= 0.0
  {
    CalculateMaterialsCost(d.items, catalog) + d.laborCost
  }

  /** The cost of a draft is the sum of the costs of its parts. */
  lemma {:induction false} MaterialsCostConcat(a: seq<QuoteItem>, b: seq<QuoteItem>, catalog: seq<Material>)
    ensures CalculateMaterialsCost(a + b, catalog)
            == CalculateMaterialsCost(a, catalog) + CalculateMaterialsCost(b, catalog)
    decreases |b|
  {
    if b == [] {
      assert a + b == a;
    } else {
      var b' := b[..|b| - 1];
      assert (a + b)[..|a + b| - 1] == a + b';
      MaterialsCostConcat(a, b', catalog);
    }
  }

  /** A line whose material is not in the catalog contributes nothing: dropping it leaves the
      cost unchanged. */
  lemma UnresolvedLineCostsNothing(a: seq<QuoteItem>, x: QuoteItem, b: seq<QuoteItem>, catalog: seq<Material>)
    requires FindMaterial(catalog, x.materialId).None?
    ensures CalculateMaterialsCost(a + [x] + b, catalog) == CalculateMaterialsCost(a + b, catalog)
  {
    MaterialsCostConcat(a + [x], b, catalog);
    MaterialsCostConcat(a, b, catalog);
    assert (a + [x])[..|a + [x]| - 1] == a;
  }

  lemma MaterialsCostSplit(items: seq<QuoteItem>, k: nat, catalog: seq<Material>)
    requires k < |items|
    ensures CalculateMaterialsCost(items, catalog)
            == CalculateMaterialsCost(items[..k], catalog) + LineCost(items[k], catalog)
               + CalculateMaterialsCost(items[k + 1..], catalog)
  {
    assert items == (items[..k] + [items[k]]) + items[k + 1..];
    MaterialsCostConcat(items[..k] + [items[k]], items[k + 1..], catalog);
    assert (items[..k] + [items[k]])[..k] == items[..k];
  }

  /** The unit cost a material adds per unit: its catalog price, or 0 when it is unknown. */
  function UnitCostOf(catalog: seq<Material>, id: string): real {
    match FindMaterial(catalog, id)
    case Some(m) => m.unitCost
    case None => 0.0
  }

  /** One more unit on a line costs one more unit cost. */
  lemma LineCostBump(x: QuoteItem, catalog: seq<Material>)
    ensures LineCost(x.(quantity := x.quantity + 1.0), catalog)
            == LineCost(x, catalog) + UnitCostOf(catalog, x.materialId)
  {
    match FindMaterial(catalog, x.materialId)
    case Some(m) =>
      assert m.unitCost * (x.quantity + 1.0) == m.unitCost * x.quantity + m.unitCost;
    case None =>
  }

  /** Adding a material raises the materials cost by exactly its unit cost. */
  lemma AddRaisesCostByUnitCost(d: QuoteData, id: string, catalog: seq<Material>)
    requires UniqueIds(d.items)
    ensures CalculateMaterialsCost(AddMaterialToQuote(d, id).items, catalog)
            == CalculateMaterialsCost(d.items, catalog) + UnitCostOf(catalog, id)
  {
    var r := AddMaterialToQuote(d, id).items;
    if HasItem(d.items, id) {
      var k :| 0 <= k < |d.items| && d.items[k].materialId == id;
      AddExistingBumpsOnlyItsLine(d, id, k);
      AddAtCost(d.items, r, k, catalog);
    } else {
      assert r[..|r| - 1] == d.items;
    }
  }

  lemma AddAtCost(items: seq<QuoteItem>, r: seq<QuoteItem>, k: nat, catalog: seq<Material>)
    requires k < |items|
    requires r == items[k := items[k].(quantity := items[k].quantity + 1.0)]
    ensures CalculateMaterialsCost(r, catalog)
            == CalculateMaterialsCost(items, catalog) + UnitCostOf(catalog, items[k].materialId)
  {
    BumpedSplit(items, r, k, catalog);
    LineCostBump(items[k], catalog);
  }

  /** The two drafts of AddAtCost agree around position k. */
  lemma BumpedSplit(items: seq<QuoteItem>, r: seq<QuoteItem>, k: nat, catalog: seq<Material>)
    requires k < |items|
    requires r == items[k := items[k].(quantity := items[k].quantity + 1.0)]
    ensures CalculateMaterialsCost(items, catalog)
            == (CalculateMaterialsCost(items[..k], catalog) + CalculateMaterialsCost(items[k + 1..], catalog))
               + LineCost(items[k], catalog)
    ensures CalculateMaterialsCost(r, catalog)
            == (CalculateMaterialsCost(items[..k], catalog) + CalculateMaterialsCost(items[k + 1..], catalog))
               + LineCost(items[k].(quantity := items[k].quantity + 1.0), catalog)
  {
    MaterialsCostSplit(items, k, catalog);
    MaterialsCostSplit(r, k, catalog);
    assert r[..k] == items[..k] && r[k + 1..] == items[k + 1..];
  }

  /** Removing a line lowers the materials cost by exactly that line's cost. */
  lemma RemoveLowersCostByLineCost(d: QuoteData, k: nat, catalog: seq<Material>)
    requires UniqueIds(d.items)
    requires k < |d.items|
    ensures CalculateMaterialsCost(RemoveItemFromQuote(d, d.items[k].materialId).items, catalog)
            == CalculateMaterialsCost(d.items, catalog) - LineCost(d.items[k], catalog)
  {
    RemoveAt(d.items, d.items[k].materialId, k);
    MaterialsCostSplit(d.items, k, catalog);
    MaterialsCostConcat(d.items[..k], d.items[k + 1..], catalog);
  }

  /** The total is the materials cost plus the labour cost, and a change of labour cost moves
      the total by the same amount. */
  lemma TotalIsMaterialsPlusLabour(d: QuoteData, labour: real, catalog: seq<Material>)
    ensures CalculateTotalCost(d, catalog) - d.laborCost == CalculateMaterialsCost(d.items, catalog)
    ensures CalculateTotalCost(d.(laborCost := labour), catalog)
            == CalculateTotalCost(d, catalog) + (labour - d.laborCost)
  {
  }

  // ---------------------------------------------------------------------------------
  // The page state

  /** Why `generateQuote` did or did not switch to the summary. */
  datatype GenerateOutcome = MissingClientName | NoItems | Generated

  /** The quote page's state: the draft and whether the summary is shown. */
  class QuoteEditor {
    var quoteData: QuoteData
    var showSummary: bool

    ghost predicate Valid()
      reads this
    {
      WellFormed(quoteData.items)
    }

    constructor ()
      ensures Valid()
      ensures quoteData == EmptyDraft && !showSummary
    {
      quoteData := EmptyDraft;
      showSummary := false;
    }

    method AddMaterial(id: string)
      requires Valid()
      modifies this
      ensures Valid()
      ensures quoteData == AddMaterialToQuote(old(quoteData), id)
      ensures showSummary == old(showSummary)
    {
      AddKeepsWellFormed(quoteData, id);
      quoteData := AddMaterialToQuote(quoteData, id);
    }

    method UpdateQuantity(id: string, quantity: real)
      requires Valid()
      modifies this
      ensures Valid()
      ensures quoteData == UpdateItemQuantity(old(quoteData), id, quantity)
      ensures showSummary == old(showSummary)
    {
      UpdateKeepsWellFormed(quoteData, id, quantity);
      quoteData := UpdateItemQuantity(quoteData, id, quantity);
    }

    method RemoveItem(id: string)
      requires Valid()
      modifies this
      ensures Valid()
      ensures quoteData == RemoveItemFromQuote(old(quoteData), id)
      ensures showSummary == old(showSummary)
    {
      RemoveKeepsWellFormed(quoteData, id);
      quoteData := RemoveItemFromQuote(quoteData, id);
    }

    /** The client-name field: its text is stored as typed. */
    method SetClientName(name: string)
      requires Valid()
      modifies this
      ensures Valid()
      ensures quoteData == old(quoteData).(clientName := name) && showSummary == old(showSummary)
    {
      quoteData := quoteData.(clientName := name);
    }

    method SetProjectDescription(text: string)
      requires Valid()
      modifies this
      ensures Valid()
      ensures quoteData == old(quoteData).(projectDescription := text)
      ensures showSummary == old(showSummary)
    {
      quoteData := quoteData.(projectDescription := text);
    }

    /** The labour field: `parseFloat(value) || 0`, so text that is not a number gives 0.
        A negative number is stored as it is. */
    method SetLaborCost(parsed: ParsedNumber)
      requires Valid()
      modifies this
      ensures Valid()
      ensures quoteData == old(quoteData).(laborCost := NumberOrZero(parsed))
      ensures showSummary == old(showSummary)
    {
      quoteData := quoteData.(laborCost := NumberOrZero(parsed));
    }

    /** `generateQuote`: a blank client name is refused first, then an empty item list;
        otherwise the summary is shown. The draft is never changed. */
    method GenerateQuote() returns (outcome: GenerateOutcome)
      requires Valid()
      modifies this
      ensures Valid()
      ensures quoteData == old(quoteData)
      ensures outcome == (if AllWhitespace(quoteData.clientName) then MissingClientName
                          else if quoteData.items == [] then NoItems
                          else Generated)
      ensures showSummary == (outcome == Generated || old(showSummary))
    {
      TrimEmptyIffBlank(quoteData.clientName);
      if Trim(quoteData.clientName) == [] {
        return MissingClientName;
      }
      if |quoteData.items| == 0 {
        return NoItems;
      }
      showSummary := true;
      return Generated;
    }

    /** `resetQuote`: back to the empty draft and the editing screen. */
    method ResetQuote()
      modifies this
      ensures Valid()
      ensures quoteData == EmptyDraft && !showSummary
    {
      quoteData := EmptyDraft;
      showSummary := false;
    }
  }
}
