/** The VAT invoice generator: the list of invoice lines the user edits (append, remove by id,
    update one field by id) and the invoice totals. Each operation returns the new list, as
    the page's `setItems` replaces the old one. */
module Invoice {
  import Seqs

  /** One invoice line. Quantities, prices and rates are real numbers; the rate is a
      percentage. */
  datatype Item = Item(id: string, description: string, quantity: real, unitPrice: real, vatRate: real)

  /** The list the page starts with: one line of two units at 1,000 with 15% VAT. */
  function InitialItems(): seq<Item>
  {
    [Item("1", "Product/Service 1", 2.0, 1000.0, 15.0)]
  }

  /** No two lines share an id. */
  predicate UniqueIds(items: seq<Item>)
  {
    forall i, j :: 0 <= i < j < |items| ==> items[i].id != items[j].id
  }

  /** Some line has the id `id`. */
  predicate HasId(items: seq<Item>, id: string)
  {
    exists i :: 0 <= i < |items| && items[i].id == id
  }

  // ---------------------------------------------------------------------------------------
  // Adding a line

  /** `addItem`: one blank line (no description, quantity 1, price 0, VAT 15%) with the given
      id, which the page takes from the clock, appended after the unchanged old lines. */
  function AddItem(items: seq<Item>, id: string): (r: seq<Item>)
    ensures |r| == |items| + 1
    ensures r[..|items|] == items
    ensures r[|items|] == Item(id, "", 1.0, 0.0, 15.0)
  {
    items + [Item(id, "", 1.0, 0.0, 15.0)]
  }

  /** A fresh id keeps the ids unique. */
  lemma AddItemKeepsIdsUnique(items: seq<Item>, id: string)
    requires UniqueIds(items) && !HasId(items, id)
    ensures UniqueIds(AddItem(items, id))
  {
    var r := AddItem(items, id);
    forall i, j | 0 <= i < j < |r| ensures r[i].id != r[j].id {
      if j < |items| {
        assert r[i] == items[i] && r[j] == items[j];
      } else {
        assert r[i] == items[i];
      }
    }
  }

  // ---------------------------------------------------------------------------------------
  // Removing a line

  /** The filter condition of `removeItem`: the line's id differs from `id`. */
  function OtherId(id: string): Item -> bool
  {
    (item: Item) => item.id != id
  }

  /** `removeItem`: the lines whose id is not `id`. No line with that id remains, every other
      line is kept, nothing is added and the list never grows. */
  function RemoveItem(items: seq<Item>, id: string): (r: seq<Item>)
    ensures |r| <= |items|
    ensures forall i :: 0 <= i < |r| ==> r[i].id != id && r[i] in items
    ensures forall i :: 0 <= i < |items| && items[i].id != id ==> items[i] in r
  {
    Seqs.Filter(items, OtherId(id))
  }

  /** Removal keeps the order: removing from a list split in two is removing from each part. */
  lemma RemoveItemKeepsOrder(a: seq<Item>, b: seq<Item>, id: string)
    ensures RemoveItem(a + b, id) == RemoveItem(a, id) + RemoveItem(b, id)
  {
    Seqs.FilterAppend(a, b, OtherId(id));
  }

  /** Removing an id that no line has leaves the list as it was. */
  lemma RemoveAbsentId(items: seq<Item>, id: string)
    requires !HasId(items, id)
    ensures RemoveItem(items, id) == items
  {
    Seqs.FilterKeepsAll(items, OtherId(id));
  }

  /** With unique ids, removing the id of line `k` takes out exactly that line: the lines before
      it and after it stay, in order. */
  lemma RemoveExactlyOne(items: seq<Item>, k: nat)
    requires UniqueIds(items) && k < |items|
    ensures RemoveItem(items, items[k].id) == items[..k] + items[k + 1..]
    ensures |RemoveItem(items, items[k].id)| == |items| - 1
  {
    var id := items[k].id;
    var before, after := items[..k], items[k + 1..];
    assert items == before + ([items[k]] + after);
    RemoveItemKeepsOrder(before, [items[k]] + after, id);
    RemoveItemKeepsOrder([items[k]], after, id);
    assert !HasId(before, id) by {
      forall i | 0 <= i < |before| ensures before[i].id != id {
        assert before[i] == items[i];
      }
    }
    assert !HasId(after, id) by {
      forall i | 0 <= i < |after| ensures after[i].id != id {
        assert after[i] == items[k + 1 + i];
      }
    }
    RemoveAbsentId(before, id);
    RemoveAbsentId(after, id);
    assert RemoveItem([items[k]], id) == [];
  }

  /** The remove button is shown only while there is more than one line, and it removes the id
      of the line it sits on; with unique ids the list therefore never becomes empty this way. */
  lemma RemoveFromUiKeepsALine(items: seq<Item>, k: nat)
    requires UniqueIds(items) && |items| > 1 && k < |items|
    ensures |RemoveItem(items, items[k].id)| >= 1
  {
    RemoveExactlyOne(items, k);
  }

  /** Removal keeps the ids unique. */
  lemma {:induction false} RemoveItemKeepsIdsUnique(items: seq<Item>, id: string)
    requires UniqueIds(items)
    ensures UniqueIds(RemoveItem(items, id))
  {
    if items != [] {
      TailIdsUnique(items);
      RemoveItemKeepsIdsUnique(items[1..], id);
      var rest := RemoveItem(items[1..], id);
      if items[0].id != id {
        assert RemoveItem(items, id) == [items[0]] + rest;
        HeadIdFresh(items);
        ConsIdsUnique(items[0], rest);
      } else {
        assert RemoveItem(items, id) == rest;
      }
    }
  }

  /** The lines after the first of a list with distinct ids have distinct ids. */
  lemma TailIdsUnique(items: seq<Item>)
    requires items != [] && UniqueIds(items)
    ensures UniqueIds(items[1..])
  {
    forall i, j | 0 <= i < j < |items[1..]| ensures items[1..][i].id != items[1..][j].id {
      assert items[1..][i] == items[i + 1] && items[1..][j] == items[j + 1];
    }
  }

  /** In a list with distinct ids, no later line shares the first line's id. */
  lemma HeadIdFresh(items: seq<Item>)
    requires items != [] && UniqueIds(items)
    ensures forall y :: y in items[1..] ==> y.id != items[0].id
  {
    forall y | y in items[1..] ensures y.id != items[0].id {
      var m :| 0 <= m < |items[1..]| && items[1..][m] == y;
      assert items[m + 1] == y;
    }
  }

  /** A line put in front of lines with distinct ids, none of them its own, keeps the ids
      distinct. */
  lemma ConsIdsUnique(x: Item, rest: seq<Item>)
    requires UniqueIds(rest)
    requires forall y :: y in rest ==> y.id != x.id
    ensures UniqueIds([x] + rest)
  {
    var r := [x] + rest;
    forall i, j | 0 <= i < j < |r| ensures r[i].id != r[j].id {
      assert r[j] == rest[j - 1];
      if i > 0 {
        assert r[i] == rest[i - 1];
      } else {
        assert rest[j - 1] in rest;
      }
    }
  }

  // ---------------------------------------------------------------------------------------
  // Updating a line

  /** The field `updateItem` sets, with its new value. */
  datatype Update =
    | SetId(id: string)
    | SetDescription(description: string)
    | SetQuantity(quantity: real)
    | SetUnitPrice(unitPrice: real)
    | SetVatRate(vatRate: real)

  /** `{ ...item, [field]: value }`: the named field takes the new value and every other field
      keeps its old one. */
  function SetField(item: Item, u: Update): (r: Item)
    ensures r.id == (if u.SetId? then u.id else item.id)
    ensures r.description == (if u.SetDescription? then u.description else item.description)
    ensures r.quantity == (if u.SetQuantity? then u.quantity else item.quantity)
    ensures r.unitPrice == (if u.SetUnitPrice? then u.unitPrice else item.unitPrice)
    ensures r.vatRate == (if u.SetVatRate? then u.vatRate else item.vatRate)
  {
    match u
    case SetId(v) => item.(id := v)
    case SetDescription(v) => item.(description := v)
    case SetQuantity(v) => item.(quantity := v)
    case SetUnitPrice(v) => item.(unitPrice := v)
    case SetVatRate(v) => item.(vatRate := v)
  }

  /** `updateItem`: the list keeps its length and order; the lines with the id get the update
      and every other line is identical. */
  function UpdateItem(items: seq<Item>, id: string, u: Update): (r: seq<Item>)
    ensures |r| == |items|
    ensures forall i :: 0 <= i < |items| && items[i].id == id ==> r[i] == SetField(items[i], u)
    ensures forall i :: 0 <= i < |items| && items[i].id != id ==> r[i] == items[i]
  {
    seq(|items|, i requires 0 <= i < |items| => if items[i].id == id then SetField(items[i], u) else items[i])
  }

  /** With unique ids an update reaches exactly one line, the one with that id. */
  lemma UpdateReachesOneLine(items: seq<Item>, k: nat, u: Update)
    requires UniqueIds(items) && k < |items|
    ensures UpdateItem(items, items[k].id, u)[k] == SetField(items[k], u)
    ensures forall i :: 0 <= i < |items| && i != k ==> UpdateItem(items, items[k].id, u)[i] == items[i]
  {
    forall i | 0 <= i < |items| && i != k ensures items[i].id != items[k].id {
      if i < k { assert items[i].id != items[k].id; } else { assert items[k].id != items[i].id; }
    }
  }

  /** The page never edits an id, and any other update keeps the ids, so they stay unique. */
  lemma UpdateItemKeepsIdsUnique(items: seq<Item>, id: string, u: Update)
    requires UniqueIds(items) && !u.SetId?
    ensures UniqueIds(UpdateItem(items, id, u))
  {
    var r := UpdateItem(items, id, u);
    assert forall i :: 0 <= i < |items| ==> r[i].id == items[i].id;
  }

  // ---------------------------------------------------------------------------------------
  // Line and invoice totals

  /** A line's amount before VAT: quantity times unit price. */
  function LineNet(item: Item): real
  {
    item.quantity * item.unitPrice
  }

  /** A line's VAT: its rate's share of the line amount. */
  function LineVat(item: Item): (r: real)
    ensures r * 100.0 == LineNet(item) * item.vatRate
  {
    LineNet(item) * (item.vatRate / 100.0)
  }

  /** A line's total with VAT, as the preview table and the PDF show it. */
  function LineTotal(item: Item): (r: real)
    ensures r * 100.0 == LineNet(item) * (100.0 + item.vatRate)
  {
    LineNet(item) + LineVat(item)
  }

  /** The sum of `f` over the lines. */
  function SumOf(items: seq<Item>, f: Item -> real): real
  {
    if items == [] then 0.0 else SumOf(items[..|items| - 1], f) + f(items[|items| - 1])
  }

  datatype Totals = Totals(subtotal: real, totalVat: real, total: real)

  /** `calculateTotals`: the subtotal is the sum of the line amounts and the VAT the sum of the
      line VATs; the total is their sum and equals the sum of the line totals with VAT. An
      empty list gives all zeros. */
  method CalculateTotals(items: seq<Item>) returns (t: Totals)
    ensures t.subtotal == SumOf(items, LineNet)
    ensures t.totalVat == SumOf(items, LineVat)
    ensures t.total == t.subtotal + t.totalVat
    ensures t.total == SumOf(items, LineTotal)
    ensures items == [] ==> t == Totals(0.0, 0.0, 0.0)
  {
    var subtotal := 0.0;
    var totalVat := 0.0;
    for i := 0 to |items|
      invariant subtotal == SumOf(items[..i], LineNet)
      invariant totalVat == SumOf(items[..i], LineVat)
    {
      assert items[..i + 1][..i] == items[..i];
      var itemTotal := items[i].quantity * items[i].unitPrice;
      subtotal := subtotal + itemTotal;
      totalVat := totalVat + itemTotal * (items[i].vatRate / 100.0);
    }
    assert items[..|items|] == items;
    var total := subtotal + totalVat;
    LineTotalsAddUp(items);
    t := Totals(subtotal, totalVat, total);
  }

  /** The line totals add up to the subtotal plus the VAT. */
  lemma {:induction false} LineTotalsAddUp(items: seq<Item>)
    ensures SumOf(items, LineTotal) == SumOf(items, LineNet) + SumOf(items, LineVat)
  {
    if items != [] {
      LineTotalsAddUp(items[..|items| - 1]);
    }
  }

  /** An invoice whose every line is zero-rated has no VAT, so its total is its subtotal. */
  lemma {:induction false} ZeroRatedInvoice(items: seq<Item>)
    requires forall i :: 0 <= i < |items| ==> items[i].vatRate == 0.0
    ensures SumOf(items, LineVat) == 0.0
    ensures SumOf(items, LineTotal) == SumOf(items, LineNet)
  {
    if items != [] {
      ZeroRatedInvoice(items[..|items| - 1]);
    }
    LineTotalsAddUp(items);
  }

  /** With non-negative quantities, prices and rates, the subtotal and the VAT are non-negative,
      so the total is at least the subtotal. */
  lemma {:induction false} TotalsNonNegative(items: seq<Item>)
    requires forall i :: 0 <= i < |items| ==> items[i].quantity >= 0.0 && items[i].unitPrice >= 0.0 && items[i].vatRate >= 0.0
    ensures SumOf(items, LineNet) >= 0.0
    ensures SumOf(items, LineVat) >= 0.0
  {
    if items != [] {
      TotalsNonNegative(items[..|items| - 1]);
      var last := items[|items| - 1];
      assert LineNet(last) >= 0.0;
      assert LineVat(last) * 100.0 >= 0.0;
    }
  }

  /** A new line has price 0, so adding one leaves every total as it was. */
  lemma AddItemKeepsTotals(items: seq<Item>, id: string)
    ensures SumOf(AddItem(items, id), LineNet) == SumOf(items, LineNet)
    ensures SumOf(AddItem(items, id), LineVat) == SumOf(items, LineVat)
  {
    var r := AddItem(items, id);
    assert r[..|r| - 1] == items;
  }

  /** The starting invoice: a subtotal of 2,000, VAT of 300 and a total of 2,300. */
  lemma InitialTotals()
    ensures SumOf(InitialItems(), LineNet) == 2000.0
    ensures SumOf(InitialItems(), LineVat) == 300.0
    ensures SumOf(InitialItems(), LineTotal) == 2300.0
  {
    var items := InitialItems();
    assert items[..0] == [];
  }
}
