/** The shopping basket: one customer's purchase in progress.

    A basket holds a signed quantity per product code (a negative line is a
    return), the total item count, the amount due and the cash tendered.
    Every operation is a pure function from the old basket to the new one;
    the rejected cases of the till, which only print a message, return the
    basket unchanged. */
module Baskets {
  import opened Products

  datatype Basket = Basket(
    lines: map<string, int>,
    itemCount: int,
    amountDue: real,
    cashReceived: real)

  /** A fresh basket: what a new customer, a reset and a settlement leave. */
  const Empty: Basket := Basket(map[], 0, 0.0, 0.0)

  /** Net quantity of `code` in the basket; an absent line reads as 0. */
  function Qty(b: Basket, code: string): (q: int)
  {
    if code in b.lines then b.lines[code] else 0
  }

  // ---------------------------------------------------------------------
  // Sums over the lines, used to state the basket invariant
  // ---------------------------------------------------------------------

  /** A unit count together with an amount of money. */
  datatype Totals = Totals(count: int, amount: real)

  /** `t` with one more line of `qty` units of `p`. */
  function Plus(t: Totals, qty: int, p: Product): (u: Totals)
  {
    Totals(t.count + qty, t.amount + Extension(qty, p))
  }

  ghost function Pick(keys: set<string>): (k: string)
    requires keys != {}
    ensures k in keys
  {
    var k :| k in keys; k
  }

  /** Count and amount summed over the lines whose codes are in `keys`,
      each priced at its catalog unit price. */
  ghost function Tally(lines: map<string, int>, cat: Catalog, keys: set<string>): (t: Totals)
    requires keys <= lines.Keys && keys <= cat.Keys
    decreases keys
  {
    if keys == {} then Totals(0, 0.0)
    else
      var k := Pick(keys);
      Plus(Tally(lines, cat, keys - {k}), lines[k], cat[k])
  }

  /** The sum does not depend on which key is taken out first. */
  lemma {:induction false} TallyPick(lines: map<string, int>, cat: Catalog, keys: set<string>, k: string)
    requires keys <= lines.Keys && keys <= cat.Keys && k in keys
    ensures Tally(lines, cat, keys) == Plus(Tally(lines, cat, keys - {k}), lines[k], cat[k])
    decreases keys
  {
    var j := Pick(keys);
    if j != k {
      TallyPick(lines, cat, keys - {j}, k);
      TallyPick(lines, cat, keys - {k}, j);
      assert keys - {j} - {k} == keys - {k} - {j};
    }
  }

  /** The sum over `keys` only reads the lines at `keys`. */
  lemma {:induction false} TallyFrame(l1: map<string, int>, l2: map<string, int>, cat: Catalog, keys: set<string>)
    requires keys <= l1.Keys && keys <= l2.Keys && keys <= cat.Keys
    requires forall k :: k in keys ==> l1[k] == l2[k]
    ensures Tally(l1, cat, keys) == Tally(l2, cat, keys)
    decreases keys
  {
    if keys != {} {
      var k := Pick(keys);
      TallyFrame(l1, l2, cat, keys - {k});
    }
  }

  /** Setting one line to `v` moves the totals by the difference. */
  lemma TallyUpdate(lines: map<string, int>, cat: Catalog, code: string, v: int)
    requires lines.Keys <= cat.Keys && code in cat
    ensures var was := if code in lines then lines[code] else 0;
            var t := Tally(lines, cat, lines.Keys);
            var l' := lines[code := v];
            Tally(l', cat, l'.Keys)
              == Totals(t.count - was + v,
                        t.amount - Extension(was, cat[code]) + Extension(v, cat[code]))
  {
    var l' := lines[code := v];
    var rest := lines.Keys - {code};
    TallyPick(l', cat, l'.Keys, code);
    assert l'.Keys - {code} == rest;
    TallyFrame(l', lines, cat, rest);
    if code in lines {
      TallyPick(lines, cat, lines.Keys, code);
    } else {
      assert lines.Keys == rest;
    }
  }

  /** Deleting a line takes its count and extension out of the totals. */
  lemma TallyDelete(lines: map<string, int>, cat: Catalog, code: string)
    requires lines.Keys <= cat.Keys && code in lines
    ensures var t := Tally(lines, cat, lines.Keys);
            var l' := lines - {code};
            Tally(l', cat, l'.Keys)
              == Totals(t.count - lines[code], t.amount - Extension(lines[code], cat[code]))
  {
    var l' := lines - {code};
    assert l'.Keys == lines.Keys - {code};
    TallyPick(lines, cat, lines.Keys, code);
    TallyFrame(l', lines, cat, l'.Keys);
  }

  /** The basket invariant: every line is a catalog product, the item count
      and the amount due are the sums over the lines, and the cash tendered
      is not negative. */
  ghost predicate Valid(b: Basket, cat: Catalog)
  {
    && b.lines.Keys <= cat.Keys
    && Tally(b.lines, cat, b.lines.Keys) == Totals(b.itemCount, b.amountDue)
    && b.cashReceived >= 0.0
  }

  lemma EmptyValid(cat: Catalog)
    ensures Valid(Empty, cat)
  {
  }

  // ---------------------------------------------------------------------
  // Item operations
  // ---------------------------------------------------------------------

  /** Adds `qty` units of `item`; a non-positive quantity is refused. */
  function AddItem(b: Basket, item: Product, qty: int): (r: Basket)
    ensures qty <= 0 ==> r == b
    ensures qty > 0 ==> item.code in r.lines && Qty(r, item.code) == Qty(b, item.code) + qty
    ensures forall c :: c != item.code ==> Qty(r, c) == Qty(b, c)
    ensures r.lines.Keys == b.lines.Keys + (if qty > 0 then {item.code} else {})
    ensures qty > 0 ==> r.itemCount == b.itemCount + qty
    ensures qty > 0 ==> r.amountDue == b.amountDue + Extension(qty, item)
    ensures r.cashReceived == b.cashReceived
  {
    if qty > 0 then
      b.(itemCount := b.itemCount + qty,
         amountDue := b.amountDue + Extension(qty, item),
         lines := b.lines[item.code := Qty(b, item.code) + qty])
    else
      b
  }

  /** Removes `qty` units of `item`. Taking out less than the line holds
      shortens it, taking out exactly what it holds deletes it, and taking out
      more (or from an absent line) records returned goods as a negative
      line. Count and amount drop by `qty` in every case. A non-positive
      quantity is refused. */
  function RemoveItem(b: Basket, item: Product, qty: int): (r: Basket)
    ensures qty <= 0 ==> r == b
    ensures qty > 0 ==> Qty(r, item.code) == Qty(b, item.code) - qty
    ensures qty > 0 ==>
      (item.code !in r.lines <==> item.code in b.lines && b.lines[item.code] == qty)
    ensures forall c :: c != item.code ==> Qty(r, c) == Qty(b, c) && (c in r.lines <==> c in b.lines)
    ensures qty > 0 ==> r.itemCount == b.itemCount - qty
    ensures qty > 0 ==> r.amountDue == b.amountDue - Extension(qty, item)
    ensures r.cashReceived == b.cashReceived
  {
    if qty > 0 then
      var code := item.code;
      var lines :=
        if code in b.lines then
          if b.lines[code] > qty then b.lines[code := b.lines[code] - qty]
          else if b.lines[code] == qty then b.lines - {code}
          else b.lines[code := b.lines[code] - qty]
        else
          b.lines[code := -qty];
      b.(lines := lines,
         itemCount := b.itemCount - qty,
         amountDue := b.amountDue - Extension(qty, item))
    else
      b
  }

  /** Sets the line of `item` by removing all of it and adding `qty`. The
      removal is refused for a line that is not positive, so there the
      operation is a plain add. */
  function SetItem(b: Basket, item: Product, qty: int): (r: Basket)
    ensures Qty(b, item.code) <= 0 ==> r == AddItem(b, item, qty)
    ensures Qty(b, item.code) > 0 ==>
      && Qty(r, item.code) == (if qty > 0 then qty else 0)
      && (item.code in r.lines <==> qty > 0)
      && r.itemCount == b.itemCount - Qty(b, item.code) + (if qty > 0 then qty else 0)
      && r.amountDue == b.amountDue - Extension(Qty(b, item.code), item)
                                    + Extension(if qty > 0 then qty else 0, item)
    ensures forall c :: c != item.code ==> Qty(r, c) == Qty(b, c) && (c in r.lines <==> c in b.lines)
    ensures r.cashReceived == b.cashReceived
  {
    if item.code !in b.lines then
      AddItem(b, item, qty)
    else
      AddItem(RemoveItem(b, item, b.lines[item.code]), item, qty)
  }

  lemma ExtensionSplit(a: int, d: int, p: Product)
    ensures Extension(a - d, p) == Extension(a, p) - Extension(d, p)
    ensures Extension(a + d, p) == Extension(a, p) + Extension(d, p)
  {
  }

  lemma AddItemKeepsValid(b: Basket, cat: Catalog, item: Product, qty: int)
    requires Valid(b, cat) && item.code in cat && cat[item.code] == item
    ensures Valid(AddItem(b, item, qty), cat)
  {
    if qty > 0 {
      TallyUpdate(b.lines, cat, item.code, Qty(b, item.code) + qty);
      ExtensionSplit(Qty(b, item.code), qty, item);
    }
  }

  lemma RemoveItemKeepsValid(b: Basket, cat: Catalog, item: Product, qty: int)
    requires Valid(b, cat) && item.code in cat && cat[item.code] == item
    ensures Valid(RemoveItem(b, item, qty), cat)
  {
    if qty > 0 {
      var code := item.code;
      if code in b.lines && b.lines[code] == qty {
        TallyDelete(b.lines, cat, code);
      } else {
        TallyUpdate(b.lines, cat, code, Qty(b, code) - qty);
        ExtensionSplit(Qty(b, code), qty, item);
      }
    }
  }

  lemma SetItemKeepsValid(b: Basket, cat: Catalog, item: Product, qty: int)
    requires Valid(b, cat) && item.code in cat && cat[item.code] == item
    ensures Valid(SetItem(b, item, qty), cat)
  {
    if item.code in b.lines {
      RemoveItemKeepsValid(b, cat, item, b.lines[item.code]);
      AddItemKeepsValid(RemoveItem(b, item, b.lines[item.code]), cat, item, qty);
    } else {
      AddItemKeepsValid(b, cat, item, qty);
    }
  }

  // ---------------------------------------------------------------------
  // Cash tendered
  // ---------------------------------------------------------------------

  /** Adds tendered cash; only a positive amount is accepted. */
  function AddCash(b: Basket, amount: real): (r: Basket)
    ensures r.lines == b.lines && r.itemCount == b.itemCount && r.amountDue == b.amountDue
    ensures r != b <==> amount > 0.0
    ensures amount > 0.0 ==> r.cashReceived == b.cashReceived + amount
    ensures b.cashReceived >= 0.0 ==> r.cashReceived >= 0.0
  {
    if amount > 0.0 then b.(cashReceived := b.cashReceived + amount) else b
  }

  /** Hands tendered cash back; accepted only for a positive amount no larger
      than what was tendered. */
  function RemoveCash(b: Basket, amount: real): (r: Basket)
    ensures r.lines == b.lines && r.itemCount == b.itemCount && r.amountDue == b.amountDue
    ensures r != b <==> 0.0 < amount <= b.cashReceived
    ensures r != b ==> r.cashReceived + amount == b.cashReceived
    ensures b.cashReceived >= 0.0 ==> r.cashReceived >= 0.0
  {
    if amount > 0.0 then
      if amount <= b.cashReceived then b.(cashReceived := b.cashReceived - amount) else b
    else
      b
  }

  /** Replaces the tendered cash; a negative amount is refused. */
  function SetCash(b: Basket, amount: real): (r: Basket)
    ensures r.lines == b.lines && r.itemCount == b.itemCount && r.amountDue == b.amountDue
    ensures amount >= 0.0 ==> r.cashReceived == amount
    ensures amount < 0.0 ==> r == b
    ensures b.cashReceived >= 0.0 ==> r.cashReceived >= 0.0
  {
    if amount >= 0.0 then b.(cashReceived := amount) else b
  }

  /** Adding and then removing the same positive amount restores the basket;
      so does removing an amount that was there and adding it back. */
  lemma CashRoundTrip(b: Basket, amount: real)
    requires amount > 0.0
    ensures b.cashReceived >= 0.0 ==> RemoveCash(AddCash(b, amount), amount) == b
    ensures amount <= b.cashReceived ==> AddCash(RemoveCash(b, amount), amount) == b
  {
  }

  lemma CashOpsKeepValid(b: Basket, cat: Catalog, amount: real)
    requires Valid(b, cat)
    ensures Valid(AddCash(b, amount), cat)
    ensures Valid(RemoveCash(b, amount), cat)
    ensures Valid(SetCash(b, amount), cat)
  {
  }
}
