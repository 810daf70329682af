/** Settlement ("next customer"): the basket is booked into the cash register
    and the stock register, and then emptied. */
module Settlement {
  import opened Products
  import opened Baskets
  import opened Registers

  datatype Settled = Settled(basket: Basket, cash: CashRegister, stock: StockRegister)

  /** Closes the transaction. A non-zero amount due counts one transaction
      and is booked as cash and revenue; a zero amount due leaves the cash
      register alone. Every line, returns included, is booked in the stock
      register. The basket comes back empty. */
  function CloseTransaction(b: Basket, cat: Catalog, cr: CashRegister, sr: StockRegister): (r: Settled)
    requires b.lines.Keys <= cat.Keys
    ensures r.basket == Empty
    ensures b.amountDue != 0.0 ==>
      && r.cash.transactions == cr.transactions + 1
      && r.cash.cash == cr.cash + b.amountDue
      && r.cash.revenue == cr.revenue + b.amountDue
    ensures b.amountDue == 0.0 ==> r.cash == cr
    ensures r.cash.transactions >= cr.transactions
    ensures r.cash.cash - r.cash.revenue == cr.cash - cr.revenue
    ensures r.stock.soldQuantities.Keys == sr.soldQuantities.Keys + b.lines.Keys
    ensures r.stock.soldRevenues.Keys == sr.soldRevenues.Keys + b.lines.Keys
    ensures forall c :: SoldQty(r.stock, c) == SoldQty(sr, c) + Qty(b, c)
    ensures forall c :: c in b.lines ==>
      SoldRevenue(r.stock, c) == SoldRevenue(sr, c) + Extension(b.lines[c], cat[c])
    ensures forall c :: c !in b.lines ==> SoldRevenue(r.stock, c) == SoldRevenue(sr, c)
  {
    var cash :=
      if b.amountDue != 0.0 then AddCashAndRevenue(AddTransaction(cr, 1), b.amountDue)
      else cr;
    Settled(Empty, cash, SettleStock(sr, b.lines, cat))
  }

  /** Settling a basket with no lines and nothing due books nothing. */
  lemma CloseEmptyBasket(b: Basket, cat: Catalog, cr: CashRegister, sr: StockRegister)
    requires b.lines == map[] && b.amountDue == 0.0
    ensures CloseTransaction(b, cat, cr, sr) == Settled(Empty, cr, sr)
  {
    SettleNothing(sr, cat);
  }

  /** For a valid basket, the revenue credited to the cash register is the sum
      of the line extensions (the same amounts the stock register books per
      code), and so is the cash taken in. */
  lemma CloseBooksTheLines(b: Basket, cat: Catalog, cr: CashRegister, sr: StockRegister)
    requires Valid(b, cat)
    ensures var r := CloseTransaction(b, cat, cr, sr);
            && r.cash.revenue - cr.revenue == Tally(b.lines, cat, b.lines.Keys).amount
            && r.cash.cash - cr.cash == Tally(b.lines, cat, b.lines.Keys).amount
  {
  }

  /** Revenue is not monotone: a basket that only takes back goods lowers
      it. Returning qty units of a product with a positive price from an
      empty basket still counts a transaction, and lowers revenue by the
      line's extension and the units sold by qty. */
  lemma ReturnLowersRevenue(p: Product, qty: int, cr: CashRegister, sr: StockRegister)
    requires p.unitPrice > 0.0 && qty > 0
    ensures var cat := map[p.code := p];
            var b := RemoveItem(Empty, p, qty);
            var r := CloseTransaction(b, cat, cr, sr);
            && r.cash.revenue == cr.revenue - Extension(qty, p)
            && r.cash.transactions == cr.transactions + 1
            && SoldQty(r.stock, p.code) == SoldQty(sr, p.code) - qty
            && SoldRevenue(r.stock, p.code) == SoldRevenue(sr, p.code) - Extension(qty, p)
  {
    var b := RemoveItem(Empty, p, qty);
    assert p.code in b.lines && b.lines[p.code] == -qty;
    assert b.lines.Keys == {p.code};
    assert b.amountDue == -Extension(qty, p);
    assert Extension(qty, p) > 0.0 by {
      assert qty as real >= 1.0;
    }
    assert Extension(-qty, p) == -Extension(qty, p);
  }
}
