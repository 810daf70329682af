/** The two running totals that settlement writes into: the cash register
    (cash on hand, revenue, number of transactions) and the stock register
    (units sold and revenue, per product code). */
module Registers {
  import opened Products

  datatype CashRegister = CashRegister(cash: real, revenue: real, transactions: int)

  /** Counts `n` more transactions; nothing else changes. */
  function AddTransaction(r: CashRegister, n: int): (r': CashRegister)
    ensures r'.transactions == r.transactions + n
    ensures n >= 0 ==> r'.transactions >= r.transactions
    ensures r'.cash == r.cash && r'.revenue == r.revenue
  {
    r.(transactions := r.transactions + n)
  }

  /** Books `amount` both as cash taken and as revenue, so the difference
      between the two never moves. */
  function AddCashAndRevenue(r: CashRegister, amount: real): (r': CashRegister)
    ensures r'.cash - r'.revenue == r.cash - r.revenue
    ensures r'.revenue - r.revenue == amount
    ensures r'.transactions == r.transactions
  {
    r.(cash := r.cash + amount, revenue := r.revenue + amount)
  }

  datatype StockRegister = StockRegister(
    soldQuantities: map<string, int>,
    soldRevenues: map<string, real>)

  /** Units of `code` sold so far; a code never sold reads as 0. */
  function SoldQty(s: StockRegister, code: string): (q: int)
  {
    if code in s.soldQuantities then s.soldQuantities[code] else 0
  }

  /** Revenue booked against `code` so far; a code never sold reads as 0. */
  function SoldRevenue(s: StockRegister, code: string): (v: real)
  {
    if code in s.soldRevenues then s.soldRevenues[code] else 0.0
  }

  /** Books `qty` units of `code` at `unitPrice`. The two maps are updated
      independently, each starting an absent code from zero. */
  function RegisterSoldItem(s: StockRegister, code: string, unitPrice: real, qty: int): (r: StockRegister)
    ensures code in r.soldQuantities && code in r.soldRevenues
    ensures SoldQty(r, code) == SoldQty(s, code) + qty
    ensures SoldRevenue(r, code) == SoldRevenue(s, code) + qty as real * unitPrice
    ensures forall c :: c != code ==>
      && (c in r.soldQuantities <==> c in s.soldQuantities) && SoldQty(r, c) == SoldQty(s, c)
      && (c in r.soldRevenues <==> c in s.soldRevenues) && SoldRevenue(r, c) == SoldRevenue(s, c)
  {
    var quantities :=
      if code in s.soldQuantities then s.soldQuantities[code := s.soldQuantities[code] + qty]
      else s.soldQuantities[code := qty];
    var revenues :=
      if code in s.soldRevenues then s.soldRevenues[code := s.soldRevenues[code] + qty as real * unitPrice]
      else s.soldRevenues[code := qty as real * unitPrice];
    StockRegister(quantities, revenues)
  }

  /** Per-code quantities after booking every line of `lines`. */
  function AddQuantities(q: map<string, int>, lines: map<string, int>): (r: map<string, int>)
  {
    map c | c in q.Keys + lines.Keys ::
      (if c in q then q[c] else 0) + (if c in lines then lines[c] else 0)
  }

  /** Per-code revenues after booking every line of `lines` at catalog prices. */
  function AddRevenues(v: map<string, real>, lines: map<string, int>, cat: Catalog): (r: map<string, real>)
    requires lines.Keys <= cat.Keys
  {
    map c | c in v.Keys + lines.Keys ::
      (if c in v then v[c] else 0.0) + (if c in lines then Extension(lines[c], cat[c]) else 0.0)
  }

  /** RegisterSoldItem written as two map updates. */
  lemma RegisterSoldItemMaps(s: StockRegister, code: string, unitPrice: real, qty: int)
    ensures var r := RegisterSoldItem(s, code, unitPrice, qty);
            && r.soldQuantities == s.soldQuantities[code := SoldQty(s, code) + qty]
            && r.soldRevenues == s.soldRevenues[code := SoldRevenue(s, code) + qty as real * unitPrice]
  {
  }

  /** The stock register after every basket line has been booked: each code
      of the basket gains its line quantity and the line's extension. */
  function SettleStock(s: StockRegister, lines: map<string, int>, cat: Catalog): (r: StockRegister)
    requires lines.Keys <= cat.Keys
  {
    StockRegister(AddQuantities(s.soldQuantities, lines), AddRevenues(s.soldRevenues, lines, cat))
  }

  /** Booking nothing leaves the register as it was. */
  lemma SettleNothing(s: StockRegister, cat: Catalog)
    ensures SettleStock(s, map[], cat) == s
  {
    var r := SettleStock(s, map[], cat);
    assert r.soldQuantities == s.soldQuantities;
    assert r.soldRevenues == s.soldRevenues;
  }

  lemma PeelQuantities(q: map<string, int>, lines: map<string, int>, k: string)
    requires k in lines
    ensures AddQuantities(q, lines)
         == AddQuantities(q[k := (if k in q then q[k] else 0) + lines[k]], lines - {k})
  {
    var q1 := q[k := (if k in q then q[k] else 0) + lines[k]];
    var rest := lines - {k};
    var left := AddQuantities(q, lines);
    var right := AddQuantities(q1, rest);
    assert left.Keys == right.Keys;
    forall c | c in left
      ensures left[c] == right[c]
    {
      if c != k {
        assert c in lines <==> c in rest;
      }
    }
  }

  lemma PeelRevenues(v: map<string, real>, lines: map<string, int>, cat: Catalog, k: string)
    requires lines.Keys <= cat.Keys && k in lines
    ensures AddRevenues(v, lines, cat)
         == AddRevenues(v[k := (if k in v then v[k] else 0.0) + Extension(lines[k], cat[k])], lines - {k}, cat)
  {
    var v1 := v[k := (if k in v then v[k] else 0.0) + Extension(lines[k], cat[k])];
    var rest := lines - {k};
    var left := AddRevenues(v, lines, cat);
    var right := AddRevenues(v1, rest, cat);
    assert left.Keys == right.Keys;
    forall c | c in left
      ensures left[c] == right[c]
    {
      if c != k {
        assert c in lines <==> c in rest;
      }
    }
  }

  /** Booking all lines equals booking any one line with RegisterSoldItem
      first and then the others: the result does not depend on the order in
      which the lines are visited. */
  lemma SettlePeel(s: StockRegister, lines: map<string, int>, cat: Catalog, k: string)
    requires lines.Keys <= cat.Keys && k in lines
    ensures SettleStock(s, lines, cat)
         == SettleStock(RegisterSoldItem(s, k, cat[k].unitPrice, lines[k]), lines - {k}, cat)
  {
    PeelQuantities(s.soldQuantities, lines, k);
    PeelRevenues(s.soldRevenues, lines, cat, k);
    RegisterSoldItemMaps(s, k, cat[k].unitPrice, lines[k]);
  }

  /** The settlement loop: RegisterSoldItem applied to every basket line in
      turn, negative (returned) lines included. */
  method RegisterLines(s: StockRegister, lines: map<string, int>, cat: Catalog) returns (r: StockRegister)
    requires lines.Keys <= cat.Keys
    ensures r == SettleStock(s, lines, cat)
  {
    r := s;
    var todo := lines;
    while todo != map[]
      invariant todo.Keys <= lines.Keys
      invariant forall c :: c in todo ==> todo[c] == lines[c]
      invariant SettleStock(r, todo, cat) == SettleStock(s, lines, cat)
      decreases |todo|
    {
      var k :| k in todo;
      SettlePeel(r, todo, cat, k);
      r := RegisterSoldItem(r, k, cat[k].unitPrice, todo[k]);
      todo := todo - {k};
    }
    SettleNothing(r, cat);
  }
}
