/** The earlier draft of the till engine. Its item operations, registers and
    settlement are branch for branch those of the final version, so they are
    the same definitions here. What differs is modelled below: two cash
    guards, the dispatch (no cents alias, whole cash units, unknown codes only
    printed), and the scripted demonstration settlement. */
module Draft {
  import opened Wrappers
  import opened Products
  import opened Baskets
  import opened Registers
  import opened Settlement
  import opened Grammar
  import opened Dispatch

  /** The draft hands back tendered cash only when strictly less than all of
      it is asked for. */
  function DraftRemoveCash(b: Basket, amount: real): (r: Basket)
    ensures r.lines == b.lines && r.itemCount == b.itemCount && r.amountDue == b.amountDue
    ensures r != b <==> 0.0 < amount < b.cashReceived
    ensures r != b ==> r.cashReceived + amount == b.cashReceived && r.cashReceived > 0.0
    ensures b.cashReceived >= 0.0 ==> r.cashReceived >= 0.0
  {
    if amount > 0.0 then
      if amount < b.cashReceived then b.(cashReceived := b.cashReceived - amount) else b
    else
      b
  }

  /** The draft sets tendered cash only to a positive amount. */
  function DraftSetCash(b: Basket, amount: real): (r: Basket)
    ensures r.lines == b.lines && r.itemCount == b.itemCount && r.amountDue == b.amountDue
    ensures amount > 0.0 ==> r.cashReceived == amount
    ensures amount <= 0.0 ==> r == b
    ensures b.cashReceived >= 0.0 ==> r.cashReceived >= 0.0
  {
    if amount > 0.0 then b.(cashReceived := amount) else b
  }

  /** The two removal guards differ exactly when everything tendered is asked
      back: the final version hands it all back, the draft refuses. */
  lemma RemoveCashGuards(b: Basket, amount: real)
    ensures amount != b.cashReceived ==> DraftRemoveCash(b, amount) == RemoveCash(b, amount)
    ensures b.cashReceived > 0.0 ==>
      && DraftRemoveCash(b, b.cashReceived) == b
      && RemoveCash(b, b.cashReceived).cashReceived == 0.0
  {
  }

  /** The two set guards differ exactly at zero: the draft cannot clear the
      tendered cash. */
  lemma SetCashGuards(b: Basket, amount: real)
    ensures amount != 0.0 ==> DraftSetCash(b, amount) == SetCash(b, amount)
    ensures b.cashReceived != 0.0 ==>
      && DraftSetCash(b, 0.0) == b
      && SetCash(b, 0.0).cashReceived == 0.0
  {
  }

  /** The draft's only alias: `eu` for whole cash units. */
  function DraftAlias(code: string): (a: string)
  {
    if code == "eu" then "cash" else code
  }

  /** Draft resolution: `eu` is the only alias, so `c` is looked up as an
      ordinary code, and cash is counted in whole units. */
  function DraftResolve(cat: Catalog, raw: RawToken): (req: Request)
    requires WellFormed(raw)
    ensures raw.op == "" || raw.op == "+" ==> req.op == Add
    ensures raw.op == "-" ==> req.op == Remove
    ensures raw.op == "=" ==> req.op == Set
    ensures raw.digits == "" ==> req.quantity == 1
    ensures raw.digits != "" ==> req.quantity == DigitsValue(raw.digits)
    ensures !req.target.Cents?
    ensures req.target.Item? <==> DraftAlias(raw.code) in cat
    ensures req.target.Item? ==> req.target.product == cat[DraftAlias(raw.code)]
    ensures req.target.Cash? <==> DraftAlias(raw.code) == "cash" && "cash" !in cat
    ensures req.target.Unknown? <==> DraftAlias(raw.code) !in cat && DraftAlias(raw.code) != "cash"
    ensures req.target.Unknown? ==> req.target.code == DraftAlias(raw.code)
    ensures raw.code == "c" && "c" !in cat ==> req.target == Unknown("c")
  {
    var code := DraftAlias(raw.code);
    var target :=
      if code in cat then Item(cat[code])
      else if code == "cash" then Cash
      else Unknown(code);
    Request(OpOf(raw.op), QuantityOf(raw.digits), target)
  }

  function DraftCashOp(b: Basket, op: Op, amount: real): (r: Basket)
  {
    match op
    case Add => AddCash(b, amount)
    case Remove => DraftRemoveCash(b, amount)
    case Set => DraftSetCash(b, amount)
  }

  /** Carries out one draft request: the operator picks the basket
      operation, item requests act on that product's line, cash requests use
      whole units and the draft's guards; an unknown code changes nothing
      (the draft only prints it). */
  function DraftApplyRequest(b: Basket, req: Request): (r: Basket)
    ensures req.target.Unknown? ==> r == b
    ensures req.target.Item? && req.op == Add ==> r == AddItem(b, req.target.product, req.quantity)
    ensures req.target.Item? && req.op == Remove ==> r == RemoveItem(b, req.target.product, req.quantity)
    ensures req.target.Item? && req.op == Set ==> r == SetItem(b, req.target.product, req.quantity)
    ensures req.target.Cash? && req.op == Add ==> r == AddCash(b, req.quantity as real)
    ensures req.target.Cash? && req.op == Remove ==> r == DraftRemoveCash(b, req.quantity as real)
    ensures req.target.Cash? && req.op == Set ==> r == DraftSetCash(b, req.quantity as real)
    ensures !req.target.Item? ==>
      r.lines == b.lines && r.itemCount == b.itemCount && r.amountDue == b.amountDue
    ensures req.target.Item? ==> r.cashReceived == b.cashReceived
  {
    if req.target.Item? then ItemOp(b, req.op, req.target.product, req.quantity)
    else if req.target.Cash? then DraftCashOp(b, req.op, req.quantity as real)
    else b
  }

  /** One piece of a draft line: skipped when it does not match, otherwise
      resolved and carried out. */
  function DraftApplyPiece(cat: Catalog, b: Basket, piece: string): (r: Basket)
    ensures ParseToken(piece).None? ==> r == b
    ensures ParseToken(piece).Some? ==> r == DraftApplyRequest(b, DraftResolve(cat, ParseToken(piece).value))
  {
    match ParseToken(piece)
    case None => b
    case Some(raw) => DraftApplyRequest(b, DraftResolve(cat, raw))
  }

  /** What a well-formed draft piece, with any surrounding whitespace, does:
      an item code runs the operator's basket operation with the quantity (1
      when absent) on that product; `c` is an ordinary code; a code that is
      neither an item nor cash changes nothing. */
  lemma DraftPieceDispatch(cat: Catalog, b: Basket, pre: string, raw: RawToken, post: string)
    requires AllWs(pre) && AllWs(post) && WellFormed(raw)
    ensures var r := DraftApplyPiece(cat, b, pre + Render(raw) + post);
            var code := DraftAlias(raw.code);
            var q := QuantityOf(raw.digits);
            && (code in cat && (raw.op == "" || raw.op == "+") ==> r == AddItem(b, cat[code], q))
            && (code in cat && raw.op == "-" ==> r == RemoveItem(b, cat[code], q))
            && (code in cat && raw.op == "=" ==> r == SetItem(b, cat[code], q))
            && (code == "cash" && code !in cat ==> r == DraftCashOp(b, OpOf(raw.op), q as real))
            && (code !in cat && code != "cash" ==> r == b)
  {
    var piece := pre + Render(raw) + post;
    assert DraftApplyPiece(cat, b, piece) == DraftApplyRequest(b, DraftResolve(cat, raw)) by {
      ParseRender(pre, raw, post);
    }
  }

  /** The pieces of a draft line, left to right. A line in which no piece
      matches leaves the basket as it was. */
  function DraftApplyTokens(cat: Catalog, b: Basket, tokens: seq<string>): (r: Basket)
    ensures (forall i :: 0 <= i < |tokens| ==> ParseToken(tokens[i]).None?) ==> r == b
    decreases |tokens|
  {
    if |tokens| == 0 then b
    else DraftApplyTokens(cat, DraftApplyPiece(cat, b, tokens[0]), tokens[1..])
  }

  /** One step of DraftApplyTokens: the first piece, then the rest of the
      line from where it left the basket. */
  lemma DraftApplyTokensCons(cat: Catalog, b: Basket, tokens: seq<string>)
    requires |tokens| > 0
    ensures DraftApplyTokens(cat, b, tokens)
         == DraftApplyTokens(cat, DraftApplyPiece(cat, b, tokens[0]), tokens[1..])
  {
  }

  /** Processing a draft line in two parts is processing the first part and
      then the second from where the first left the basket. */
  lemma {:induction false} DraftApplyTokensAppend(cat: Catalog, b: Basket, t1: seq<string>, t2: seq<string>)
    ensures DraftApplyTokens(cat, b, t1 + t2) == DraftApplyTokens(cat, DraftApplyTokens(cat, b, t1), t2)
    decreases |t1|
  {
    HeadTailAppend(t1, t2);
    if |t1| > 0 {
      var first := DraftApplyPiece(cat, b, t1[0]);
      DraftApplyTokensCons(cat, b, t1);
      DraftApplyTokensCons(cat, b, t1 + t2);
      DraftApplyTokensAppend(cat, first, t1[1..], t2);
    }
  }

  /** One line of input in the draft; it never collects error reports. */
  function DraftProcessLine(cat: Catalog, t: Till, line: string): (r: Step)
    requires t.basket.lines.Keys <= cat.Keys
    ensures r.errors == []
  {
    var words := Split(Lower(line));
    if words == ["qq"] then Step(t, true, [])
    else if words == ["rr"] then Step(t.(basket := Empty), false, [])
    else if words == ["nn"] then
      var s := CloseTransaction(t.basket, cat, t.cash, t.stock);
      Step(Till(s.basket, s.cash, s.stock), false, [])
    else
      Step(t.(basket := DraftApplyTokens(cat, t.basket, words)), false, [])
  }

  /** At the level of one line, the draft handles `qq`, `rr` and `nn` as the
      final version does, ahead of any piece; any other line runs its pieces
      left to right and collects no reports. (What follows a quit differs:
      the draft then runs the demonstration settlement below.) */
  lemma DraftSentinels(cat: Catalog, t: Till, line: string)
    requires t.basket.lines.Keys <= cat.Keys
    ensures Lower(line) in {"qq", "rr", "nn"} ==> DraftProcessLine(cat, t, line) == ProcessLine(cat, t, line)
    ensures Lower(line) !in {"qq", "rr", "nn"} ==>
      DraftProcessLine(cat, t, line)
        == Step(t.(basket := DraftApplyTokens(cat, t.basket, Split(Lower(line)))), false, [])
  {
    var s := Lower(line);
    SplitIsSingle(s, "qq");
    SplitIsSingle(s, "rr");
    SplitIsSingle(s, "nn");
  }

  lemma DraftApplyRequestKeepsValid(cat: Catalog, b: Basket, req: Request)
    requires Valid(b, cat)
    requires req.target.Item? ==> req.target.product.code in cat && cat[req.target.product.code] == req.target.product
    ensures Valid(DraftApplyRequest(b, req), cat)
  {
    if req.target.Item? {
      var p := req.target.product;
      match req.op {
        case Add => AddItemKeepsValid(b, cat, p, req.quantity);
        case Remove => RemoveItemKeepsValid(b, cat, p, req.quantity);
        case Set => SetItemKeepsValid(b, cat, p, req.quantity);
      }
    }
  }

  lemma {:induction false} DraftApplyTokensKeepsValid(cat: Catalog, b: Basket, tokens: seq<string>)
    requires Keyed(cat) && Valid(b, cat)
    ensures Valid(DraftApplyTokens(cat, b, tokens), cat)
    decreases |tokens|
  {
    if |tokens| > 0 {
      var first := DraftApplyPiece(cat, b, tokens[0]);
      match ParseToken(tokens[0]) {
        case None =>
        case Some(raw) => DraftApplyRequestKeepsValid(cat, b, DraftResolve(cat, raw));
      }
      DraftApplyTokensKeepsValid(cat, first, tokens[1..]);
    }
  }

  /** The draft keeps the same invariants as the final version: tendered cash
      never goes negative and the basket totals stay the sums of its lines. */
  lemma DraftProcessLineKeepsInvariant(cat: Catalog, t: Till, line: string)
    requires Keyed(cat) && Valid(t.basket, cat)
    ensures var r := DraftProcessLine(cat, t, line);
            && Valid(r.till.basket, cat)
            && r.till.cash.transactions >= t.cash.transactions
            && r.till.cash.cash - r.till.cash.revenue == t.cash.cash - t.cash.revenue
  {
    var words := Split(Lower(line));
    if words != ["qq"] && words != ["rr"] && words != ["nn"] {
      DraftApplyTokensKeepsValid(cat, t.basket, words);
    }
  }

  /** The demonstration run the draft performs after `qq` ends its command
      loop: a new basket with four ik, three iv, two dk and one db and 30 in
      cash, settled into whatever registers the session left (`cr`, `sr`).
      With positive prices it is one transaction, the amount due is the sum
      of the four extensions, stock rises by 4, 3, 2 and 1, and the basket is
      left empty. */
  lemma DemoSettlement(cat: Catalog, cr: CashRegister, sr: StockRegister)
    requires Keyed(cat) && "ik" in cat && "iv" in cat && "dk" in cat && "db" in cat
    requires cat["ik"].unitPrice > 0.0 && cat["iv"].unitPrice > 0.0
    requires cat["dk"].unitPrice > 0.0 && cat["db"].unitPrice > 0.0
    ensures var b := AddCash(AddItem(AddItem(AddItem(AddItem(Empty,
                       cat["ik"], 4), cat["iv"], 3), cat["dk"], 2), cat["db"], 1), 30.0);
            var due := Extension(4, cat["ik"]) + Extension(3, cat["iv"])
                     + Extension(2, cat["dk"]) + Extension(1, cat["db"]);
            var r := CloseTransaction(b, cat, cr, sr);
            && b.amountDue == due && b.itemCount == 10 && b.cashReceived == 30.0
            && r.cash.transactions == cr.transactions + 1
            && r.cash.cash == cr.cash + due && r.cash.revenue == cr.revenue + due
            && SoldQty(r.stock, "ik") == SoldQty(sr, "ik") + 4
            && SoldQty(r.stock, "iv") == SoldQty(sr, "iv") + 3
            && SoldQty(r.stock, "dk") == SoldQty(sr, "dk") + 2
            && SoldQty(r.stock, "db") == SoldQty(sr, "db") + 1
            && r.basket == Empty
  {
    var b1 := AddItem(Empty, cat["ik"], 4);
    var b2 := AddItem(b1, cat["iv"], 3);
    var b3 := AddItem(b2, cat["dk"], 2);
    var b4 := AddItem(b3, cat["db"], 1);
    assert b4.lines == map["ik" := 4, "iv" := 3, "dk" := 2, "db" := 1];
  }
}
