/** One input line of the till: the whole-line commands (quit, reset,
    next customer), and otherwise every piece of the line turned into an add,
    remove or set on a catalog item or on the tendered cash. */
module Dispatch {
  import opened Wrappers
  import opened Products
  import opened Baskets
  import opened Registers
  import opened Settlement
  import opened Grammar

  datatype Op = Add | Remove | Set

  /** What a piece acts on after the alias and catalog lookup. */
  datatype Target = Item(product: Product) | Cash | Cents | Unknown(code: string)

  datatype Request = Request(op: Op, quantity: nat, target: Target)

  /** `eu` stands for whole cash units and `c` for cents. */
  function Alias(code: string): (a: string)
  {
    if code == "eu" then "cash" else if code == "c" then "cash_cent" else code
  }

  /** A missing operator means add. */
  function OpOf(op: string): (o: Op)
    ensures o == Remove <==> op == "-"
    ensures o == Set <==> op == "="
  {
    if op == "-" then Remove else if op == "=" then Set else Add
  }

  /** A missing quantity means 1. */
  function QuantityOf(digits: string): (q: nat)
    requires AllDigits(digits)
  {
    if digits == "" then 1 else DigitsValue(digits)
  }

  /** Applies the alias, the defaults and the lookup to a matched piece. The
      catalog is consulted first, with the aliased code, before the two cash
      pseudo-codes; whatever is left is an unknown code. */
  function Resolve(cat: Catalog, raw: RawToken): (req: Request)
    requires WellFormed(raw)
    ensures raw.op == "" || raw.op == "+" ==> req.op == Add
    ensures raw.op == "-" ==> req.op == Remove
    ensures raw.op == "=" ==> req.op == Set
    ensures raw.digits == "" ==> req.quantity == 1
    ensures raw.digits != "" ==> req.quantity == DigitsValue(raw.digits)
    ensures req.target.Item? <==> Alias(raw.code) in cat
    ensures req.target.Item? ==> req.target.product == cat[Alias(raw.code)]
    ensures req.target.Cash? <==> Alias(raw.code) == "cash" && "cash" !in cat
    ensures req.target.Cents? <==> Alias(raw.code) == "cash_cent" && "cash_cent" !in cat
    ensures req.target.Unknown? <==>
      Alias(raw.code) !in cat && Alias(raw.code) != "cash" && Alias(raw.code) != "cash_cent"
    ensures req.target.Unknown? ==> req.target.code == Alias(raw.code)
  {
    var code := Alias(raw.code);
    var target :=
      if code in cat then Item(cat[code])
      else if code == "cash_cent" then Cents
      else if code == "cash" then Cash
      else Unknown(code);
    Request(OpOf(raw.op), QuantityOf(raw.digits), target)
  }

  /** The basket after one request, and the unknown code it reports if any. */
  datatype Applied = Applied(basket: Basket, errors: seq<string>)

  function CashOp(b: Basket, op: Op, amount: real): (r: Basket)
  {
    match op
    case Add => AddCash(b, amount)
    case Remove => RemoveCash(b, amount)
    case Set => SetCash(b, amount)
  }

  function ItemOp(b: Basket, op: Op, p: Product, qty: int): (r: Basket)
  {
    match op
    case Add => AddItem(b, p, qty)
    case Remove => RemoveItem(b, p, qty)
    case Set => SetItem(b, p, qty)
  }

  /** Carries out one request: the operator picks the basket operation, an
      item request acts on that product's line, a cash request on the
      tendered cash in whole units, a cents request in hundredths; an unknown
      code leaves the basket alone and is reported. */
  function ApplyRequest(b: Basket, req: Request): (r: Applied)
    ensures req.target.Unknown? <==> r.errors != []
    ensures req.target.Unknown? ==> r == Applied(b, [req.target.code])
    ensures req.target.Item? && req.op == Add ==>
      r == Applied(AddItem(b, req.target.product, req.quantity), [])
    ensures req.target.Item? && req.op == Remove ==>
      r == Applied(RemoveItem(b, req.target.product, req.quantity), [])
    ensures req.target.Item? && req.op == Set ==>
      r == Applied(SetItem(b, req.target.product, req.quantity), [])
    ensures req.target.Cash? && req.op == Add ==> r == Applied(AddCash(b, req.quantity as real), [])
    ensures req.target.Cash? && req.op == Remove ==> r == Applied(RemoveCash(b, req.quantity as real), [])
    ensures req.target.Cash? && req.op == Set ==> r == Applied(SetCash(b, req.quantity as real), [])
    ensures req.target.Cents? && req.op == Add ==>
      r == Applied(AddCash(b, req.quantity as real / 100.0), [])
    ensures req.target.Cents? && req.op == Remove ==>
      r == Applied(RemoveCash(b, req.quantity as real / 100.0), [])
    ensures req.target.Cents? && req.op == Set ==>
      r == Applied(SetCash(b, req.quantity as real / 100.0), [])
    ensures !req.target.Item? ==>
      r.basket.lines == b.lines && r.basket.itemCount == b.itemCount && r.basket.amountDue == b.amountDue
    ensures req.target.Item? ==> r.basket.cashReceived == b.cashReceived
  {
    match req.target
    case Item(p) => Applied(ItemOp(b, req.op, p, req.quantity), [])
    case Cents => Applied(CashOp(b, req.op, req.quantity as real / 100.0), [])
    case Cash => Applied(CashOp(b, req.op, req.quantity as real), [])
    case Unknown(c) => Applied(b, [c])
  }

  /** One piece of a line: skipped when it does not match, otherwise
      resolved and carried out. Whatever it reports is one code the catalog
      does not hold. */
  function ApplyPiece(cat: Catalog, b: Basket, piece: string): (r: Applied)
    ensures ParseToken(piece).None? ==> r == Applied(b, [])
    ensures ParseToken(piece).Some? ==> r == ApplyRequest(b, Resolve(cat, ParseToken(piece).value))
    ensures |r.errors| <= 1
    ensures forall i :: 0 <= i < |r.errors| ==> r.errors[i] !in cat
  {
    match ParseToken(piece)
    case None => Applied(b, [])
    case Some(raw) => ApplyRequest(b, Resolve(cat, raw))
  }

  /** What a well-formed piece, with any surrounding whitespace, does: an
      item code runs the operator's basket operation with the quantity (1
      when absent) on that product; a code that is neither an item nor a
      cash code is reported and changes nothing. */
  lemma PieceDispatch(cat: Catalog, b: Basket, pre: string, raw: RawToken, post: string)
    requires AllWs(pre) && AllWs(post) && WellFormed(raw)
    ensures var r := ApplyPiece(cat, b, pre + Render(raw) + post);
            var code := Alias(raw.code);
            var q := QuantityOf(raw.digits);
            && (code in cat && (raw.op == "" || raw.op == "+") ==> r == Applied(AddItem(b, cat[code], q), []))
            && (code in cat && raw.op == "-" ==> r == Applied(RemoveItem(b, cat[code], q), []))
            && (code in cat && raw.op == "=" ==> r == Applied(SetItem(b, cat[code], q), []))
            && (code == "cash" && code !in cat ==> r.basket == CashOp(b, OpOf(raw.op), q as real) && r.errors == [])
            && (code == "cash_cent" && code !in cat ==>
                  r.basket == CashOp(b, OpOf(raw.op), q as real / 100.0) && r.errors == [])
            && (code !in cat && code != "cash" && code != "cash_cent" ==> r == Applied(b, [code]))
  {
    var piece := pre + Render(raw) + post;
    assert ApplyPiece(cat, b, piece) == ApplyRequest(b, Resolve(cat, raw)) by {
      ParseRender(pre, raw, post);
    }
  }

  /** Processes the pieces of a line left to right. A piece that does not
      match is skipped; an unknown code is reported and the rest of the line
      still runs. There is at most one report per piece, and every report is
      a code the catalog does not hold. */
  function ApplyTokens(cat: Catalog, b: Basket, tokens: seq<string>): (r: Applied)
    ensures |r.errors| <= |tokens|
    ensures forall i :: 0 <= i < |r.errors| ==> r.errors[i] !in cat
    ensures (forall i :: 0 <= i < |tokens| ==> ParseToken(tokens[i]).None?) ==> r == Applied(b, [])
    decreases |tokens|
  {
    if |tokens| == 0 then Applied(b, [])
    else
      var first := ApplyPiece(cat, b, tokens[0]);
      var rest := ApplyTokens(cat, first.basket, tokens[1..]);
      Applied(rest.basket, first.errors + rest.errors)
  }

  /** One step of ApplyTokens: the first piece, then the rest of the line
      from where it left the basket. */
  lemma ApplyTokensCons(cat: Catalog, b: Basket, tokens: seq<string>)
    requires |tokens| > 0
    ensures var first := ApplyPiece(cat, b, tokens[0]);
            var rest := ApplyTokens(cat, first.basket, tokens[1..]);
            ApplyTokens(cat, b, tokens) == Applied(rest.basket, first.errors + rest.errors)
  {
  }

  /** Processing a line in two parts is processing the first part and then
      the second from where the first left the basket, with the reports in
      order. */
  lemma {:induction false} ApplyTokensAppend(cat: Catalog, b: Basket, t1: seq<string>, t2: seq<string>)
    ensures var a1 := ApplyTokens(cat, b, t1);
            var a2 := ApplyTokens(cat, a1.basket, t2);
            ApplyTokens(cat, b, t1 + t2) == Applied(a2.basket, a1.errors + a2.errors)
    decreases |t1|
  {
    if |t1| == 0 {
      HeadTailAppend(t1, t2);
    } else {
      var first := ApplyPiece(cat, b, t1[0]);
      var a1 := ApplyTokens(cat, first.basket, t1[1..]);
      var a2 := ApplyTokens(cat, a1.basket, t2);
      assert ApplyTokens(cat, b, t1) == Applied(a1.basket, first.errors + a1.errors) by {
        ApplyTokensCons(cat, b, t1);
      }
      assert ApplyTokens(cat, b, t1 + t2) == Applied(a2.basket, first.errors + (a1.errors + a2.errors)) by {
        HeadTailAppend(t1, t2);
        ApplyTokensCons(cat, b, t1 + t2);
        ApplyTokensAppend(cat, first.basket, t1[1..], t2);
      }
      AppendAssoc(first.errors, a1.errors, a2.errors);
    }
  }

  lemma AppendAssoc(x: seq<string>, y: seq<string>, z: seq<string>)
    ensures x + (y + z) == (x + y) + z
  {
  }

  lemma HeadTailAppend(t1: seq<string>, t2: seq<string>)
    ensures |t1| == 0 ==> t1 + t2 == t2
    ensures |t1| > 0 ==> (t1 + t2)[0] == t1[0] && (t1 + t2)[1..] == t1[1..] + t2
  {
  }

  /** Every request keeps the basket invariant. */
  lemma ApplyRequestKeepsValid(cat: Catalog, b: Basket, req: Request)
    requires Valid(b, cat)
    requires req.target.Item? ==> req.target.product.code in cat && cat[req.target.product.code] == req.target.product
    ensures Valid(ApplyRequest(b, req).basket, cat)
  {
    match req.target
    case Item(p) => {
      match req.op
      case Add => AddItemKeepsValid(b, cat, p, req.quantity);
      case Remove => RemoveItemKeepsValid(b, cat, p, req.quantity);
      case Set => SetItemKeepsValid(b, cat, p, req.quantity);
    }
    case Cents => CashOpsKeepValid(b, cat, req.quantity as real / 100.0);
    case Cash => CashOpsKeepValid(b, cat, req.quantity as real);
    case Unknown(c) =>
  }

  lemma {:induction false} ApplyTokensKeepsValid(cat: Catalog, b: Basket, tokens: seq<string>)
    requires Keyed(cat) && Valid(b, cat)
    ensures Valid(ApplyTokens(cat, b, tokens).basket, cat)
    decreases |tokens|
  {
    if |tokens| > 0 {
      var first := ApplyPiece(cat, b, tokens[0]);
      match ParseToken(tokens[0]) {
        case None =>
        case Some(raw) => ApplyRequestKeepsValid(cat, b, Resolve(cat, raw));
      }
      ApplyTokensKeepsValid(cat, first.basket, tokens[1..]);
    }
  }

  // ---------------------------------------------------------------------
  // Whole lines
  // ---------------------------------------------------------------------

  /** The state the command loop threads from line to line. */
  datatype Till = Till(basket: Basket, cash: CashRegister, stock: StockRegister)

  /** The state after a line, whether the loop stops, and the unknown codes
      reported for the line. */
  datatype Step = Step(till: Till, quit: bool, errors: seq<string>)

  /** One line of input. The line is lower-cased and split on single spaces;
      the whole-line commands `qq` (quit), `rr` (reset the basket) and `nn`
      (settle, next customer) are recognised before any piece is parsed. */
  function ProcessLine(cat: Catalog, t: Till, line: string): (r: Step)
    requires t.basket.lines.Keys <= cat.Keys
    ensures r.quit ==> r.till == t && r.errors == []
    ensures forall i :: 0 <= i < |r.errors| ==> r.errors[i] !in cat
  {
    var words := Split(Lower(line));
    if words == ["qq"] then Step(t, true, [])
    else if words == ["rr"] then Step(t.(basket := Empty), false, [])
    else if words == ["nn"] then
      var s := CloseTransaction(t.basket, cat, t.cash, t.stock);
      Step(Till(s.basket, s.cash, s.stock), false, [])
    else
      var a := ApplyTokens(cat, t.basket, words);
      Step(t.(basket := a.basket), false, a.errors)
  }

  /** The whole-line commands take effect exactly when the lower-cased line
      is the command word, and take precedence over the catalog; any other
      line leaves both registers alone. */
  lemma Sentinels(cat: Catalog, t: Till, line: string)
    requires t.basket.lines.Keys <= cat.Keys
    ensures var r := ProcessLine(cat, t, line);
            && (r.quit <==> Lower(line) == "qq")
            && (Lower(line) == "qq" ==> r.till == t)
            && (Lower(line) == "rr" ==> r.till == t.(basket := Empty) && r.errors == [])
            && (Lower(line) == "nn" ==>
                  var s := CloseTransaction(t.basket, cat, t.cash, t.stock);
                  r.till == Till(Empty, s.cash, s.stock) && r.errors == [])
            && (Lower(line) !in {"qq", "rr", "nn"} ==>
                  r.till.cash == t.cash && r.till.stock == t.stock)
  {
    var s := Lower(line);
    SplitIsSingle(s, "qq");
    SplitIsSingle(s, "rr");
    SplitIsSingle(s, "nn");
  }

  /** Any other line is split into pieces, which are carried out left to
      right on the basket; the line reports exactly what its pieces report. */
  lemma OrdinaryLine(cat: Catalog, t: Till, line: string)
    requires t.basket.lines.Keys <= cat.Keys
    requires Lower(line) !in {"qq", "rr", "nn"}
    ensures var a := ApplyTokens(cat, t.basket, Split(Lower(line)));
            ProcessLine(cat, t, line) == Step(t.(basket := a.basket), false, a.errors)
  {
    var s := Lower(line);
    SplitIsSingle(s, "qq");
    SplitIsSingle(s, "rr");
    SplitIsSingle(s, "nn");
  }

  /** Every line keeps the basket invariant, never lowers the transaction
      count and never changes cash on hand minus revenue. */
  lemma ProcessLineKeepsInvariant(cat: Catalog, t: Till, line: string)
    requires Keyed(cat) && Valid(t.basket, cat)
    ensures var r := ProcessLine(cat, t, line);
            && Valid(r.till.basket, cat)
            && r.till.cash.transactions >= t.cash.transactions
            && r.till.cash.cash - r.till.cash.revenue == t.cash.cash - t.cash.revenue
  {
    var words := Split(Lower(line));
    if words != ["qq"] && words != ["rr"] && words != ["nn"] {
      ApplyTokensKeepsValid(cat, t.basket, words);
    }
  }

  /** The command loop over a script of lines: each line in turn, stopping
      after the first quit. Over a whole session the basket invariant holds,
      the transaction count never drops and cash minus revenue never moves. */
  function Run(cat: Catalog, t: Till, lines: seq<string>): (r: Till)
    requires Keyed(cat) && Valid(t.basket, cat)
    ensures Valid(r.basket, cat)
    ensures r.cash.transactions >= t.cash.transactions
    ensures r.cash.cash - r.cash.revenue == t.cash.cash - t.cash.revenue
    decreases |lines|
  {
    if |lines| == 0 then t
    else
      ProcessLineKeepsInvariant(cat, t, lines[0]);
      var s := ProcessLine(cat, t, lines[0]);
      if s.quit then s.till else Run(cat, s.till, lines[1..])
  }

  /** Leaving out the operator and the quantity is the same as writing `+1`:
      `ik` and `+1ik` make the same request, for every code. */
  lemma DefaultsAreAddOne(cat: Catalog, code: string)
    requires |code| > 0 && AllLower(code)
    ensures ParseToken(code) == Some(RawToken("", "", code))
    ensures ParseToken("+1" + code) == Some(RawToken("+", "1", code))
    ensures Resolve(cat, RawToken("", "", code)) == Resolve(cat, RawToken("+", "1", code))
  {
    ParseBare(code);
    ParsePlusOne(code);
    ResolvePlusOne(cat, code);
  }

  lemma ResolvePlusOne(cat: Catalog, code: string)
    requires |code| > 0 && AllLower(code)
    ensures Resolve(cat, RawToken("", "", code)) == Resolve(cat, RawToken("+", "1", code))
  {
    assert OpOf("+") == Add;
    assert QuantityOf("1") == 1 by {
      assert "1"[..0] == "";
    }
  }

  lemma ParseBare(code: string)
    requires |code| > 0 && AllLower(code)
    ensures ParseToken(code) == Some(RawToken("", "", code))
  {
    var bare := RawToken("", "", code);
    assert "" + Render(bare) + "" == code;
    ParseRender("", bare, "");
  }

  lemma ParsePlusOne(code: string)
    requires |code| > 0 && AllLower(code)
    ensures ParseToken("+1" + code) == Some(RawToken("+", "1", code))
  {
    var full := RawToken("+", "1", code);
    assert AllDigits("1");
    assert WellFormed(full);
    assert "" + Render(full) + "" == "+1" + code;
    ParseRender("", full, "");
  }

  /** `eu` is cash and `c` is cents even when the catalog lists `eu` or `c`:
      the alias is applied before the lookup. */
  lemma AliasBeforeLookup(cat: Catalog, raw: RawToken)
    requires WellFormed(raw)
    ensures raw.code == "eu" && "cash" !in cat ==> Resolve(cat, raw).target == Cash
    ensures raw.code == "c" && "cash_cent" !in cat ==> Resolve(cat, raw).target == Cents
  {
  }

  /** An unknown code in the middle of a line is reported and the pieces
      after it still take effect. */
  lemma UnknownCodeContinues(cat: Catalog, b: Basket, bad: RawToken, rest: seq<string>)
    requires WellFormed(bad)
    requires Alias(bad.code) !in cat && Alias(bad.code) != "cash" && Alias(bad.code) != "cash_cent"
    ensures var a := ApplyTokens(cat, b, rest);
            ApplyTokens(cat, b, [Render(bad)] + rest) == Applied(a.basket, [Alias(bad.code)] + a.errors)
  {
    assert "" + Render(bad) + "" == Render(bad);
    PieceDispatch(cat, b, "", bad, "");
    HeadTailAppend([Render(bad)], rest);
    ApplyTokensCons(cat, b, [Render(bad)] + rest);
  }
}
