# mopos till engine, modelled in Dafny

This project models the transaction engine of *mopos* ("my own point of
sale"). mopos is a single-till ledger. It has four parts:

- **Basket.** The basket collects one customer's purchase: a signed quantity
  per product code (a negative line is a return), an item count, the amount
  due and the cash tendered.
- **Settlement.** On "next customer", the basket is booked into two running
  totals and then emptied. The **cash register** holds cash on hand,
  revenue and the transaction count. The **stock register** holds units sold
  and revenue per product code.
- **Command grammar.** Each input line is lower-cased and split on single
  spaces. Every piece is read as `[+|-|=][digits]code`. A missing operator
  means `+` and a missing quantity means 1. `eu` is an alias for cash and
  `c` for cents.
- **Whole-line commands.** `qq` quits, `rr` resets the basket and `nn`
  settles. They are checked before any piece is parsed.

`mopos.py` is the canonical version. `a.py` is an earlier draft with
different cash guards and a simpler dispatch. It is modelled as variants in
module `Draft`.

Amounts are exact decimals in the source. Only `+`, `-`, `×` and `/100` are
applied to them, so they are Dafny `real`s here. All operations are pure
functions over immutable datatypes:

| file | module | contents |
|---|---|---|
| products.dfy | `Products` | product descriptor, catalog, line extension |
| baskets.dfy | `Baskets` | basket, item and cash operations, the basket invariant |
| registers.dfy | `Registers` | cash and stock registers, booking of sold items |
| settlement.dfy | `Settlement` | closing a transaction |
| grammar.dfy | `Grammar` | lower-casing, splitting, matching one piece |
| dispatch.dfy | `Dispatch` | alias/default/lookup, one line, a session of lines |
| draft.dfy | `Draft` | the draft's cash guards and dispatch, and its demonstration run |
| wrappers.dfy | `Wrappers` | `Option` |

Basket lines are keyed by product code. Prices are read from the catalog
because the source keys lines by the catalog's product object. The
**basket invariant** `Baskets.Valid` has three parts:

- every line is a catalog product;
- the item count is Σ line quantities and the amount due is
  Σ quantity × unit price;
- the cash tendered is not negative.

The sums are taken over the map in any order: `Tally` picks an arbitrary key.

The item and settlement code of `a.py` (lines 64-75, 101-148, 178-184 and
218-226) has the same branches as `mopos.py`. The draft's `add_cash`
(lines 77-81) has the same guard. The model therefore uses one definition
for both, and the draft's dispatch calls those definitions.

In three places the code does something other than what a reader of the
operation names would expect, and the model follows the code:

- `set_item` on a line that is zero or negative does not make the line equal
  to the new quantity. The full removal is refused because its quantity is
  not positive, so the result is old + qty (`Baskets.SetItem`).
- Pieces that do not match the grammar are skipped without any report. Only
  unknown codes are reported.
- Revenue can go down. A basket of returns has a negative amount due, and
  settlement adds it to cash and revenue (`Settlement.ReturnLowersRevenue`).
  The transaction count never goes down.

## Model

| member | source | states |
|---|---|---|
| Baskets.AddItem | mopos.py:76-87 | a positive quantity raises the line (created if absent), the count by qty and the amount due by qty × unit price; other lines and cash unchanged; qty ≤ 0 changes nothing |
| Baskets.RemoveItem | mopos.py:114-141 | a positive quantity lowers the net line, the count and the amount due by qty in every case; the line disappears exactly when it held exactly qty, otherwise it stays (negative for an over-removal or an absent line); qty ≤ 0 changes nothing |
| Baskets.SetItem | mopos.py:143-148 | on an absent, zero or negative line it is exactly an add of qty; on a positive line the line ends at qty (absent when qty ≤ 0) with count and amount moved by the difference |
| Baskets.AddItemKeepsValid | mopos.py:76-87 | adding keeps count = Σ quantities and amount due = Σ quantity × price |
| Baskets.RemoveItemKeepsValid | mopos.py:114-141 | every removal case, returns and line deletion included, keeps the two sums |
| Baskets.SetItemKeepsValid | mopos.py:143-148 | set keeps the two sums |
| Baskets.TallyPick | mopos.py:78-79 | the line sums do not depend on the order in which lines are visited |
| Baskets.EmptyValid | mopos.py:29-37 | a fresh basket satisfies the invariant |
| Baskets.AddCash | mopos.py:89-93 | the basket changes exactly when the amount is positive, and then only the tendered cash grows by it |
| Baskets.RemoveCash | mopos.py:95-105 | the basket changes exactly when 0 < amount ≤ tendered, and then the tendered cash drops by it; it never goes negative |
| Baskets.SetCash | mopos.py:107-112 | a non-negative amount becomes the tendered cash; a negative one changes nothing |
| Baskets.CashRoundTrip | mopos.py:89-105 | remove undoes add of the same positive amount, and add undoes an accepted remove |
| Baskets.CashOpsKeepValid | mopos.py:89-112 | no cash operation can make the tendered cash negative or touch the lines |
| Registers.AddTransaction | mopos.py:192-194 | only the transaction count moves, by n |
| Registers.AddCashAndRevenue | mopos.py:196-200 | revenue grows by the amount and cash minus revenue is unchanged |
| Registers.RegisterSoldItem | mopos.py:237-245 | that code's quantity grows by qty and its revenue by qty × price, an absent code counting as 0; every other code is unchanged |
| Registers.SettlePeel | mopos.py:155-158 | booking all lines equals booking any one line first and then the rest, so the visiting order does not matter |
| Registers.RegisterLines | mopos.py:155-158 | the settlement loop, RegisterSoldItem over every line in turn, yields per code the old total plus the line quantity and extension |
| Settlement.CloseTransaction | mopos.py:150-161 | a non-zero amount due adds one transaction and the amount to cash and revenue, a zero amount due leaves the cash register alone; transactions never drop and cash − revenue is unchanged; every line, negative ones included, is booked in stock; the basket comes back empty |
| Settlement.CloseEmptyBasket | mopos.py:150-160 | settling a basket with no lines and nothing due changes neither register |
| Settlement.CloseBooksTheLines | mopos.py:150-158 | for a valid basket the revenue and the cash on hand booked in the cash register both grow by the sum of the line extensions booked per code in stock |
| Settlement.ReturnLowersRevenue | mopos.py:150-158 | for every product with a positive price and every qty > 0, settling a basket that only returns qty units of it counts a transaction and lowers revenue by the line's extension, and lowers the units and revenue sold for that code by qty and the extension |
| Grammar.Lower | mopos.py:319 | lower-casing keeps the length, maps each A..Z to its a..z partner, keeps every other character and leaves no A..Z |
| Grammar.LowerIdempotent | mopos.py:319 | lower-casing twice is lower-casing once, and an all-lower-case word such as a command word is left as it is |
| Grammar.Split | mopos.py:319 | splitting on single spaces gives at least one piece and no piece holds a space |
| Grammar.JoinSplit | mopos.py:319 | splitting on single spaces loses nothing: joining the pieces with single spaces gives the line back |
| Grammar.SplitIsSingle | mopos.py:319-326 | a line splits to the one word w exactly when it is w |
| Grammar.LeadingWs | mopos.py:310 | the leading `\s*` takes the longest whitespace prefix |
| Grammar.TrailingWs | mopos.py:310 | the trailing `\s*` takes the longest whitespace suffix |
| Grammar.Strip | mopos.py:310 | what `\s*` on both sides leaves starts and ends with a non-whitespace character, and is empty exactly when the piece is all whitespace |
| Grammar.DigitRun | mopos.py:310 | the quantity group takes the longest digit run |
| Grammar.ParseToken | mopos.py:310 | a match yields groups of the right shape (operator among + - =, digits, lower-case code) whose text is the stripped piece |
| Grammar.MatchCore | mopos.py:310 | a match of a stripped piece spells that piece |
| Grammar.MatchRender | mopos.py:310 | the groups are read back from the text they spell |
| Grammar.ParseRender | mopos.py:310 | every well-formed operator/digits/code piece, padded with any whitespace, is matched with exactly those groups |
| Dispatch.OpOf | mopos.py:343-344 | `-` is the only operator giving remove and `=` the only one giving set; anything else, the missing operator included, is add |
| Dispatch.Resolve | mopos.py:337-367 | `+` or no operator is add, `-` remove, `=` set; no digits mean 1 and digits mean their decimal value; after the `eu`/`c` alias the code is an item exactly when the catalog holds it, cash or cents exactly when it is `cash` or `cash_cent` and not in the catalog, and unknown (carrying the aliased code) exactly otherwise |
| Dispatch.AliasBeforeLookup | mopos.py:337-340 | `eu` means cash and `c` means cents even if the catalog lists `eu` or `c` |
| Dispatch.DefaultsAreAddOne | mopos.py:341-344 | for every code, `code` and `+1code` parse and make the same request |
| Dispatch.ApplyRequest | mopos.py:345-367 | for each of add, remove and set: an item request runs add_item, remove_item or set_item on that product with the quantity, a cash request add_cash, remove_cash or set_cash with the quantity, a cents request the same with a hundredth of it; an error is reported exactly for an unknown code, which leaves the basket alone |
| Dispatch.ApplyPiece | mopos.py:330-367 | a piece that does not match changes nothing and reports nothing; a matched piece is resolved and carried out; at most one report, naming a code the catalog does not hold |
| Dispatch.PieceDispatch | mopos.py:330-367 | every well-formed piece with any whitespace around it performs the operation its operator names on the item it names, with quantity 1 when none is written, or on the cash or cents; any other code is reported and leaves the basket alone |
| Dispatch.ApplyTokens | mopos.py:330-367 | a line reports at most one code per piece, only codes the catalog does not hold, and a line in which no piece matches changes nothing |
| Dispatch.UnknownCodeContinues | mopos.py:366-367 | an unknown code is reported and the rest of the line still runs |
| Dispatch.ApplyTokensAppend | mopos.py:330-367 | a line is processed piece by piece from left to right, with the reports in order |
| Dispatch.ApplyRequestKeepsValid | mopos.py:345-365 | every request keeps the basket invariant |
| Dispatch.ApplyTokensKeepsValid | mopos.py:330-367 | a whole line of pieces keeps the basket invariant |
| Dispatch.ProcessLine | mopos.py:317-367 | quitting leaves the till as it was and reports nothing; every reported code is one the catalog does not hold |
| Dispatch.Sentinels | mopos.py:319-328 | quit happens exactly when the lower-cased line is `qq`; a lower-cased `rr` empties the basket and `nn` settles, ahead of any catalog code; any other line leaves both registers alone |
| Dispatch.OrdinaryLine | mopos.py:329-367 | a line whose lower-cased form is not a command word is exactly its lower-cased pieces carried out left to right on the basket, reporting what they report, without quitting |
| Dispatch.ProcessLineKeepsInvariant | mopos.py:317-367 | every line keeps the basket invariant, never lowers the transaction count and never moves cash − revenue |
| Dispatch.Run | mopos.py:313-328 | over a session of lines up to the first quit, the same three facts hold |
| Draft.DraftRemoveCash | a.py:83-93 | the basket changes exactly when 0 < amount < tendered, so a positive tender can never be fully handed back |
| Draft.DraftSetCash | a.py:95-99 | only a positive amount becomes the tendered cash |
| Draft.RemoveCashGuards | a.py:83-93 | the draft's removal agrees with the final one except when all the tendered cash is asked back, which it refuses |
| Draft.SetCashGuards | a.py:95-99 | the draft's set agrees with the final one except at zero, which it refuses |
| Draft.DraftResolve | a.py:311-331 | operators and quantities as in the final version; after the `eu` alias the code is an item exactly when the catalog holds it, cash exactly when it is `cash` and not in the catalog, unknown exactly otherwise; there is no cents target, so `c` is an ordinary code |
| Draft.DraftApplyRequest | a.py:317-331 | for each of add, remove and set: an item request runs add_item, remove_item or set_item on that product, a cash request add_cash or the draft's remove_cash or set_cash with the whole quantity; an unknown code changes nothing |
| Draft.DraftApplyPiece | a.py:304-331 | a piece that does not match changes nothing; a matched piece is resolved and carried out |
| Draft.DraftPieceDispatch | a.py:304-331 | every well-formed piece with any whitespace around it performs the operation its operator names on the item it names, with quantity 1 when none is written, or on the cash; any other code leaves the basket alone |
| Draft.DraftApplyTokens | a.py:304-331 | a line in which no piece matches leaves the basket as it was |
| Draft.DraftApplyTokensCons | a.py:304-331 | a draft line is its first piece carried out, then the rest from where it left the basket |
| Draft.DraftApplyTokensAppend | a.py:304-331 | a draft line split at any point is its first part, then its second part from where the first left the basket |
| Draft.DraftSentinels | a.py:293-331 | at the line level, DraftProcessLine handles lower-cased `qq`, `rr` and `nn` as ProcessLine does, ahead of any piece; any other line runs its lower-cased pieces left to right and reports nothing |
| Draft.DraftProcessLine | a.py:293-331 | the draft collects no error reports; it only prints unknown codes, which is presentation |
| Draft.DraftApplyRequestKeepsValid | a.py:317-329 | every draft request keeps the basket invariant |
| Draft.DraftApplyTokensKeepsValid | a.py:304-331 | a whole line of draft pieces keeps the basket invariant |
| Draft.DraftProcessLineKeepsInvariant | a.py:293-331 | every draft line keeps the basket invariant, never lowers transactions and never moves cash − revenue |
| Draft.DemoSettlement | a.py:336-347 | the settlement the draft runs after `qq` ends its loop, on whatever registers the session left: ik×4, iv×3, dk×2, db×1 with 30 tendered settle as one transaction booking the sum of the extensions; stock rises by 4, 3, 2 and 1; the basket ends empty |

## Left out

- Persistence: the pickle `save_data` and `pickle.load` calls (mopos.py:202-203, 247-248, 286-307) are file I/O. Settlement returns the new registers, and writing them is outside the model.
- Configuration: YAML loading and argparse (mopos.py:256-285, 376-379) are not modelled. The duplicate-code and string-price checks become the assumption that the catalog is a map, with `Products.Keyed` requiring each entry to be filed under its own code.
- Presentation: every `show` and `show_one_line` method, `clear_the_screen`, the prints, the error-message text and the `ROUND_DOWN` display rounding. Errors are modelled as the list of unknown codes of a line, in order.
- The currency code and the storage location fields are only used for display and storage, so they are dropped. For the same reason the reset passing the currency into the wrong constructor parameter (mopos.py:325) and the settlement dropping the configured currency (mopos.py:160) both reduce to "the basket becomes empty".
- The `input()` loop itself: `Dispatch.Run` folds `ProcessLine` over a given list of lines.
- The insertion order of basket lines is not modelled. It only affects display; the registers do not depend on it (`Registers.SettlePeel`).
- Decimal arithmetic: the 28-digit context precision is not modelled. Amounts are exact reals, so `D(n)/100` is exactly n/100.
- Unicode: `lower()` is modelled for ASCII letters only, and `\d` for ASCII digits only. `\s` is the set of characters for which Python's `str.isspace` holds.
- Dispatch.Resolve: a piece whose operator is not one of `+ - =` cannot occur, because the grammar excludes it. `Resolve` therefore requires a well-formed match rather than modelling the no-op fall-through for such an operator.
- After `qq` the draft goes on to the demonstration settlement (a.py:336-347) and saves the registers, while the final version just stops. `Dispatch.Run` models the final version's session. The draft's settlement is stated on its own by `Draft.DemoSettlement` for any registers, and no draft session function chains the two.
- Draft.DemoSettlement: assumes the four catalog prices are positive, so that the amount due is non-zero. The draft's configuration file is not part of this model.
