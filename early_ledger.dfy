/** The share table of the two first command-line versions, 18sh.js and
    index.js: a plain object `owner -> company -> count` that `buy` and
    `sell` grow and change in place. Both files carry the same two
    functions; they are stated once here. */
module EarlyLedger {
  import opened Js

  /** `gameState.sharesOwned`: owner -> company -> count. A count is a
      JavaScript number and turns NaN when `parseInt(count)` is NaN. */
  type Holdings = map<string, map<string, Num>>

  /** The abbreviations both versions accept for the two trades. */
  const BuyWords: set<string> := {"b", "bu", "buy", "buys"}
  const SellWords: set<string> := {"s", "se", "sell", "sells"}

  /** Whether `sharesOwned[owner][company]` exists. */
  predicate Has(s: Holdings, owner: string, company: string) {
    owner in s && company in s[owner]
  }

  /** `sharesOwned[owner]`, or the empty row put in its place. */
  function RowOf(s: Holdings, owner: string): map<string, Num> {
    if owner in s then s[owner] else map[]
  }

  /** The count a trade starts from: `if (!count) count = 0` turns a
      missing entry, 0 and NaN into 0. */
  function Start(s: Holdings, owner: string, company: string): (h: int)
    ensures Has(s, owner, company) && s[owner][company].Int? ==> h == s[owner][company].n
    ensures !(Has(s, owner, company) && s[owner][company].Int?) ==> h == 0
  {
    var row := RowOf(s, owner);
    if company in row && Truthy(JNum(row[company])) then row[company].n else 0
  }

  /** `sharesOwned[owner][company] = v`, creating the row if needed. */
  function Put(s: Holdings, owner: string, company: string, v: Num): Holdings {
    s[owner := RowOf(s, owner)[company := v]]
  }

  /** `Put` writes its one entry, creates at most the owner's row, and
      leaves every other entry as it was. */
  lemma PutFrame(s: Holdings, owner: string, company: string, v: Num)
    ensures var r := Put(s, owner, company, v);
      Has(r, owner, company) && r[owner][company] == v
      && r.Keys == s.Keys + {owner}
      && forall p, c :: p != owner || c != company ==>
        (Has(r, p, c) <==> Has(s, p, c)) && (Has(s, p, c) ==> r[p][c] == s[p][c])
  {
  }

  /** The new count of a purchase of `n` read by `parseInt` (`parsed`):
      `count += parseInt(n)`, with no bound, and NaN when `n` does not read. */
  function BuyCount(h: int, parsed: Num): (r: Num)
    ensures parsed.Int? ==> r == Int(h + parsed.n)
    ensures parsed.NaN? ==> r == NaN
  {
    Add(Int(h), parsed)
  }

  /** The new count of a sale of `n`, given its two readings: the guard
      `count < n` reads `n` with `Number` (`number`), the subtraction with
      `parseInt` (`parsed`). When the guard holds, `n` becomes the count
      itself, which `parseInt` gives back unchanged, and the result is 0. */
  function SellCount(h: int, number: Num, parsed: Num): (r: Num)
    ensures Less(Int(h), number) ==> r == Int(0)
    ensures !Less(Int(h), number) ==> r == Sub(Int(h), parsed)
  {
    Sub(Int(h), if Less(Int(h), number) then Int(h) else parsed)
  }

  /** `buy(buyer, company, n)`: both names upper-cased. */
  function Bought(s: Holdings, buyer: string, company: string, n: JsVal): Holdings {
    var b := ToUpper(buyer);
    var o := ToUpper(company);
    Put(s, b, o, BuyCount(Start(s, b, o), ParseIntVal(n)))
  }

  /** `sell(seller, company, n)`: both names upper-cased. */
  function Sold(s: Holdings, seller: string, company: string, n: JsVal): Holdings {
    var b := ToUpper(seller);
    var o := ToUpper(company);
    Put(s, b, o, SellCount(Start(s, b, o), ToNumber(n), ParseIntVal(n)))
  }

  /** `if (!row[company]) row[company] = 0` puts the start count in the
      owner's row, and the write that follows hides the default. */
  lemma TradeStep(s: Holdings, owner: string, company: string, found: map<string, Num>, row: map<string, Num>, held: Num)
    requires found == RowOf(s, owner)
    requires row == if !(company in found && Truthy(JNum(found[company]))) then found[company := Int(0)] else found
    ensures company in row && row[company] == Int(Start(s, owner, company))
    ensures s[owner := row[company := held]] == Put(s, owner, company, held)
  {
    assert row[company := held] == found[company := held];
  }

  /** The sale as `sell` computes it: `n` replaced by the count when the
      guard holds, then `count - parseInt(n)`. */
  lemma SellHeld(h: int, count: JsVal, n: JsVal)
    requires n == if Less(Int(h), ToNumber(count)) then JNum(Int(h)) else count
    ensures Sub(Int(h), ParseIntVal(n)) == SellCount(h, ToNumber(count), ParseIntVal(count))
  {
    if Less(Int(h), ToNumber(count)) {
      ParseIntOfNumber(Int(h));
    }
  }

  // ------------------------------------------------------------------ lemmas

  /** A count whose `Number` and `parseInt` readings agree (a plain decimal
      text, or the default 1). */
  predicate Plain(n: JsVal) {
    ToNumber(n).Int? && ParseIntVal(n) == ToNumber(n)
  }

  /** A purchase adds `parseInt(n)` to the start count and touches nothing
      else. */
  lemma BuyAdds(s: Holdings, buyer: string, company: string, n: JsVal)
    ensures var r := Bought(s, buyer, company, n);
      var b := ToUpper(buyer); var o := ToUpper(company);
      Has(r, b, o) && r[b][o] == Add(Int(Start(s, b, o)), ParseIntVal(n))
      && forall p, c :: p != b || c != o ==> (Has(r, p, c) <==> Has(s, p, c)) && (Has(s, p, c) ==> r[p][c] == s[p][c])
  {
    var b := ToUpper(buyer);
    var o := ToUpper(company);
    PutFrame(s, b, o, BuyCount(Start(s, b, o), ParseIntVal(n)));
  }

  /** A sale of a plain count `k` leaves `count - k`, or 0 when the count
      is smaller: never below 0 when the count was not negative. */
  lemma SellClamps(s: Holdings, seller: string, company: string, n: JsVal)
    requires Plain(n)
    ensures var r := Sold(s, seller, company, n);
      var b := ToUpper(seller); var o := ToUpper(company);
      var h := Start(s, b, o); var k := ToNumber(n).n;
      Has(r, b, o) && r[b][o] == Int(if h < k then 0 else h - k)
      && (h >= 0 && k >= 0 ==> r[b][o].n >= 0)
  {
    var b := ToUpper(seller);
    var o := ToUpper(company);
    var h := Start(s, b, o);
    var k := ToNumber(n).n;
    var v := SellCount(h, ToNumber(n), ParseIntVal(n));
    assert v == Int(if h < k then 0 else h - k) by {
      assert ToNumber(n) == Int(k) && ParseIntVal(n) == Int(k);
    }
    PutFrame(s, b, o, v);
  }

  /** A sale touches no other entry, whatever the count. */
  lemma SellFrame(s: Holdings, seller: string, company: string, n: JsVal)
    ensures var r := Sold(s, seller, company, n);
      var b := ToUpper(seller); var o := ToUpper(company);
      r.Keys == s.Keys + {b}
      && forall p, c :: p != b || c != o ==> (Has(r, p, c) <==> Has(s, p, c)) && (Has(s, p, c) ==> r[p][c] == s[p][c])
  {
    var b := ToUpper(seller);
    var o := ToUpper(company);
    PutFrame(s, b, o, SellCount(Start(s, b, o), ToNumber(n), ParseIntVal(n)));
  }

  /** Selling what was just bought restores the start count. */
  lemma BuyThenSell(s: Holdings, owner: string, company: string, n: JsVal)
    requires Plain(n) && ToNumber(n).n >= 0 && Start(s, ToUpper(owner), ToUpper(company)) >= 0
    ensures var r := Sold(Bought(s, owner, company, n), owner, company, n);
      var b := ToUpper(owner); var o := ToUpper(company);
      r[b][o] == Int(Start(s, b, o))
  {
    var b := ToUpper(owner);
    var o := ToUpper(company);
    var k := ToNumber(n).n;
    BuyAddsPlain(s, owner, company, n);
    SellClamps(Bought(s, owner, company, n), owner, company, n);
  }

  /** After buying a plain count the next trade starts from the sum. */
  lemma BuyAddsPlain(s: Holdings, owner: string, company: string, n: JsVal)
    requires Plain(n)
    ensures var b := ToUpper(owner); var o := ToUpper(company);
      Start(Bought(s, owner, company, n), b, o) == Start(s, b, o) + ToNumber(n).n
  {
    var b := ToUpper(owner);
    var o := ToUpper(company);
    StartAfterPut(s, b, o, BuyCount(Start(s, b, o), ParseIntVal(n)));
  }

  /** A written whole count is the next trade's start count. */
  lemma StartAfterPut(s: Holdings, owner: string, company: string, v: Num)
    requires v.Int?
    ensures Start(Put(s, owner, company, v), owner, company) == v.n
  {
  }

  /** The two readings of a count disagree on `5x`: `Number` gives NaN, so
      the guard fails, while `parseInt` gives 5, so a holding of 2 sold
      `5x` ends at -3. */
  lemma SuffixedCountOversells()
    ensures var s := map["A" := map["X" := Int(2)]];
      Sold(s, "A", "X", JStr("5x"))["A"]["X"] == Int(-3)
  {
    var s := map["A" := map["X" := Int(2)]];
    SuffixedFive();
    assert ToUpper("A") == "A" && ToUpper("X") == "X";
    assert Start(s, "A", "X") == 2;
  }

  lemma SuffixedFive()
    ensures ToNumber(JStr("5x")) == NaN && ParseIntVal(JStr("5x")) == Int(5)
  {
    SuffixedNumber();
    SuffixedParse();
  }

  lemma SuffixedNumber()
    ensures ToNumber(JStr("5x")) == NaN
  {
    SuffixedTrimmed();
    SuffixedNotDigits();
  }

  lemma SuffixedTrimmed()
    ensures TrimStart("5x") == "5x" && TrimEnd("5x") == "5x"
  {
    var t := "5x";
    assert t[0] == '5' && t[|t| - 1] == 'x';
    TrimStartNone(t);
    TrimEndNone(t);
  }

  lemma SuffixedNotDigits()
    ensures !HasRadixPrefix("5x") && !AllDigits("5x", 10)
  {
    var t := "5x";
    assert !IsDigit(t[1], 10);
  }

  lemma SuffixedParse()
    ensures ParseIntVal(JStr("5x")) == Int(5)
  {
    var t := "5x";
    assert TrimStart(t) == t;
    assert DigitPrefix(t[1..], 10) == [] by { assert !IsDigit(t[1], 10); }
    assert DigitPrefix(t, 10) == "5";
    assert DigitsValue("5", 10) == 5;
  }
}
