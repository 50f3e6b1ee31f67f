/** modules/gameState.js: the module-level `gameState` record (shares, cash,
    company values, bank size) and the operations that update it in place.
    The `Ledger` datatype is a snapshot of the record; each operation is
    specified by a function on snapshots, and the `Game` methods are proved
    to perform exactly that function. */
module GameState {
  import opened Js
  import opened Dicts
  import opened Shares
  import opened CommandHistory

  /** The parts of `gameState` that commands change. */
  datatype Ledger = Ledger(
    sharesOwned: Table,
    cash: Dict<Num>,
    values: Dict<JsVal>,
    bankSize: Option<int>)

  ghost predicate ValidLedger(l: Ledger) {
    ValidTable(l.sharesOwned) && l.cash.Valid() && l.values.Valid()
  }

  /** The state `resetGameState` leaves. */
  function EmptyLedger(): (l: Ledger)
    ensures ValidLedger(l)
  {
    Ledger(Empty(), Empty(), Empty(), None)
  }

  // ------------------------------------------------------------- changeCash

  /** The balance `changeCash` adds to: the stored one, or 0 when there is
      none or it is NaN. */
  function Base(cash: Dict<Num>, player: string): int {
    if player in cash.m && cash.m[player].Int? then cash.m[player].n else 0
  }

  /** `changeCash(player, sum)`. */
  function CashAfter(cash: Dict<Num>, player: string, sum: Num): (r: Dict<Num>)
    requires cash.Valid()
    ensures r.Valid()
    ensures player in r.m && r.m[player] == Add(Int(Base(cash, player)), sum)
    ensures forall p :: p != player ==> (p in r.m <==> p in cash.m) && (p in cash.m ==> r.m[p] == cash.m[p])
    ensures r.keys == if player in cash.m then cash.keys else cash.keys + [player]
  {
    var balance := if player !in cash.m || cash.m[player].NaN? then Int(0) else cash.m[player];
    // `parseInt(sum)` gives a number back unchanged (`ParseIntOfNumber`)
    cash.Put(player, Add(balance, sum))
  }

  // ---------------------------------------------------------- _getBankRemains

  /** The `reduce` summing the balances of `players`. */
  function CashSum(cash: Dict<Num>, players: seq<string>): Num
    requires forall p :: p in players ==> p in cash.m
  {
    if players == [] then Int(0)
    else Add(CashSum(cash, players[..|players| - 1]), cash.m[players[|players| - 1]])
  }

  function CashTotal(cash: Dict<Num>): Num
    requires cash.Valid()
  {
    CashSum(cash, cash.keys)
  }

  /** `_getBankRemains()`: the bank size less all cash (a null bank size
      counts as 0). */
  function BankRemains(l: Ledger): Num
    requires ValidLedger(l)
  {
    Sub(Int(if l.bankSize.Some? then l.bankSize.value else 0), CashTotal(l.cash))
  }

  ghost predicate AllNumeric(cash: Dict<Num>) {
    forall p :: p in cash.m ==> cash.m[p].Int?
  }

  /** Two cash tables that agree on `players` except at `p` sum to totals
      differing by the change at `p`. */
  lemma {:induction false} CashSumChange(a: Dict<Num>, b: Dict<Num>, players: seq<string>, p: string)
    requires Distinct(players)
    requires forall q :: q in players ==> q in a.m && q in b.m && a.m[q].Int? && b.m[q].Int?
    requires forall q :: q in players && q != p ==> a.m[q] == b.m[q]
    ensures CashSum(a, players).Int? && CashSum(b, players).Int?
    ensures CashSum(b, players).n == CashSum(a, players).n + (if p in players then b.m[p].n - a.m[p].n else 0)
    decreases |players|
  {
    if players != [] {
      var init := players[..|players| - 1];
      var last := players[|players| - 1];
      assert players == init + [last];
      assert Distinct(init);
      CashSumChange(a, b, init, p);
      if last == p {
        assert p !in init;
      }
    }
  }

  /** While every balance is a number, `changeCash(p, x)` adds exactly `x`
      to the players' total. */
  lemma CashTotalAfter(cash: Dict<Num>, player: string, x: int)
    requires cash.Valid() && AllNumeric(cash)
    ensures CashTotal(cash).Int? && CashTotal(CashAfter(cash, player, Int(x))).Int?
    ensures CashTotal(CashAfter(cash, player, Int(x))).n == CashTotal(cash).n + x
  {
    var r := CashAfter(cash, player, Int(x));
    if player in cash.m {
      CashSumChange(cash, r, cash.keys, player);
    } else {
      CashSumChange(cash, r, cash.keys, player);
      assert r.keys[..|r.keys| - 1] == cash.keys;
      assert CashSum(r, r.keys) == Add(CashSum(r, cash.keys), r.m[player]);
    }
  }

  /** Cash given to a player leaves the bank: while every balance is a
      number, `changeCash(p, x)` lowers `_getBankRemains()` by exactly `x`. */
  lemma ChangeCashLeavesBank(l: Ledger, player: string, x: int)
    requires ValidLedger(l) && AllNumeric(l.cash)
    ensures BankRemains(l).Int?
    ensures BankRemains(l.(cash := CashAfter(l.cash, player, Int(x)))) == Int(BankRemains(l).n - x)
  {
    CashTotalAfter(l.cash, player, x);
    BankAfterPayment(l, CashAfter(l.cash, player, Int(x)));
  }

  // ------------------------------------------------------------ payDividends

  /** The per-share amount `payDividends` pays: a text starting with "PR"
      is replaced by the previous dividend of the company; anything that is
      not a number then pays 0. */
  function DividendRate(value: JsVal, history: seq<string>, company: string): int {
    var v := if value.JStr? && |value.s| >= 2 && value.s[..2] == "PR" then PreviousDividend(history, company) else value;
    var x := ToNumber(v);
    if x.NaN? then 0 else x.n
  }

  /** `changeCash(player, owners[player] * rate)` for each owner in order. */
  function Pay(cash: Dict<Num>, players: seq<string>, owners: Dict<int>, rate: int): (r: Dict<Num>)
    requires cash.Valid() && forall p :: p in players ==> p in owners.m
    ensures r.Valid()
    decreases |players|
  {
    if players == [] then cash
    else Pay(CashAfter(cash, players[0], Int(owners.m[players[0]] * rate)), players[1..], owners, rate)
  }

  /** Each listed player is credited its count times the rate, once; every
      other balance is untouched. */
  lemma {:induction false} PayCredits(cash: Dict<Num>, players: seq<string>, owners: Dict<int>, rate: int, p: string)
    requires cash.Valid() && Distinct(players) && forall q :: q in players ==> q in owners.m
    ensures p in players ==>
      p in Pay(cash, players, owners, rate).m &&
      Pay(cash, players, owners, rate).m[p] == Add(Int(Base(cash, p)), Int(owners.m[p] * rate))
    ensures p !in players ==>
      (p in Pay(cash, players, owners, rate).m <==> p in cash.m) &&
      (p in cash.m ==> Pay(cash, players, owners, rate).m[p] == cash.m[p])
    decreases |players|
  {
    if players != [] {
      var p0, rest := players[0], players[1..];
      var next := CashAfter(cash, p0, Int(owners.m[p0] * rate));
      assert Pay(cash, players, owners, rate) == Pay(next, rest, owners, rate);
      assert Distinct(rest);
      PayCredits(next, rest, owners, rate, p);
      if p == p0 {
        assert p0 !in rest;
      } else {
        assert Base(next, p) == Base(cash, p);
      }
    }
  }

  /** One step of `Pay` taken off the front of `players[i..]`. */
  lemma PayUnfold(cash: Dict<Num>, players: seq<string>, i: nat, owners: Dict<int>, rate: int)
    requires cash.Valid() && i < |players| && forall p :: p in players ==> p in owners.m
    ensures Pay(cash, players[i..], owners, rate) ==
      Pay(CashAfter(cash, players[i], Int(owners.m[players[i]] * rate)), players[i + 1..], owners, rate)
  {
    assert players[i..][1..] == players[i + 1..];
  }

  /** The balances after `payDividends` pays `rate` a share of `company`. */
  function DividendCash(s: Table, cash: Dict<Num>, company: string, rate: int): (r: Dict<Num>)
    requires ValidTable(s) && cash.Valid()
    ensures r.Valid()
  {
    OwnersAreHoldings(s, company);
    var owners := Owners(s, company);
    Pay(cash, owners.keys, owners, rate)
  }

  /** `payDividends(company, value)`: every owner of a row, holder or not,
      gets `holding * rate` added to (and so a cash entry created). */
  function PaidDividends(l: Ledger, company: string, rate: int): (r: Ledger)
    requires ValidLedger(l)
    ensures ValidLedger(r)
  {
    l.(cash := DividendCash(l.sharesOwned, l.cash, company, rate))
  }

  /** What a dividend does to each balance. */
  lemma PayDividendsCredits(l: Ledger, company: string, rate: int)
    requires ValidLedger(l)
    ensures var r := PaidDividends(l, company, rate);
      r.sharesOwned == l.sharesOwned && r.values == l.values && r.bankSize == l.bankSize &&
      (forall p :: p in l.sharesOwned.m ==>
        p in r.cash.m && r.cash.m[p] == Add(Int(Base(l.cash, p)), Int(Holding(l.sharesOwned, p, company) * rate))) &&
      (forall p :: p !in l.sharesOwned.m ==>
        (p in r.cash.m <==> p in l.cash.m) && (p in l.cash.m ==> r.cash.m[p] == l.cash.m[p]))
  {
    OwnersAreHoldings(l.sharesOwned, company);
    var owners := Owners(l.sharesOwned, company);
    var r := PaidDividends(l, company, rate);
    forall p | true
      ensures p in l.sharesOwned.m ==>
        p in r.cash.m && r.cash.m[p] == Add(Int(Base(l.cash, p)), Int(Holding(l.sharesOwned, p, company) * rate))
      ensures p !in l.sharesOwned.m ==>
        (p in r.cash.m <==> p in l.cash.m) && (p in l.cash.m ==> r.cash.m[p] == l.cash.m[p])
    {
      PayCredits(l.cash, owners.keys, owners, rate, p);
    }
  }

  /** Σ `Holding(s, p, company)` over `players`: the shares of `company`
      that a dividend pays on. */
  function SharesHeld(s: Table, company: string, players: seq<string>): int {
    if players == [] then 0 else Holding(s, players[0], company) + SharesHeld(s, company, players[1..])
  }

  /** Σ `owners[p]` over `players`. */
  function Held(owners: Dict<int>, players: seq<string>): int
    requires forall p :: p in players ==> p in owners.m
  {
    if players == [] then 0 else owners.m[players[0]] + Held(owners, players[1..])
  }

  /** Over the owners of a company, `Held` counts the shares of it. */
  lemma {:induction false} HeldIsSharesHeld(owners: Dict<int>, players: seq<string>, s: Table, company: string)
    requires forall p :: p in players ==> p in owners.m && owners.m[p] == Holding(s, p, company)
    ensures Held(owners, players) == SharesHeld(s, company, players)
    decreases |players|
  {
    if players != [] {
      HeldIsSharesHeld(owners, players[1..], s, company);
    }
  }

  /** Paying `rate` a share moves `rate` times the shares counted from the
      bank to the players. */
  lemma {:induction false} PayTotal(cash: Dict<Num>, players: seq<string>, owners: Dict<int>, rate: int)
    requires cash.Valid() && AllNumeric(cash) && forall p :: p in players ==> p in owners.m
    ensures AllNumeric(Pay(cash, players, owners, rate))
    ensures CashTotal(cash).Int? && CashTotal(Pay(cash, players, owners, rate)).Int?
    ensures CashTotal(Pay(cash, players, owners, rate)).n == CashTotal(cash).n + rate * Held(owners, players)
    decreases |players|
  {
    if players == [] {
      CashSumChange(cash, cash, cash.keys, "");
    } else {
      var p0 := players[0];
      var x := owners.m[p0] * rate;
      var next := CashAfter(cash, p0, Int(x));
      assert Pay(cash, players, owners, rate) == Pay(next, players[1..], owners, rate);
      CashTotalAfter(cash, p0, x);
      CashAfterNumeric(cash, p0, x);
      PayTotal(next, players[1..], owners, rate);
      Distribute(rate, owners.m[p0], Held(owners, players[1..]), Held(owners, players));
    }
  }

  lemma Distribute(a: int, b: int, c: int, h: int)
    requires h == b + c
    ensures a * h == b * a + a * c
  {
  }

  lemma CashAfterNumeric(cash: Dict<Num>, player: string, x: int)
    requires cash.Valid() && AllNumeric(cash)
    ensures AllNumeric(CashAfter(cash, player, Int(x)))
  {
  }

  /** A dividend takes `rate × (shares held)` out of the bank, while every
      balance is a number. */
  lemma DividendsLeaveBank(l: Ledger, company: string, rate: int)
    requires ValidLedger(l) && AllNumeric(l.cash)
    ensures BankRemains(l).Int?
    ensures BankRemains(PaidDividends(l, company, rate)) ==
      Int(BankRemains(l).n - rate * SharesHeld(l.sharesOwned, company, l.sharesOwned.keys))
  {
    DividendTotal(l.sharesOwned, l.cash, company, rate);
    BankAfterPayment(l, DividendCash(l.sharesOwned, l.cash, company, rate));
  }

  /** A dividend adds `rate × (shares held)` to the players' total. */
  lemma DividendTotal(s: Table, cash: Dict<Num>, company: string, rate: int)
    requires ValidTable(s) && cash.Valid() && AllNumeric(cash)
    ensures CashTotal(cash).Int? && CashTotal(DividendCash(s, cash, company, rate)).Int?
    ensures CashTotal(DividendCash(s, cash, company, rate)).n == CashTotal(cash).n + rate * SharesHeld(s, company, s.keys)
  {
    OwnersPayable(s, company);
    var owners := Owners(s, company);
    PayTotal(cash, owners.keys, owners, rate);
    HeldIsSharesHeld(owners, owners.keys, s, company);
  }

  /** What `PayTotal` needs of the owner table. */
  lemma OwnersPayable(s: Table, company: string)
    requires ValidTable(s)
    ensures Owners(s, company).keys == s.keys
    ensures forall p :: p in s.keys ==> p in Owners(s, company).m && Owners(s, company).m[p] == Holding(s, p, company)
  {
    OwnersAreHoldings(s, company);
  }

  /** The bank's remainder moves opposite to the players' total. */
  lemma BankAfterPayment(l: Ledger, cash: Dict<Num>)
    requires ValidLedger(l) && cash.Valid() && CashTotal(l.cash).Int? && CashTotal(cash).Int?
    ensures BankRemains(l).Int?
    ensures BankRemains(l.(cash := cash)) == Int(BankRemains(l).n - (CashTotal(cash).n - CashTotal(l.cash).n))
  {
  }

  /** A numeric amount pays the same whatever the log holds. */
  lemma NumericRateIgnoresHistory(x: Num, h1: seq<string>, h2: seq<string>, company: string)
    ensures DividendRate(JNum(x), h1, company) == DividendRate(JNum(x), h2, company)
    ensures DividendRate(JNum(x), h1, company) == if x.Int? then x.n else 0
  {
  }

  /** `PREV` repeats the last logged amount of that company. */
  lemma PrevRepeatsLastDividend(history: seq<string>, company: string, amount: nat)
    requires |history| > 0 && history[|history| - 1] == DividendPrefix(company) + NatToString(amount)
    ensures DividendRate(JStr("PREV"), history, company) == amount
  {
    var last := history[|history| - 1];
    var prefix := DividendPrefix(company);
    assert StartsWith(last, prefix) && last[|prefix|..] == NatToString(amount);
    assert "PREV"[..2] == "PR";
    NatToStringNumber(amount);
  }

  /** A logged comment makes the previous amount unreadable: it pays 0. */
  lemma PrevWithCommentPaysNothing(history: seq<string>, company: string, amount: nat, note: string)
    requires |history| > 0 && history[|history| - 1] == DividendPrefix(company) + NatToString(amount) + " # " + note
    ensures DividendRate(JStr("PREV"), history, company) == 0
  {
    var last := history[|history| - 1];
    var prefix := DividendPrefix(company);
    var rest := NatToString(amount) + " # " + note;
    assert last == prefix + rest;
    assert StartsWith(last, prefix) && last[|prefix|..] == rest;
    assert "PREV"[..2] == "PR";
    DigitsThenCommentIsNaN(NatToString(amount), note);
  }

  // ---------------------------------------------------------- values and bank

  /** `setValue(company, value)`: refused (and nothing stored) when `value`
      is not a number. */
  function ValueAfter(values: Dict<JsVal>, company: string, value: JsVal): (r: (Dict<JsVal>, bool))
    requires values.Valid()
    ensures r.0.Valid()
    ensures !r.1 <==> ToNumber(value).NaN?
    ensures !r.1 ==> r.0 == values
    ensures r.1 ==> company in r.0.m && r.0.m[company] == value
    ensures r.1 ==> forall c :: c != company ==> (c in r.0.m <==> c in values.m) && (c in values.m ==> r.0.m[c] == values.m[c])
  {
    if ToNumber(value).NaN? then (values, false) else (values.Put(company, value), true)
  }

  /** What `_getValue` returns: one entry, or the whole table for a falsy name. */
  datatype Read<T> = One(value: T) | Whole

  /** `_getValue(company)`: an unknown or falsy entry is first set to 0. */
  function ReadValue(values: Dict<JsVal>, company: string): (r: (Dict<JsVal>, Read<JsVal>))
    requires values.Valid()
    ensures r.0.Valid()
    ensures company == "" ==> r == (values, Whole)
    ensures company != "" && company in values.m && Truthy(values.m[company]) ==> r == (values, One(values.m[company]))
    ensures company != "" && !(company in values.m && Truthy(values.m[company])) ==>
      r.1 == One(JNum(Int(0))) && company in r.0.m && r.0.m[company] == JNum(Int(0)) &&
      forall c :: c != company ==> (c in r.0.m <==> c in values.m) && (c in values.m ==> r.0.m[c] == values.m[c])
  {
    if company == "" then (values, Whole)
    else if company !in values.m || !Truthy(values.m[company]) then
      var v := values.Put(company, JNum(Int(0)));
      (v, One(v.m[company]))
    else (values, One(values.m[company]))
  }

  /** The number `holding * _getValue(company)` multiplies by: the stored
      value, 0 for a falsy one, and 0 for the whole (index-free) table. */
  function ValueNum(values: Dict<JsVal>, company: string): Num {
    if company != "" && company in values.m && Truthy(values.m[company]) then ToNumber(values.m[company]) else Int(0)
  }

  /** The default `_getValue` writes never changes what any company is worth. */
  lemma GetValueKeepsWorth(values: Dict<JsVal>, company: string, c: string)
    requires values.Valid()
    ensures ValueNum(ReadValue(values, company).0, c) == ValueNum(values, c)
    ensures ReadValue(values, company).1.One? ==> ToNumber(ReadValue(values, company).1.value) == ValueNum(values, company)
  {
  }

  /** `setBankSize(size)`: only a numeric size is stored. */
  function BankSizeAfter(bankSize: Option<int>, size: Num): (r: Option<int>)
    ensures size.Int? ==> r == Some(size.n)
    ensures size.NaN? ==> r == bankSize
  {
    // `parseInt(size)` gives a number back unchanged (`ParseIntOfNumber`)
    if size.Int? then Some(size.n) else bankSize
  }

  // ------------------------------------------------------ _calculatePlayerValue

  /** The `reduce` over a player's companies: `value + holding * _getValue(c)`. */
  function Worth(acc: Num, companies: seq<string>, row: Dict<int>, values: Dict<JsVal>): Num
    requires forall c :: c in companies ==> c in row.m
    decreases |companies|
  {
    if companies == [] then acc
    else Worth(Add(acc, Mul(Int(row.m[companies[0]]), ValueNum(values, companies[0]))), companies[1..], row, values)
  }

  /** The defaults `_getValue` writes while the `reduce` reads `companies`. */
  function Defaults(values: Dict<JsVal>, companies: seq<string>): (r: Dict<JsVal>)
    requires values.Valid()
    ensures r.Valid()
    decreases |companies|
  {
    if companies == [] then values else Defaults(ReadValue(values, companies[0]).0, companies[1..])
  }

  /** `_getCash(player)` for a named player: the balance when truthy, else 0. */
  function CashOf(cash: Dict<Num>, player: string): Num {
    if player in cash.m && Truthy(JNum(cash.m[player])) then cash.m[player] else Int(0)
  }

  /** `_calculatePlayerValue(player)`: cash plus, for each company of the
      player's row, holding times value. */
  function PlayerWorth(l: Ledger, player: string): Num
    requires ValidLedger(l)
  {
    if player in l.sharesOwned.m then
      var row := l.sharesOwned.m[player];
      Worth(CashOf(l.cash, player), row.keys, row, l.values)
    else CashOf(l.cash, player)
  }

  /** A player's worth is a sum: with numbers throughout, it is the cash
      plus `holding * value` summed over the row. */
  lemma {:induction false} WorthIsSum(acc: int, companies: seq<string>, row: Dict<int>, values: Dict<JsVal>)
    requires forall c :: c in companies ==> c in row.m && ValueNum(values, c).Int?
    ensures Worth(Int(acc), companies, row, values) == Int(acc + HoldingsValue(companies, row, values))
    decreases |companies|
  {
    if companies != [] {
      WorthIsSum(acc + row.m[companies[0]] * ValueNum(values, companies[0]).n, companies[1..], row, values);
    }
  }

  /** Σ holding × value over `companies`, when every value is a number. */
  function HoldingsValue(companies: seq<string>, row: Dict<int>, values: Dict<JsVal>): int
    requires forall c :: c in companies ==> c in row.m && ValueNum(values, c).Int?
  {
    if companies == [] then 0
    else row.m[companies[0]] * ValueNum(values, companies[0]).n + HoldingsValue(companies[1..], row, values)
  }

  /** One company of the `reduce` taken off the front, with the defaults
      `_getValue` wrote for it in place. */
  lemma WorthStep(acc: Num, companies: seq<string>, j: nat, row: Dict<int>, before: Dict<JsVal>, after: Dict<JsVal>)
    requires before.Valid() && j < |companies| && forall c :: c in companies ==> c in row.m
    requires after == ReadValue(before, companies[j]).0
    ensures forall d :: ValueNum(after, d) == ValueNum(before, d)
    ensures Defaults(before, companies[j..]) == Defaults(after, companies[j + 1..])
    ensures Worth(acc, companies[j..], row, before) ==
      Worth(Add(acc, Mul(Int(row.m[companies[j]]), ValueNum(before, companies[j]))), companies[j + 1..], row, after)
  {
    assert companies[j..][1..] == companies[j + 1..];
    forall d
      ensures ValueNum(after, d) == ValueNum(before, d)
    {
      GetValueKeepsWorth(before, companies[j], d);
    }
    WorthFrame(Add(acc, Mul(Int(row.m[companies[j]]), ValueNum(before, companies[j]))), companies[j + 1..], row, before, after);
  }

  lemma {:induction false} WorthFrame(acc: Num, companies: seq<string>, row: Dict<int>, v1: Dict<JsVal>, v2: Dict<JsVal>)
    requires forall c :: c in companies ==> c in row.m && ValueNum(v1, c) == ValueNum(v2, c)
    ensures Worth(acc, companies, row, v1) == Worth(acc, companies, row, v2)
    decreases |companies|
  {
    if companies != [] {
      WorthFrame(Add(acc, Mul(Int(row.m[companies[0]]), ValueNum(v1, companies[0]))), companies[1..], row, v1, v2);
    }
  }

  // ------------------------------------------------------------- _getPlayers

  /** `players[name]` is truthy: `name` is an array index inside the array
      and the slot there holds a non-empty name. */
  predicate Occupies(players: seq<string>, name: string) {
    var k := ArrayIndex(name);
    k.Some? && k.value < |players| && players[k.value] != ""
  }

  /** The names `_getPlayers` pushes onto `players`, visiting `names` in
      order and skipping a name while `players[name]` is truthy. */
  function Gathered(players: seq<string>, names: seq<string>): seq<string>
    decreases |names|
  {
    if names == [] then players
    else Gathered(if Occupies(players, names[0]) then players else players + [names[0]], names[1..])
  }

  /** Gathering keeps what was there, adds only visited names, and adds
      every visited name that is not an array index. */
  lemma {:induction false} GatheredNames(players: seq<string>, names: seq<string>)
    ensures players <= Gathered(players, names)
    ensures forall n :: n in Gathered(players, names) ==> n in players || n in names
    ensures forall n :: n in names && ArrayIndex(n).None? ==> n in Gathered(players, names)
    decreases |names|
  {
    if names != [] {
      var next := if Occupies(players, names[0]) then players else players + [names[0]];
      GatheredNames(next, names[1..]);
      forall n | n in names && ArrayIndex(n).None?
        ensures n in Gathered(players, names)
      {
        if n != names[0] {
          assert n in names[1..];
        } else {
          assert n in next;
        }
      }
    }
  }

  /** Names that are not array indices are all kept, duplicates included,
      in the order visited. */
  lemma {:induction false} GatheredOrdinaryNames(players: seq<string>, names: seq<string>)
    requires forall i :: 0 <= i < |names| ==> ArrayIndex(names[i]).None?
    ensures Gathered(players, names) == players + names
    decreases |names|
  {
    if names != [] {
      GatheredOrdinaryNames(players + [names[0]], names[1..]);
      assert players + [names[0]] + names[1..] == players + names;
    }
  }

  /** A player named `1` after two others finds slot 1 taken and is left
      out; a name seen twice as slot 0 is kept once. */
  lemma IndexNamesDropped()
    ensures Gathered([], ["A", "B", "1"]) == ["A", "B"]
    ensures Gathered([], ["0", "0"]) == ["0"]
  {
    assert !IsDigit('A', 10) && !IsDigit('B', 10);
    assert ArrayIndex("A").None? && ArrayIndex("B").None?;
    assert DigitsValue("1", 10) == 1 && DigitsValue("0", 10) == 0;
    assert Occupies(["A", "B"], "1") && Occupies(["0"], "0");
    assert Gathered([], ["A", "B", "1"]) == Gathered(["A"], ["B", "1"]) == Gathered(["A", "B"], ["1"]);
  }

  // --------------------------------------------------------------- the record

  /** The module-level `gameState` record, with the session store it saves to. */
  class Game {
    var gameName: string
    var sharesOwned: Table
    var cash: Dict<Num>
    var values: Dict<JsVal>
    var bankSize: Option<int>
    const store: Store

    function Snapshot(): Ledger
      reads this
    {
      Ledger(sharesOwned, cash, values, bankSize)
    }

    ghost predicate Valid()
      reads this
    {
      ValidLedger(Snapshot())
    }

    constructor (store: Store)
      ensures Valid() && Snapshot() == EmptyLedger() && gameName == "" && this.store == store
    {
      gameName := "";
      sharesOwned := Empty();
      cash := Empty();
      values := Empty();
      bankSize := None;
      this.store := store;
    }

    /** `setCommandHistory(history)`. */
    method SetCommandHistory(history: seq<string>)
      modifies store
      ensures store.games == old(store.games)[gameName := history]
    {
      store.SaveCommandHistory(history, gameName);
    }

    /** `getCommandHistory()`. */
    method GetCommandHistory() returns (history: seq<string>)
      ensures history == store.History(gameName)
    {
      history := store.GetCommandHistory(gameName);
    }

    /** `addToHistory(command)`. */
    method AddToHistory(command: string)
      modifies store
      ensures store.games == old(store.games)[gameName := old(store.History(gameName)) + [command]]
    {
      store.AddCommandToHistory(command, gameName);
    }

    /** `changeSharesOwned(actor, company, quantity)`. */
    method ChangeSharesOwned(actor: string, company: string, quantity: Num) returns (feedback: string)
      requires ValidTable(sharesOwned)
      modifies this`sharesOwned
      ensures ValidTable(sharesOwned)
      ensures sharesOwned == Change(old(sharesOwned), actor, company, quantity).0
      ensures feedback == Render(actor, company, Change(old(sharesOwned), actor, company, quantity).1)
    {
      var r := Change(sharesOwned, actor, company, quantity);
      sharesOwned := r.0;
      feedback := Render(actor, company, r.1);
    }

    /** `changeCash(player, sum)`. */
    method ChangeCash(player: string, sum: Num)
      requires cash.Valid()
      modifies this`cash
      ensures cash == CashAfter(old(cash), player, sum)
    {
      ghost var before := cash;
      if player !in cash.m || cash.m[player].NaN? {
        cash := cash.Put(player, Int(0));
      }
      var parsed := ParseIntNumber(sum);
      cash := cash.Put(player, Add(cash.m[player], parsed));
      if player !in before.m || before.m[player].NaN? {
        before.PutPut(player, Int(0), Add(Int(0), sum));
      }
    }

    /** The opening lines of `payDividends`: the "PR…" lookup, then NaN
        read as 0. */
    method PerShare(payingCompany: string, value: JsVal) returns (rate: int)
      ensures rate == DividendRate(value, store.History(gameName), payingCompany)
    {
      var v := value;
      if v.JStr? && |v.s| >= 2 && v.s[..2] == "PR" {
        v := store.GetPreviousDividend(payingCompany, gameName);
      }
      var perShare := ToNumber(v);
      if perShare.NaN? {
        perShare := Int(0);
      }
      rate := perShare.n;
    }

    /** `payDividends(payingCompany, value)`. */
    method PayDividends(payingCompany: string, value: JsVal)
      requires Valid()
      modifies this`cash
      ensures cash == DividendCash(sharesOwned, old(cash), payingCompany, DividendRate(value, store.History(gameName), payingCompany))
    {
      var rate := PerShare(payingCompany, value);
      OwnersAreHoldings(sharesOwned, payingCompany);
      var owners := Owners(sharesOwned, payingCompany);
      PayOwners(owners, rate);
    }

    /** The loop of `payDividends`: `changeCash(owner, ownersList[owner] * value)`
        for each owner in order. */
    method PayOwners(owners: Dict<int>, rate: int)
      requires cash.Valid() && owners.Valid()
      modifies this`cash
      ensures cash == Pay(old(cash), owners.keys, owners, rate)
    {
      var players := owners.keys;
      ghost var paid := Pay(cash, players, owners, rate);
      var i := 0;
      while i < |players|
        invariant 0 <= i <= |players| && cash.Valid()
        invariant Pay(cash, players[i..], owners, rate) == paid
      {
        var moneyEarned := Int(owners.m[players[i]] * rate);
        PayUnfold(cash, players, i, owners, rate);
        ChangeCash(players[i], moneyEarned);
        assert Pay(cash, players[i + 1..], owners, rate) == paid;
        i := i + 1;
      }
      assert players[i..] == [];
    }

    /** `setValue(company, value)`; `accepted` is false where the source
        returns "Value is not a number!". */
    method SetValue(company: string, value: JsVal) returns (accepted: bool)
      requires values.Valid()
      modifies this`values
      ensures values == ValueAfter(old(values), company, value).0
      ensures accepted == ValueAfter(old(values), company, value).1
    {
      if ToNumber(value).NaN? {
        return false;
      }
      values := values.Put(company, value);
      accepted := true;
    }

    /** `_getValue(company)`. */
    method GetValue(company: string) returns (value: Read<JsVal>)
      requires values.Valid()
      modifies this`values
      ensures values == ReadValue(old(values), company).0
      ensures value == ReadValue(old(values), company).1
    {
      var r := ReadValue(values, company);
      values := r.0;
      value := r.1;
    }

    /** `_calculatePlayerValue(player)`; the `_getValue` calls it makes leave
        their defaults behind. */
    method CalculatePlayerValue(player: string) returns (playerValue: Num)
      requires Valid() && player != ""
      modifies this`values
      ensures playerValue == PlayerWorth(old(Snapshot()), player)
      ensures values == if player in sharesOwned.m then Defaults(old(values), sharesOwned.m[player].keys) else old(values)
    {
      playerValue := CashOf(cash, player);
      if player in sharesOwned.m {
        var row := sharesOwned.m[player];
        var companies := row.keys;
        var j := 0;
        while j < |companies|
          invariant 0 <= j <= |companies| && values.Valid()
          invariant Defaults(values, companies[j..]) == Defaults(old(values), companies)
          invariant forall c :: ValueNum(values, c) == ValueNum(old(values), c)
          invariant Worth(playerValue, companies[j..], row, values) == PlayerWorth(old(Snapshot()), player)
        {
          var c := companies[j];
          var before := values;
          var read := GetValue(c);
          GetValueKeepsWorth(before, c, c);
          WorthStep(playerValue, companies, j, row, before, values);
          var companyValue := Mul(Int(row.m[c]), if read.One? then ToNumber(read.value) else Int(0));
          playerValue := Add(playerValue, companyValue);
          j := j + 1;
        }
        assert companies[j..] == [];
      }
    }

    /** `_getPlayers()`: the cash keys, then the share-owner keys, each
        pushed unless `players[name]` is truthy, which happens only for a
        name that is an occupied array index. */
    method GetPlayers() returns (players: seq<string>)
      ensures players == Gathered([], cash.keys + sharesOwned.keys)
    {
      ghost var names := cash.keys + sharesOwned.keys;
      players := [];
      var i := 0;
      while i < |cash.keys|
        invariant 0 <= i <= |cash.keys|
        invariant Gathered(players, cash.keys[i..] + sharesOwned.keys) == Gathered([], names)
      {
        assert cash.keys[i..] + sharesOwned.keys == [cash.keys[i]] + (cash.keys[i + 1..] + sharesOwned.keys);
        if !Occupies(players, cash.keys[i]) {
          players := players + [cash.keys[i]];
        }
        i := i + 1;
      }
      assert cash.keys[i..] + sharesOwned.keys == sharesOwned.keys[0..];
      var j := 0;
      while j < |sharesOwned.keys|
        invariant 0 <= j <= |sharesOwned.keys|
        invariant Gathered(players, sharesOwned.keys[j..]) == Gathered([], names)
      {
        assert sharesOwned.keys[j..] == [sharesOwned.keys[j]] + sharesOwned.keys[j + 1..];
        if !Occupies(players, sharesOwned.keys[j]) {
          players := players + [sharesOwned.keys[j]];
        }
        j := j + 1;
      }
    }

    /** `_getAllCompanies()`: every row's keys pushed in order, then
        `Array.from(new Set(...))`. */
    method GetAllCompanies() returns (allCompanies: seq<string>)
      requires Valid()
      ensures allCompanies == AllCompanies(sharesOwned)
    {
      var pushed := [];
      var owners := sharesOwned.keys;
      var i := 0;
      while i < |owners|
        invariant 0 <= i <= |owners|
        invariant pushed == CompanyKeys(sharesOwned, owners[..i])
      {
        var row := sharesOwned.m[owners[i]];
        var j := 0;
        while j < |row.keys|
          invariant 0 <= j <= |row.keys|
          invariant pushed == CompanyKeys(sharesOwned, owners[..i]) + row.keys[..j]
        {
          pushed := pushed + [row.keys[j]];
          assert row.keys[..j + 1] == row.keys[..j] + [row.keys[j]];
          j := j + 1;
        }
        assert row.keys[..j] == row.keys;
        CompanyKeysAppend(sharesOwned, owners[..i], owners[i]);
        assert owners[..i + 1] == owners[..i] + [owners[i]];
        i := i + 1;
      }
      assert owners[..i] == owners;
      allCompanies := Dedup(pushed);
    }

    /** `setBankSize(size)`. */
    method SetBankSize(size: Num)
      modifies this`bankSize
      ensures bankSize == BankSizeAfter(old(bankSize), size)
    {
      var parsed := ParseIntNumber(size);
      if parsed.Int? {
        bankSize := Some(parsed.n);
      }
    }

    /** `open(name)`: a stored game becomes the active one. */
    method Open(name: string) returns (found: bool)
      modifies this`gameName
      ensures found == (name in store.games)
      ensures gameName == if found then name else old(gameName)
    {
      found := name in store.games;
      if found {
        gameName := name;
      }
    }

    /** `deleteGame(name)`: a stored game is dropped; dropping the active
        one leaves no game active (a null name, here the empty one). */
    method DeleteGame(name: string) returns (deleted: bool)
      modifies this`gameName, store
      ensures deleted == (name in old(store.games))
      ensures store.games == old(store.games) - {name}
      ensures gameName == if deleted && old(gameName) == name then "" else old(gameName)
    {
      deleted := name in store.games;
      if deleted {
        store.DeleteGame(name);
        if gameName == name {
          gameName := "";
        }
      }
    }

    /** `newGame(name)`: refused for a stored name; otherwise the ledger is
        reset and the new name becomes the active one. */
    method NewGame(name: string) returns (created: bool)
      requires Valid()
      modifies this`gameName, this`sharesOwned, this`cash, this`values, this`bankSize
      ensures Valid()
      ensures created == (name !in store.games)
      ensures created ==> Snapshot() == EmptyLedger() && gameName == name
      ensures !created ==> Snapshot() == old(Snapshot()) && gameName == old(gameName)
    {
      created := name !in store.games;
      if created {
        ResetGameState();
        gameName := name;
      }
    }

    /** `resetGameState()`: the name is kept. */
    method ResetGameState()
      modifies this`sharesOwned, this`cash, this`values, this`bankSize
      ensures Valid() && Snapshot() == EmptyLedger()
      ensures gameName == old(gameName)
    {
      sharesOwned := Empty();
      cash := Empty();
      values := Empty();
      bankSize := None;
    }
  }

  /** The text `changeSharesOwned` of this module returns (it names no quantity). */
  function Render(actor: string, company: string, f: Feedback): string {
    match f
    case Silent => ""
    case SellingAll(had) => actor + " only has " + IntToString(had) + ", selling all.\n"
    case Bought(_, now) => actor + " buys " + company + " and now has " + IntToString(now) + ".\n"
    case Sold(_, now) => actor + " sells " + company + " and now has " + IntToString(now) + ".\n"
  }
}
