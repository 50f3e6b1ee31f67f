/** 18sh.js: the first interactive version. A command is split at single
    spaces and matched by its token count and verb abbreviation; `buy`,
    `sell`, `dividend` and `value` change the module-level `gameState` in
    place, and the raw input is appended to the game's list in Configstore
    only when `perform` reports it as such a command. `undo` pops that list
    and replays the rest silently. */
module Shell {
  import opened Js
  import opened EarlyLedger

  /** What Configstore holds under a key: a game's list of commands, or a
      text (the `currentGameName` entry). */
  datatype Stored = Lines(lines: seq<string>) | Text(s: string)

  /** The Configstore key of the active game's name. */
  const CurrentKey: string := "currentGameName"

  /** `gameState` without its name: shares, cash and company values. */
  datatype Ledger = Ledger(sharesOwned: Holdings, cash: map<string, Num>, values: map<string, string>)

  /** The program's state: `gameState` and the Configstore contents. */
  datatype World = World(gameName: string, ledger: Ledger, undid: Option<string>, conf: map<string, Stored>)

  /** What a command leaves: the new world, whether `perform` returned
      true, and whether a TypeError ended the program. */
  datatype Outcome = Outcome(world: World, logged: bool, thrown: bool)

  const DividendWords: set<string> :=
    {"d", "di", "div", "divi", "divid", "divide", "dividen", "dividend", "p", "pa", "pay", "pays"}
  const ValueWords: set<string> := {"v", "va", "val", "valu", "value"}
  const HoldingsWords: set<string> := {"h", "ho", "hol", "hold", "holdi", "holdin", "holding", "holdings"}
  const ValuesWords: set<string> := {"v", "va", "val", "valu", "value", "values"}
  const OpenWords: set<string> := {"o", "op", "ope", "open"}
  const QuitWords: set<string> := {"q", "qu", "qui", "quit", "e", "ex", "exi", "exit"}

  /** `resetGameState()`. */
  function EmptyLedger(): Ledger {
    Ledger(map[], map[], map[])
  }

  // ---------------------------------------------------------------- ledger

  /** The cash `dividend` adds to: `isNaN(cash)` (missing or NaN) counts as 0. */
  function CashBase(cash: map<string, Num>, owner: string): int {
    if owner in cash && cash[owner].Int? then cash[owner].n else 0
  }

  /** Whether `owner`'s row names the paying company. */
  predicate Pays(s: Holdings, company: string, owner: string) {
    owner in s && company in s[owner]
  }

  /** The cash after the owners in `owners` have been credited for
      `company` at `rate` (the value text coerced by `Number`); the rest is
      as it was. */
  function Credited(cash: map<string, Num>, s: Holdings, company: string, rate: Num, owners: set<string>): map<string, Num> {
    map p | p in cash.Keys + owners && (p in cash || Pays(s, company, p)) ::
      if p in owners && Pays(s, company, p) then Credit(cash, s, company, rate, p) else cash[p]
  }

  /** `cash[owner] += parseInt(moneyEarned)` with `moneyEarned = holding *
      value`, from the base above; `parseInt` gives a whole number back
      unchanged. */
  function Credit(cash: map<string, Num>, s: Holdings, company: string, rate: Num, owner: string): Num
    requires Pays(s, company, owner)
  {
    Add(Int(CashBase(cash, owner)), Mul(s[owner][company], rate))
  }

  /** `dividend(payingCompany, value)` over every owner. */
  function Dividend(l: Ledger, payingCompany: string, value: string): Ledger {
    l.(cash := Credited(l.cash, l.sharesOwned, ToUpper(payingCompany), ToNumber(JStr(value)), l.sharesOwned.Keys))
  }

  /** The cash after `if (!cash[owner]) cash[owner] = 0` for the owners in
      `owners`, the one change `holdings()` and `values()` make. */
  function Zeroed(cash: map<string, Num>, owners: set<string>): map<string, Num> {
    map p | p in cash.Keys + owners ::
      if p in owners && !(p in cash && Truthy(JNum(cash[p]))) then Int(0) else cash[p]
  }

  // -------------------------------------------------------------- commands

  /** The arguments of a command of three tokens or more. */
  datatype Args = Args(subject: string, verb: string, obj: string, count: JsVal)

  /** `count = parts[3] ? parts[3] : 1`; a count that `parseInt` cannot read
      trades places with an object it can. */
  function Arguments(parts: seq<string>): Args
    requires |parts| > 2
  {
    var count := if |parts| > 3 && parts[3] != "" then JStr(parts[3]) else JNum(Int(1));
    if ParseIntVal(count).NaN? && ParseInt(parts[2]).Some? then Args(parts[0], parts[1], ToString(count), JStr(parts[2]))
    else Args(parts[0], parts[1], parts[2], count)
  }

  /** The ledger case of `perform`: the new ledger and its return value. */
  function Step(l: Ledger, parts: seq<string>): (Ledger, bool)
    requires |parts| > 2
  {
    var a := Arguments(parts);
    if a.verb in BuyWords then (l.(sharesOwned := Bought(l.sharesOwned, a.subject, a.obj, a.count)), true)
    else if a.verb in SellWords then (l.(sharesOwned := Sold(l.sharesOwned, a.subject, a.obj, a.count)), true)
    else if a.verb in DividendWords then (Dividend(l, a.subject, a.obj), true)
    else if a.verb in ValueWords then (l.(values := l.values[ToUpper(a.subject) := a.obj]), true)
    else (l, false)
  }

  /** The commands `perform` reports: three tokens or more, and a verb it
      acts on. */
  predicate Accepted(command: string) {
    var parts := Split(command, ' ');
    |parts| > 2 && (parts[1] in BuyWords || parts[1] in SellWords || parts[1] in DividendWords || parts[1] in ValueWords)
  }

  predicate AllAccepted(lines: seq<string>) {
    forall i :: 0 <= i < |lines| ==> Accepted(lines[i])
  }

  /** Every stored list holds only commands `perform` reported; those are
      the only ones the program appends. */
  ghost predicate ValidConf(conf: map<string, Stored>) {
    forall k :: k in conf && conf[k].Lines? ==> AllAccepted(conf[k].lines)
  }

  /** The ledger the silent replay of `lines` builds from `l`. */
  function Replayed(l: Ledger, lines: seq<string>): Ledger
    requires AllAccepted(lines)
    decreases |lines|
  {
    if lines == [] then l else Replayed(Step(l, Split(lines[0], ' ')).0, lines[1..])
  }

  /** `updateGameState(commandHistory)`: reset, then replay; a text is not
      a list, and `map` on a non-empty one throws. */
  function Updated(w: World, history: Stored): (o: Outcome)
    requires history.Lines? ==> AllAccepted(history.lines)
  {
    var reset := w.(ledger := EmptyLedger());
    match history
    case Lines(lines) => Outcome(reset.(ledger := Replayed(EmptyLedger(), lines)), false, false)
    case Text(s) => Outcome(reset, false, s != "")
  }

  /** `open(name)`. */
  function Opened(w: World, name: string): (o: Outcome)
    requires ValidConf(w.conf)
  {
    if name !in w.conf then Outcome(w, false, false)
    else
      var u := Updated(w.(gameName := name), w.conf[name]);
      if u.thrown then u
      else Outcome(u.world.(conf := u.world.conf[CurrentKey := Text(name)]), false, false)
  }

  /** `deleteGame(name)`, with the answer to its yes/no question. */
  function Deleted(w: World, name: string, confirmed: bool): World {
    if name in w.conf && confirmed then w.(conf := w.conf - {name}) else w
  }

  /** `newGame(gameName)`. */
  function Started(w: World, name: string): World {
    if name in w.conf then w
    else w.(ledger := EmptyLedger(), gameName := name, conf := w.conf[CurrentKey := Text(name)])
  }

  /** `perform(command)`; `confirmed` answers the question `delete` asks. */
  function Performed(w: World, command: string, confirmed: bool): (o: Outcome)
    requires ValidConf(w.conf)
  {
    var parts := Split(command, ' ');
    if |parts| == 1 then
      if parts[0] in HoldingsWords || parts[0] in ValuesWords then
        Outcome(w.(ledger := w.ledger.(cash := Zeroed(w.ledger.cash, w.ledger.sharesOwned.Keys))), false, false)
      else Outcome(w, false, false)
    else if |parts| == 2 then
      if parts[0] in OpenWords then Opened(w, parts[1])
      else if parts[0] == "delete" then Outcome(Deleted(w, parts[1], confirmed), false, false)
      else if parts[0] == "start" then Outcome(Started(w, parts[1]), false, false)
      else Outcome(w, false, false)
    else
      var (l, logged) := Step(w.ledger, parts);
      Outcome(w.(ledger := l), logged, false)
  }

  /** The `undo` branch: a missing list or a text has no `pop`. */
  function Undone(w: World): (o: Outcome)
    requires ValidConf(w.conf)
  {
    if w.gameName !in w.conf || w.conf[w.gameName].Text? then Outcome(w, false, true)
    else
      var lines := w.conf[w.gameName].lines;
      var undid := if lines == [] then None else Some(lines[|lines| - 1]);
      var rest := if lines == [] then [] else lines[..|lines| - 1];
      assert AllAccepted(rest);
      Outcome(w.(undid := undid, ledger := Replayed(EmptyLedger(), rest), conf := w.conf[w.gameName := Lines(rest)]), false, false)
  }

  /** The list the default branch appends to: `conf.get(gameName)`, or a
      new array when that is falsy. */
  function Listed(conf: map<string, Stored>, name: string): Stored {
    if name !in conf || conf[name] == Text("") then Lines([]) else conf[name]
  }

  /** The default branch of the input callback: the input is performed and,
      when `perform` returns true, appended to the list. */
  function Entered(w: World, input: string, confirmed: bool): (o: Outcome)
    requires ValidConf(w.conf) && input != "undo" && input !in QuitWords
  {
    var list := Listed(w.conf, w.gameName);
    var p := Performed(w, input, confirmed);
    if p.thrown || !p.logged then p
    else if list.Text? then Outcome(p.world, true, true)
    else Outcome(p.world.(conf := p.world.conf[p.world.gameName := Lines(list.lines + [input])]), true, false)
  }

  // ------------------------------------------------------------------ lemmas

  /** `perform` returns true exactly for an accepted command; such a command
      changes only the ledger, by one step, and throws nothing. One- and
      two-token commands are never reported. */
  lemma PerformReportsAccepted(w: World, command: string, confirmed: bool)
    requires ValidConf(w.conf)
    ensures var o := Performed(w, command, confirmed);
      var parts := Split(command, ' ');
      (o.logged <==> Accepted(command))
      && (|parts| > 2 ==> !o.thrown && o.world == w.(ledger := Step(w.ledger, parts).0))
      && (|parts| > 2 && !Accepted(command) ==> o.world == w)
  {
  }

  /** A count `parseInt` cannot read after an object it can: the two trade
      places, so `A buy 3 X` means `A buy X 3`. */
  lemma SwapIsOrderFree(subject: string, verb: string, n: string, company: string)
    requires ParseInt(n).Some? && ParseInt(company).None? && company != ""
    ensures Arguments([subject, verb, n, company]) == Arguments([subject, verb, company, n])
    ensures Arguments([subject, verb, company, n]) == Args(subject, verb, company, JStr(n))
  {
  }

  /** Without a count (or with an empty fourth token) the count is 1. */
  lemma CountDefaultsToOne(subject: string, verb: string, company: string)
    ensures Arguments([subject, verb, company]) == Args(subject, verb, company, JNum(Int(1)))
    ensures Arguments([subject, verb, company, ""]) == Args(subject, verb, company, JNum(Int(1)))
  {
    ParseIntOfNumber(Int(1));
  }

  /** `dividend` credits `holding * value` to each owner whose row names
      the company, on top of the cash (0 for missing or NaN cash), and
      leaves every other owner's cash, the shares and the values as they
      were. */
  lemma DividendPaysHolders(l: Ledger, payingCompany: string, value: string)
    requires ToNumber(JStr(value)).Int?
    ensures var c := ToUpper(payingCompany);
      var k := ToNumber(JStr(value)).n;
      var r := Dividend(l, payingCompany, value).cash;
      Dividend(l, payingCompany, value) == l.(cash := r)
      && (forall p :: Pays(l.sharesOwned, c, p) && l.sharesOwned[p][c].Int? ==>
            p in r && r[p] == Int(CashBase(l.cash, p) + l.sharesOwned[p][c].n * k))
      && (forall p :: !Pays(l.sharesOwned, c, p) ==> (p in r <==> p in l.cash) && (p in l.cash ==> r[p] == l.cash[p]))
  {
  }

  /** The value is not checked: a text `Number` cannot read turns the cash
      of every owner of the company into NaN. */
  lemma UnreadableDividendPoisons(l: Ledger, payingCompany: string, value: string)
    requires ToNumber(JStr(value)).NaN?
    ensures var c := ToUpper(payingCompany);
      var r := Dividend(l, payingCompany, value).cash;
      forall p :: Pays(l.sharesOwned, c, p) ==> p in r && r[p] == NaN
  {
  }

  /** `value` stores the object text as it is, with no numeric check. */
  lemma ValueStoresText(l: Ledger, subject: string, verb: string, text: string)
    requires verb in ValueWords && ParseInt(text).None?
    ensures var r := Step(l, [subject, verb, text]).0;
      r == l.(values := r.values) && ToUpper(subject) in r.values && r.values[ToUpper(subject)] == text
  {
    CountDefaultsToOne(subject, verb, text);
    ValueVerbOnly(verb);
  }

  /** The value abbreviations name no other ledger verb. */
  lemma ValueVerbOnly(verb: string)
    requires verb in ValueWords
    ensures verb !in BuyWords && verb !in SellWords && verb !in DividendWords
  {
  }

  /** Replaying one more accepted line is one more step. */
  lemma {:induction false} ReplayedAppend(l: Ledger, lines: seq<string>, line: string)
    requires AllAccepted(lines) && Accepted(line)
    ensures AllAccepted(lines + [line])
    ensures Replayed(l, lines + [line]) == Step(Replayed(l, lines), Split(line, ' ')).0
    decreases |lines|
  {
    if lines == [] {
      assert [] + [line] == [line];
    } else {
      assert (lines + [line])[1..] == lines[1..] + [line];
      ReplayedAppend(Step(l, Split(lines[0], ' ')).0, lines[1..], line);
    }
  }

  /** `perform` keeps the stored lists made of accepted commands: it only
      writes the name entry and deletes games. */
  lemma PerformedKeepsValid(w: World, command: string, confirmed: bool)
    requires ValidConf(w.conf)
    ensures ValidConf(Performed(w, command, confirmed).world.conf)
  {
  }

  /** So does the input callback, which appends only what `perform`
      reported. */
  lemma EnteredKeepsValid(w: World, input: string, confirmed: bool)
    requires ValidConf(w.conf) && input != "undo" && input !in QuitWords
    ensures ValidConf(Entered(w, input, confirmed).world.conf)
  {
    PerformReportsAccepted(w, input, confirmed);
    PerformedKeepsValid(w, input, confirmed);
    var list := Listed(w.conf, w.gameName);
    var e := Entered(w, input, confirmed);
    if !e.thrown && e.logged {
      assert AllAccepted(list.lines + [input]);
    }
  }

  /** And so does `undo`, which stores a prefix of a stored list. */
  lemma UndoneKeepsValid(w: World)
    requires ValidConf(w.conf)
    ensures ValidConf(Undone(w).world.conf)
  {
  }

  /** A logged command keeps the ledger equal to the replay of the list
      when it was so before. */
  lemma EnteredKeepsReplay(w: World, input: string, confirmed: bool)
    requires ValidConf(w.conf) && input != "undo" && input !in QuitWords && Accepted(input)
    requires w.gameName in w.conf && w.conf[w.gameName].Lines?
    requires w.ledger == Replayed(EmptyLedger(), w.conf[w.gameName].lines)
    ensures var e := Entered(w, input, confirmed);
      !e.thrown && e.logged && e.world.gameName == w.gameName
      && e.world.conf == w.conf[w.gameName := Lines(w.conf[w.gameName].lines + [input])]
      && e.world.ledger == Replayed(EmptyLedger(), w.conf[w.gameName].lines + [input])
  {
    PerformReportsAccepted(w, input, confirmed);
    ReplayedAppend(EmptyLedger(), w.conf[w.gameName].lines, input);
  }

  /** `undo` right after a logged command takes it back: the list is the
      one before, the ledger its replay, and `undid` the command. */
  lemma UndoTakesBack(w: World, input: string, confirmed: bool)
    requires ValidConf(w.conf) && input != "undo" && input !in QuitWords && Accepted(input)
    requires w.gameName in w.conf && w.conf[w.gameName].Lines?
    ensures var e := Entered(w, input, confirmed);
      !e.thrown && ValidConf(e.world.conf)
      && var u := Undone(e.world);
      !u.thrown && u.world.conf == w.conf && u.world.gameName == w.gameName && u.world.undid == Some(input)
      && u.world.ledger == Replayed(EmptyLedger(), w.conf[w.gameName].lines)
  {
    var lines := w.conf[w.gameName].lines;
    EnteredAppends(w, input, confirmed);
    EnteredKeepsValid(w, input, confirmed);
    UndoneDropsLast(Entered(w, input, confirmed).world, lines, input);
    assert w.conf[w.gameName := Lines(lines)] == w.conf;
  }

  /** An accepted input is appended to a stored list. */
  lemma EnteredAppends(w: World, input: string, confirmed: bool)
    requires ValidConf(w.conf) && input != "undo" && input !in QuitWords && Accepted(input)
    requires w.gameName in w.conf && w.conf[w.gameName].Lines?
    ensures var e := Entered(w, input, confirmed);
      !e.thrown && e.world.gameName == w.gameName
      && e.world.conf == w.conf[w.gameName := Lines(w.conf[w.gameName].lines + [input])]
  {
    PerformReportsAccepted(w, input, confirmed);
  }

  /** `undo` on a list ending in `line` stores the list before it and
      replays that. */
  lemma UndoneDropsLast(w: World, lines: seq<string>, line: string)
    requires ValidConf(w.conf) && w.gameName in w.conf && w.conf[w.gameName] == Lines(lines + [line])
    ensures var u := Undone(w);
      !u.thrown && u.world.gameName == w.gameName && u.world.undid == Some(line)
      && u.world.conf == w.conf[w.gameName := Lines(lines)]
      && u.world.ledger == Replayed(EmptyLedger(), lines)
  {
    assert (lines + [line])[..|lines|] == lines;
  }

  // ----------------------------------------------------------- the program

  /** The module-level state of 18sh.js: `gameState` and the Configstore
      contents. */
  class Console {
    var gameName: string
    var sharesOwned: Holdings
    var cash: map<string, Num>
    var values: map<string, string>
    var undid: Option<string>
    var conf: map<string, Stored>

    function State(): World
      reads this
    {
      World(gameName, Ledger(sharesOwned, cash, values), undid, conf)
    }

    ghost predicate Valid()
      reads this
    {
      ValidConf(conf)
    }

    constructor (w: World)
      requires ValidConf(w.conf)
      ensures Valid() && State() == w
    {
      gameName, undid, conf := w.gameName, w.undid, w.conf;
      sharesOwned, cash, values := w.ledger.sharesOwned, w.ledger.cash, w.ledger.values;
    }

    /** `buy(buyer, object, count)`. */
    method Buy(buyer: string, company: string, count: JsVal)
      modifies this`sharesOwned
      ensures sharesOwned == Bought(old(sharesOwned), buyer, company, count)
    {
      var obj := ToUpper(company);
      var owner := ToUpper(buyer);
      var row := if owner in sharesOwned then sharesOwned[owner] else map[];
      ghost var found := row;
      if !(obj in row && Truthy(JNum(row[obj]))) {
        row := row[obj := Int(0)];
      }
      var held := Add(row[obj], ParseIntVal(count));
      TradeStep(sharesOwned, owner, obj, found, row, held);
      sharesOwned := sharesOwned[owner := row[obj := held]];
    }

    /** `sell(seller, object, count)`. */
    method Sell(seller: string, company: string, count: JsVal)
      modifies this`sharesOwned
      ensures sharesOwned == Sold(old(sharesOwned), seller, company, count)
    {
      var obj := ToUpper(company);
      var owner := ToUpper(seller);
      var row := if owner in sharesOwned then sharesOwned[owner] else map[];
      ghost var found := row;
      if !(obj in row && Truthy(JNum(row[obj]))) {
        row := row[obj := Int(0)];
      }
      var n := count;
      if Less(row[obj], ToNumber(count)) {
        n := JNum(row[obj]);
      }
      var held := Sub(row[obj], ParseIntVal(n));
      TradeStep(sharesOwned, owner, obj, found, row, held);
      SellHeld(Start(sharesOwned, owner, obj), count, n);
      sharesOwned := sharesOwned[owner := row[obj := held]];
    }

    /** `dividend(payingCompany, value)`: one owner at a time. */
    method Dividend(payingCompany: string, value: string)
      modifies this`cash
      ensures cash == Credited(old(cash), sharesOwned, ToUpper(payingCompany), ToNumber(JStr(value)), sharesOwned.Keys)
    {
      var company := ToUpper(payingCompany);
      var owners := sharesOwned.Keys;
      ghost var done: set<string> := {};
      while owners != {}
        invariant owners !! done && owners + done == sharesOwned.Keys
        invariant cash == Credited(old(cash), sharesOwned, company, ToNumber(JStr(value)), done)
        decreases owners
      {
        var owner :| owner in owners;
        CreditStep(old(cash), sharesOwned, company, ToNumber(JStr(value)), done, owner);
        if company in sharesOwned[owner] {
          var moneyEarned := Mul(sharesOwned[owner][company], ToNumber(JStr(value)));
          ParseIntOfNumber(moneyEarned);
          var base := if owner in cash && cash[owner].Int? then cash[owner] else Int(0);
          cash := cash[owner := Add(base, ParseIntVal(JNum(moneyEarned)))];
        }
        owners := owners - {owner};
        done := done + {owner};
      }
    }

    /** `value(company, value)`. */
    method Value(company: string, value: string)
      modifies this`values
      ensures values == old(values)[ToUpper(company) := value]
    {
      values := values[ToUpper(company) := value];
    }

    /** The cash defaults `holdings()` and `values()` write: one owner at a
        time. */
    method ZeroCash()
      modifies this`cash
      ensures cash == Zeroed(old(cash), sharesOwned.Keys)
    {
      var owners := sharesOwned.Keys;
      ghost var done: set<string> := {};
      while owners != {}
        invariant owners !! done && owners + done == sharesOwned.Keys
        invariant cash == Zeroed(old(cash), done)
        decreases owners
      {
        var owner :| owner in owners;
        ZeroStep(old(cash), done, owner);
        if !(owner in cash && Truthy(JNum(cash[owner]))) {
          cash := cash[owner := Int(0)];
        }
        owners := owners - {owner};
        done := done + {owner};
      }
    }

    /** `resetGameState()`. */
    method ResetGameState()
      modifies this`sharesOwned, this`cash, this`values
      ensures Ledger(sharesOwned, cash, values) == EmptyLedger()
    {
      sharesOwned, cash, values := map[], map[], map[];
    }

    /** `updateGameState(commandHistory)`. */
    method UpdateGameState(history: Stored) returns (thrown: bool)
      requires Valid() && (history.Lines? ==> AllAccepted(history.lines))
      modifies this
      ensures Valid()
      ensures Outcome(State(), false, thrown) == Updated(old(State()), history)
      decreases 1
    {
      ResetGameState();
      thrown := false;
      match history
      case Text(s) =>
        thrown := s != "";
      case Lines(lines) =>
        ghost var target := Replayed(EmptyLedger(), lines);
        var i := 0;
        while i < |lines|
          invariant 0 <= i <= |lines| && Valid()
          invariant Replayed(Ledger(sharesOwned, cash, values), lines[i..]) == target
          invariant gameName == old(gameName) && undid == old(undid) && conf == old(conf)
        {
          assert lines[i..][1..] == lines[i + 1..];
          assert Accepted(lines[i]);
          var _, _ := Perform(lines[i], false);
          i := i + 1;
        }
        assert lines[i..] == [];
    }

    /** `open(name)`. */
    method Open(name: string) returns (thrown: bool)
      requires Valid()
      modifies this
      ensures Valid()
      ensures Outcome(State(), false, thrown) == Opened(old(State()), name)
      decreases 2
    {
      thrown := false;
      if name in conf {
        gameName := name;
        thrown := UpdateGameState(conf[name]);
        if !thrown {
          conf := conf[CurrentKey := Text(name)];
        }
      }
    }

    /** `deleteGame(name)`, given the answer to its question. */
    method DeleteGame(name: string, confirmed: bool)
      requires Valid()
      modifies this`conf
      ensures Valid() && State() == Deleted(old(State()), name, confirmed)
    {
      if name in conf && confirmed {
        conf := conf - {name};
      }
    }

    /** `newGame(gameName)`. */
    method NewGame(name: string)
      requires Valid()
      modifies this
      ensures Valid() && State() == Started(old(State()), name)
    {
      if name !in conf {
        ResetGameState();
        gameName := name;
        conf := conf[CurrentKey := Text(name)];
      }
    }

    /** `perform(command)`. */
    method Perform(command: string, confirmed: bool) returns (logged: bool, thrown: bool)
      requires Valid()
      modifies this
      ensures Valid()
      ensures Outcome(State(), logged, thrown) == Performed(old(State()), command, confirmed)
      decreases if |Split(command, ' ')| == 2 then 3 else 0
    {
      var parts := Split(command, ' ');
      logged, thrown := false, false;
      if |parts| == 1 {
        if parts[0] in HoldingsWords || parts[0] in ValuesWords {
          ZeroCash();
        }
      }
      if |parts| == 2 {
        if parts[0] in OpenWords {
          thrown := Open(parts[1]);
        } else if parts[0] == "delete" {
          DeleteGame(parts[1], confirmed);
        } else if parts[0] == "start" {
          NewGame(parts[1]);
        }
      }
      if |parts| > 2 {
        var a := Arguments(parts);
        if a.verb in BuyWords {
          Buy(a.subject, a.obj, a.count);
          logged := true;
        } else if a.verb in SellWords {
          Sell(a.subject, a.obj, a.count);
          logged := true;
        } else if a.verb in DividendWords {
          Dividend(a.subject, a.obj);
          logged := true;
        } else if a.verb in ValueWords {
          Value(a.subject, a.obj);
          logged := true;
        }
      }
    }

    /** The `undo` branch. */
    method Undo() returns (thrown: bool)
      requires Valid()
      modifies this
      ensures Valid()
      ensures Outcome(State(), false, thrown) == Undone(old(State()))
    {
      if gameName !in conf || conf[gameName].Text? {
        return true;
      }
      var history := conf[gameName].lines;
      if history == [] {
        undid := None;
      } else {
        undid := Some(history[|history| - 1]);
        history := history[..|history| - 1];
      }
      thrown := UpdateGameState(Lines(history));
      conf := conf[gameName := Lines(history)];
    }

    /** The input callback: `undo`, the quit words, or a command. */
    method Enter(input: string, confirmed: bool) returns (logged: bool, thrown: bool, exited: bool)
      requires Valid()
      modifies this
      ensures Valid()
      ensures input == "undo" ==> !exited && Outcome(State(), logged, thrown) == Undone(old(State()))
      ensures input in QuitWords ==> exited && !thrown && State() == old(State())
      ensures input != "undo" && input !in QuitWords ==>
        !exited && Outcome(State(), logged, thrown) == Entered(old(State()), input, confirmed)
    {
      logged, thrown, exited := false, false, false;
      if input == "undo" {
        thrown := Undo();
        return;
      }
      if input in QuitWords {
        exited := true;
        return;
      }
      var history := Listed(conf, gameName);
      EnteredKeepsValid(State(), input, confirmed);
      logged, thrown := Perform(input, confirmed);
      if !thrown && logged {
        if history.Text? {
          thrown := true;
        } else {
          conf := conf[gameName := Lines(history.lines + [input])];
        }
      }
    }
  }

  /** One more owner credited is one more map update. */
  lemma CreditStep(cash: map<string, Num>, s: Holdings, company: string, rate: Num, done: set<string>, owner: string)
    requires owner !in done
    ensures var before := Credited(cash, s, company, rate, done);
      Credited(cash, s, company, rate, done + {owner}) ==
        if Pays(s, company, owner) then before[owner := Credit(before, s, company, rate, owner)] else before
  {
    if Pays(s, company, owner) {
      CreditPays(cash, s, company, rate, done, owner);
      SameBase(Credited(cash, s, company, rate, done), cash, s, company, rate, owner);
    } else {
      CreditSkips(cash, s, company, rate, done, owner);
    }
  }

  lemma CreditPays(cash: map<string, Num>, s: Holdings, company: string, rate: Num, done: set<string>, owner: string)
    requires owner !in done && Pays(s, company, owner)
    ensures Credited(cash, s, company, rate, done + {owner})
      == Credited(cash, s, company, rate, done)[owner := Credit(cash, s, company, rate, owner)]
  {
    var after := Credited(cash, s, company, rate, done + {owner});
    var expected := Credited(cash, s, company, rate, done)[owner := Credit(cash, s, company, rate, owner)];
    assert after.Keys == expected.Keys;
    forall p | p in after
      ensures after[p] == expected[p]
    {
    }
  }

  lemma CreditSkips(cash: map<string, Num>, s: Holdings, company: string, rate: Num, done: set<string>, owner: string)
    requires !Pays(s, company, owner)
    ensures Credited(cash, s, company, rate, done + {owner}) == Credited(cash, s, company, rate, done)
  {
    var before := Credited(cash, s, company, rate, done);
    var after := Credited(cash, s, company, rate, done + {owner});
    assert after.Keys == before.Keys;
    forall p | p in after
      ensures after[p] == before[p]
    {
    }
  }

  /** The credit depends on the cash only through its base. */
  lemma SameBase(c1: map<string, Num>, c2: map<string, Num>, s: Holdings, company: string, rate: Num, owner: string)
    requires Pays(s, company, owner) && CashBase(c1, owner) == CashBase(c2, owner)
    ensures Credit(c1, s, company, rate, owner) == Credit(c2, s, company, rate, owner)
  {
  }

  /** One more owner defaulted is one more map update. */
  lemma ZeroStep(cash: map<string, Num>, done: set<string>, owner: string)
    requires owner !in done
    ensures var before := Zeroed(cash, done);
      Zeroed(cash, done + {owner}) ==
        if !(owner in before && Truthy(JNum(before[owner]))) then before[owner := Int(0)] else before
  {
  }
}
