/** modules/perform.js: the first dispatcher between the parser and the
    game state. It hands buy, sell, dividend and value to the ledger, logs
    `subject verb object [quantity]` for those four verbs only, and its
    silent mode, once switched on, is never switched off. */
module Perform {
  import opened Js
  import opened Parser
  import opened Shares
  import opened GameState
  import CommandPrompt

  /** The verbs `perform` marks for the history. */
  predicate Marked(a: Action) {
    a.verb == Some(Buy) || a.verb == Some(Sell) || a.verb == Some(Dividend) || a.verb == Some(Value)
  }

  /** `action.object` handed over as an amount: null, a name, or `true`. */
  function Amount(o: Obj): JsVal {
    match o
    case Null => JNull
    case Name(s) => JStr(s)
    case True => JBool(true)
  }

  /** `count *= -1`. */
  function Negated(q: Num): (r: Num)
    ensures r.NaN? <==> q.NaN?
    ensures q.Int? ==> r.n == -q.n
  {
    if q.Int? then Int(-q.n) else NaN
  }

  /** The entry `perform` logs: `${subject} ${verb} ${object}`, then
      ` ${quantity}` when the quantity is truthy. */
  function Entry(a: Action): string
    requires a.verb.Some?
  {
    CommandPrompt.SubjectText(a.subject) + " " + VerbName(a.verb.value) + " " + ObjText(a.obj)
    + if Truthy(JNum(a.quantity)) then " " + NumToString(a.quantity) else ""
  }

  /** The ledger cases of the `switch`; `history` is the list `payDividends`
      reads. `buy` passes the quantity, `sell` its negation, and `dividend`
      and `value` pass the object, not the quantity. */
  function Dispatched(l: Ledger, history: seq<string>, a: Action): (r: Ledger)
    requires ValidLedger(l)
    ensures ValidLedger(r)
  {
    var subject := CommandPrompt.SubjectText(a.subject);
    if a.verb == Some(Buy) then l.(sharesOwned := Change(l.sharesOwned, subject, ObjText(a.obj), a.quantity).0)
    else if a.verb == Some(Sell) then l.(sharesOwned := Change(l.sharesOwned, subject, ObjText(a.obj), Negated(a.quantity)).0)
    else if a.verb == Some(Dividend) then PaidDividends(l, subject, DividendRate(Amount(a.obj), history, subject))
    else if a.verb == Some(Value) then l.(values := ValueAfter(l.values, subject, Amount(a.obj)).0)
    else l
  }

  /** Whether the verb is one of the game-management verbs. */
  predicate Switches(a: Action) {
    a.verb.Some? && CommandPrompt.ManagesGames(a.verb.value)
  }

  /** The `switch` on the session: `open`, `delete` and `start` go to the
      store by the object's text, the rest to the ledger. */
  function Acted(s: CommandPrompt.Session, a: Action): (t: CommandPrompt.Session)
    requires ValidLedger(s.ledger)
    ensures ValidLedger(t.ledger)
  {
    if Switches(a) then CommandPrompt.SwitchedTo(s, a.verb.value, ObjText(a.obj))
    else s.(ledger := Dispatched(s.ledger, CommandPrompt.Log(s), a))
  }

  /** The history step: the entry is appended for a marked verb unless
      `updateMode` is on. */
  function Logged(t: CommandPrompt.Session, a: Action, quiet: bool): (o: CommandPrompt.Outcome)
    ensures !o.thrown && o.session.ledger == t.ledger && o.session.name == t.name
    ensures Marked(a) && !quiet ==> o.session.games == t.games[t.name := CommandPrompt.Log(t) + [Entry(a)]]
    ensures !(Marked(a) && !quiet) ==> o.session == t
  {
    if Marked(a) && !quiet then
      CommandPrompt.Outcome(t.(games := t.games[t.name := CommandPrompt.Log(t) + [Entry(a)]]), false)
    else CommandPrompt.Outcome(t, false)
  }

  /** `perform(command, silent)` on the session, where `quiet` is the value
      `updateMode` has once `silent` is taken into account. */
  function Performed(s: CommandPrompt.Session, command: string, quiet: bool): (o: CommandPrompt.Outcome)
    requires ValidLedger(s.ledger)
    ensures ValidLedger(o.session.ledger)
  {
    match Parse(command)
    case Throws => CommandPrompt.Outcome(s, true)
    case Ok(a) => Logged(Acted(s, a), a, quiet)
  }

  // ------------------------------------------------------------------ lemmas

  /** A command that manages no game changes the active game's list by at
      most one entry at its end, and only for the four marked verbs outside
      silent mode; the other games' lists are untouched. */
  lemma LogGrowth(s: CommandPrompt.Session, command: string, quiet: bool)
    requires ValidLedger(s.ledger) && Parse(command).Ok?
    requires !Switches(Parse(command).action)
    ensures var t := Performed(s, command, quiet).session;
      var a := Parse(command).action;
      t.name == s.name
      && (CommandPrompt.Log(t) != CommandPrompt.Log(s) <==> Marked(a) && !quiet)
      && (Marked(a) && !quiet ==> CommandPrompt.Log(t) == CommandPrompt.Log(s) + [Entry(a)])
      && forall g :: g != s.name ==> (g in t.games <==> g in s.games) && (g in s.games ==> t.games[g] == s.games[g])
  {
    var a := Parse(command).action;
    var t := Performed(s, command, quiet).session;
    if Marked(a) && !quiet {
      assert |CommandPrompt.Log(t)| == |CommandPrompt.Log(s)| + 1;
    }
  }

  /** Once `updateMode` is on nothing is logged any more: the store changes
      only by a `delete`. */
  lemma QuietKeepsLists(s: CommandPrompt.Session, command: string)
    requires ValidLedger(s.ledger) && Parse(command).Ok?
    ensures var a := Parse(command).action;
      Performed(s, command, true).session.games == if a.verb == Some(Delete) then s.games - {ObjText(a.obj)} else s.games
  {
    var a := Parse(command).action;
    var t := Acted(s, a);
    assert Performed(s, command, true).session == t;
    if Switches(a) {
      assert t == CommandPrompt.SwitchedTo(s, a.verb.value, ObjText(a.obj));
    } else {
      assert t.games == s.games;
    }
  }

  /** `sell` is `buy` of the negated count: an in-range sale lowers the
      holding by the count, a larger one clears it. */
  lemma SellIsNegatedBuy(l: Ledger, history: seq<string>, a: Action)
    requires ValidLedger(l) && a.verb == Some(Sell)
    ensures Dispatched(l, history, a) == Dispatched(l, history, a.(verb := Some(Buy), quantity := Negated(a.quantity)))
    ensures var subject := CommandPrompt.SubjectText(a.subject);
      var h := Holding(l.sharesOwned, subject, ObjText(a.obj));
      var after := Holding(Dispatched(l, history, a).sharesOwned, subject, ObjText(a.obj));
      a.quantity.Int? && a.quantity.n > 0 ==> after == if a.quantity.n > h then 0 else h - a.quantity.n
  {
  }

  /** `X dividend 10` parses with the amount as the quantity and a null
      object, and `perform` pays the object: every owner is credited 0. */
  lemma NumericDividendPaysNothing(l: Ledger, history: seq<string>, a: Action)
    requires ValidLedger(l) && a.verb == Some(Dividend) && a.obj == Null
    ensures Dispatched(l, history, a) == PaidDividends(l, CommandPrompt.SubjectText(a.subject), 0)
  {
    var subject := CommandPrompt.SubjectText(a.subject);
    var rate := DividendRate(Amount(a.obj), history, subject);
    assert Dispatched(l, history, a) == PaidDividends(l, subject, rate);
    assert rate == 0;
  }

  /** `X value 100` likewise hands over the null object, which `setValue`
      accepts (null is not NaN) and stores in place of the amount. */
  lemma NumericValueStoresNull(l: Ledger, history: seq<string>, a: Action)
    requires ValidLedger(l) && a.verb == Some(Value) && a.obj == Null
    ensures var subject := CommandPrompt.SubjectText(a.subject);
      var r := Dispatched(l, history, a);
      subject in r.values.m && r.values.m[subject] == JNull
  {
  }

  /** The logged buy names the company before the count, so reading it back
      takes the company for the count's place: one share, with the count as
      the price. */
  lemma BuyEntryReadsBackAsPrice()
    ensures var a := Action(Some(Buy), Name("X"), Some("A"), Int(5), Some(Int(0)), Nil, None);
      Entry(a) == "A buy X 5" && Parse(Entry(a)) == Ok(a.(quantity := Int(1), price := Some(Int(5))))
  {
    var a := Action(Some(Buy), Name("X"), Some("A"), Int(5), Some(Int(0)), Nil, None);
    var w := ["A", "buy", "X", "5"];
    BuyEntryText(a);
    BuyEntryLine(w);
    BuyEntryTokens(w);
    BuyWithoutCount(w, None);
  }

  lemma BuyEntryText(a: Action)
    requires a == Action(Some(Buy), Name("X"), Some("A"), Int(5), Some(Int(0)), Nil, None)
    ensures Entry(a) == "A buy X 5"
  {
    assert NumToString(Int(5)) == "5" by { assert IntToString(5) == "5"; }
  }

  lemma BuyEntryLine(w: seq<string>)
    requires w == ["A", "buy", "X", "5"]
    ensures Parse("A buy X 5") == Dispatch(w, None)
  {
    BuyEntryJoin();
    assert Word("A") && Word("buy") && Word("X") && Word("5");
    assert forall i :: 0 <= i < |w| ==> Word(w[i]);
    ParseWords(w);
  }

  lemma BuyEntryJoin()
    ensures Join(["A", "buy", "X", "5"], ' ') == "A buy X 5"
  {
    JoinThree("A", "buy", "X");
    JoinAppend(["A", "buy", "X"], "5");
  }

  lemma BuyEntryTokens(w: seq<string>)
    requires w == ["A", "buy", "X", "5"]
    ensures ManyTokenVerb(w[1]) == Some(Buy) && ParseInt(w[2]).None? && PriceToken(w[3]) == Int(5)
    ensures ToUpper(w[0]) == "A" && ToUpper(w[2]) == "X"
  {
    assert IntToString(5) == "5";
    ParseIntToString(5);
    assert w[3][..1] != "@";
  }

  /** The logged dividend has four words, and the four-word grammar has no
      dividend: it reads back as no command. */
  lemma DividendEntryReadsBackAsNothing()
    ensures var a := Action(Some(Dividend), Null, Some("A"), Int(10), None, Absent, None);
      Entry(a) == "A dividend null 10" && Parse(Entry(a)) == Ok(NullAction(None))
  {
    var a := Action(Some(Dividend), Null, Some("A"), Int(10), None, Absent, None);
    var w := ["A", "dividend", "null", "10"];
    DividendEntryText(a);
    DividendEntryLine(w);
    DividendEntryNoVerb(w);
  }

  lemma DividendEntryNoVerb(w: seq<string>)
    requires w == ["A", "dividend", "null", "10"]
    ensures Dispatch(w, None) == Ok(NullAction(None))
  {
    DispatchArity(w, None);
    NoDividendVerb();
    UnknownManyVerb(w, None);
  }

  /** Kept apart: the set lookups behind it are costly beside the grammar. */
  lemma NoDividendVerb()
    ensures ManyTokenVerb("dividend").None?
  {
  }

  lemma DividendEntryText(a: Action)
    requires a == Action(Some(Dividend), Null, Some("A"), Int(10), None, Absent, None)
    ensures Entry(a) == "A dividend null 10"
  {
    assert NumToString(Int(10)) == "10" by { assert IntToString(10) == "10"; }
  }

  lemma DividendEntryLine(w: seq<string>)
    requires w == ["A", "dividend", "null", "10"]
    ensures Parse("A dividend null 10") == Dispatch(w, None)
  {
    DividendEntryJoin();
    assert Word("A") && Word("dividend") && Word("null") && Word("10");
    assert forall i :: 0 <= i < |w| ==> Word(w[i]);
    ParseWords(w);
  }

  lemma DividendEntryJoin()
    ensures Join(["A", "dividend", "null", "10"], ' ') == "A dividend null 10"
  {
    JoinThree("A", "dividend", "null");
    JoinAppend(["A", "dividend", "null"], "10");
  }

  // ---------------------------------------------------------- the dispatcher

  class Dispatcher {
    /** The module-level `updateMode`: set by a silent call, never cleared. */
    var updateMode: bool
    /** The module-level `gameStateObject`. */
    const game: Game

    function State(): CommandPrompt.Session
      reads game, game.store
    {
      CommandPrompt.Session(game.Snapshot(), game.gameName, game.store.games)
    }

    constructor (game: Game)
      ensures this.game == game && !updateMode
    {
      this.game := game;
      updateMode := false;
    }

    /** `perform(command, gameState, silent)`. */
    method Perform(command: string, silent: bool) returns (thrown: bool)
      requires game.Valid()
      modifies this`updateMode, game, game.store
      ensures game.Valid()
      ensures updateMode == (old(updateMode) || silent)
      ensures CommandPrompt.Outcome(State(), thrown) == Performed(old(State()), command, updateMode)
    {
      if silent {
        updateMode := true;
      }
      var parsed := Parse(command);
      if parsed.Throws? {
        return true;
      }
      thrown := false;
      Apply(parsed.action);
    }

    /** The `switch`, then the history step. */
    method Apply(a: Action)
      requires game.Valid()
      modifies game, game.store
      ensures game.Valid()
      ensures CommandPrompt.Outcome(State(), false) == Logged(Acted(old(State()), a), a, updateMode)
    {
      if Switches(a) {
        Switch(a);
      } else {
        Book(a);
      }
      var addToHistory := Marked(a);
      if updateMode {
        addToHistory := false;
      }
      if addToHistory {
        game.AddToHistory(Entry(a));
      }
    }

    /** `open`, `delete` and `start`, given the object as it is. */
    method Switch(a: Action)
      requires game.Valid() && Switches(a)
      modifies game, game.store
      ensures game.Valid()
      ensures State() == CommandPrompt.SwitchedTo(old(State()), a.verb.value, ObjText(a.obj))
    {
      var name := ObjText(a.obj);
      if a.verb == Some(Open) {
        var _ := game.Open(name);
      } else if a.verb == Some(Delete) {
        var _ := game.DeleteGame(name);
      } else {
        var _ := game.NewGame(name);
      }
    }

    /** `buy` and `sell`: `changeSharesOwned` with the count, negated for a sale. */
    method Trade(a: Action)
      requires game.Valid() && (a.verb == Some(Buy) || a.verb == Some(Sell))
      modifies game`sharesOwned
      ensures game.Valid()
      ensures game.Snapshot() == Dispatched(old(game.Snapshot()), game.store.History(game.gameName), a)
    {
      var count := if a.verb == Some(Sell) then Negated(a.quantity) else a.quantity;
      var _ := game.ChangeSharesOwned(CommandPrompt.SubjectText(a.subject), ObjText(a.obj), count);
    }

    /** The ledger cases of the `switch`. */
    method Book(a: Action)
      requires game.Valid()
      modifies game
      ensures game.Valid() && game.gameName == old(game.gameName)
      ensures game.Snapshot() == Dispatched(old(game.Snapshot()), game.store.History(game.gameName), a)
    {
      var subject := CommandPrompt.SubjectText(a.subject);
      if a.verb == Some(Buy) || a.verb == Some(Sell) {
        Trade(a);
      } else if a.verb == Some(Dividend) {
        game.PayDividends(subject, Amount(a.obj));
      } else if a.verb == Some(Value) {
        var _ := game.SetValue(subject, Amount(a.obj));
      }
    }
  }
}
