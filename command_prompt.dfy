/** modules/commandPrompt.js: `perform` runs one command line against the
    game state and appends its normalized form to the game's command list;
    `_updateGameState` rebuilds the state by resetting it and replaying a
    list silently; `undo` drops the last entry and replays the rest.

    The functions below state what each of these does to a `Session`; the
    `Prompt` class performs them on a `Game` and is proved to do exactly
    that. */
module CommandPrompt {
  import opened Js
  import opened Dicts
  import opened Shares
  import opened CommandHistory
  import opened Parser
  import opened GameState

  /** The effect on the ledger of the gameState operations `perform` calls
      whose definitions are not part of this model (`buyShares`,
      `sellShares`, `payHalfDividends`, `moveCash`, `float`, `close`,
      `nextRound`, `setIncome`, `setParameter`): any function of the ledger
      and the action. */
  type Unseen = (Ledger, Action) -> Ledger

  ghost predicate KeepsValid(unseen: Unseen) {
    forall l: Ledger, a: Action :: ValidLedger(l) ==> ValidLedger(unseen(l, a))
  }

  /** What `perform` works on: the ledger, the active game's name and the
      stored command list of every game. */
  datatype Session = Session(ledger: Ledger, name: string, games: map<string, seq<string>>)

  /** `getCommandHistory()`: the active game's list. */
  function Log(s: Session): seq<string> {
    if s.name in s.games then s.games[s.name] else []
  }

  /** A session after a command; `thrown` when the command threw a
      TypeError (the session is then as the throw left it). */
  datatype Outcome = Outcome(session: Session, thrown: bool)

  // ------------------------------------------------------ normalized command

  /** `${action.subject}`: a missing subject prints as `null`. */
  function SubjectText(subject: Option<string>): string {
    if subject.Some? then subject.value else "null"
  }

  /** ` @price`, written only for a truthy price. */
  function PriceText(price: Option<Num>): string {
    if price.Some? && Truthy(JNum(price.value)) then " @" + NumToString(price.value) else ""
  }

  /** ` from source`, written only for a truthy source. */
  function SourceText(source: Field<string>): string {
    if source.Has? && source.value != "" then " from " + source.value else ""
  }

  /** A comment `perform` keeps: a non-empty one. */
  predicate HasComment(a: Action) {
    a.comment.Some? && a.comment.value != ""
  }

  /** The normalized command `perform` builds for a verb it logs; `None`
      for the verbs it does not log. A line with only a comment gets the
      verb "comment" and an empty command. */
  function Entry(a: Action): Option<string> {
    var subject := SubjectText(a.subject);
    var quantity := NumToString(a.quantity);
    var obj := ObjText(a.obj);
    match a.verb
    case None => if HasComment(a) then Some("") else None
    case Some(v) =>
      var verb := VerbName(v);
      match v
      case Buy => Some(subject + " " + verb + " " + quantity + " " + obj + PriceText(a.price) + SourceText(a.source))
      case Sell => Some(subject + " " + verb + " " + quantity + " " + obj + PriceText(a.price))
      case Dividend => Some(subject + " " + verb + " " + quantity)
      case HalfDividend => Some(subject + " " + verb + " " + quantity)
      case Value => Some(subject + " " + verb + " " + quantity)
      case Cash => Some(subject + " " + verb + " " + quantity)
      case Float => Some(subject + " " + verb + " " + quantity)
      case Income => Some(subject + " " + verb + " " + quantity)
      case Give => Some(subject + " " + verb + " " + quantity + " to " + obj)
      case Close => Some(verb + " " + obj)
      case Next => Some(verb + " " + obj)
      case Rounding => Some(verb + " " + obj)
      case CompanyCredits => Some(verb)
      case BankSize =>
        // `addToHistory = action.quantity`: a banksize of 0 (or NaN) is not logged
        if Truthy(JNum(a.quantity)) then
          Some(verb + " " + (if Truthy(JStr(obj)) && !a.obj.Null? then obj else "") + quantity)
        else None
      case Holdings => None
      case Values => None
      case ListGames => None
      case Bank => None
      case Companies => None
      case Open => None
      case Delete => None
      case Start => None
      case Remove => None
      case Set => None
  }

  /** The line `perform` appends: the command, then ` # comment`, trimmed. */
  function Record(a: Action): Option<string> {
    match Entry(a)
    case None => None
    case Some(e) => Some(Trim(if HasComment(a) then e + " # " + a.comment.value else e))
  }

  // ------------------------------------------------------------ the switch

  /** `action.object.toLowerCase()`: the game name of open, delete and
      start; a null or boolean object has no `toLowerCase` and throws. */
  function GameName(a: Action): Option<string> {
    if a.obj.Name? then Some(ToLower(a.obj.name)) else None
  }

  /** The verbs that manage games rather than the ledger. */
  predicate ManagesGames(v: Verb) {
    v == Open || v == Delete || v == Start
  }

  /** The `switch` of `perform`: what each verb does to the session. An
      `open` switches the game here; the replay it then starts is added by
      `Applied`. */
  function Acted(s: Session, a: Action, unseen: Unseen): (o: Outcome)
    requires ValidLedger(s.ledger) && KeepsValid(unseen)
    ensures ValidLedger(o.session.ledger)
  {
    if a.verb.None? then Outcome(s, false)
    else if ManagesGames(a.verb.value) then Switched(s, a)
    else Outcome(s.(ledger := Booked(s.ledger, Log(s), a, unseen)), false)
  }

  /** The ledger cases of the switch; `history` is the stored list that
      `getPreviousDividend` would read. */
  function Booked(l: Ledger, history: seq<string>, a: Action, unseen: Unseen): (r: Ledger)
    requires ValidLedger(l) && KeepsValid(unseen) && a.verb.Some?
    ensures ValidLedger(r)
  {
    var subject := SubjectText(a.subject);
    match a.verb.value
    case Dividend => PaidDividends(l, subject, DividendRate(JNum(a.quantity), history, subject))
    case Value => l.(values := ValueAfter(l.values, subject, JNum(a.quantity)).0)
    case Cash => l.(cash := CashAfter(l.cash, subject, a.quantity))
    case BankSize => l.(bankSize := BankSizeAfter(l.bankSize, a.quantity))
    case Buy => unseen(l, a)
    case Sell => unseen(l, a)
    case HalfDividend => unseen(l, a)
    case Give => unseen(l, a)
    case Float => unseen(l, a)
    case Close => unseen(l, a)
    case Next => unseen(l, a)
    case Income => unseen(l, a)
    case Rounding => unseen(l, a)
    case CompanyCredits => unseen(l, a)
    case Holdings => l
    case Values => l
    case ListGames => l
    case Bank => l
    case Companies => l
    case Remove => l
    case Set => l
    case Open => l
    case Delete => l
    case Start => l
  }

  /** `open`, `delete` and `start`, which go through the store under the
      lower-cased object. */
  function Switched(s: Session, a: Action): (o: Outcome)
    requires ValidLedger(s.ledger)
    ensures ValidLedger(o.session.ledger)
  {
    if GameName(a).None? then Outcome(s, true)
    else if a.verb.Some? && ManagesGames(a.verb.value) then Outcome(SwitchedTo(s, a.verb.value, GameName(a).value), false)
    else Outcome(s, false)
  }

  /** The store operations of `open`, `deleteGame` and `newGame` on a name:
      an open of a stored game makes it active; a delete drops a stored
      game and, when it was the active one, leaves no game active; a start
      of a new name resets the ledger and makes the name active. */
  function SwitchedTo(s: Session, v: Verb, name: string): (t: Session)
    requires ValidLedger(s.ledger) && ManagesGames(v)
    ensures ValidLedger(t.ledger)
    ensures v == Open ==> t == if name in s.games then s.(name := name) else s
    ensures v == Delete ==> t.games == s.games - {name} && t.ledger == s.ledger
    ensures v == Delete ==> t.name == if name in s.games && s.name == name then "" else s.name
    ensures v == Start ==> t.games == s.games && (name in s.games ==> t == s)
    ensures v == Start && name !in s.games ==> t.ledger == EmptyLedger() && t.name == name
  {
    if v == Open then (if name in s.games then s.(name := name) else s)
    else if v == Delete then
      if name in s.games then s.(games := s.games - {name}, name := if s.name == name then "" else s.name)
      else s
    else if name in s.games then s
    else s.(ledger := EmptyLedger(), name := name)
  }

  /** `perform(line, true)` inside a replay: nothing is logged. A replayed
      `open` only switches the game: the reset and nested replay that
      `perform` then runs are not part of this model. Lists the program
      writes never hold an `open` (`CanonicalStaysInGame`). */
  function RunOf(s: Session, line: string, unseen: Unseen): (o: Outcome)
    requires ValidLedger(s.ledger) && KeepsValid(unseen)
    ensures ValidLedger(o.session.ledger)
  {
    match Parse(line)
    case Throws => Outcome(s, true)
    case Ok(a) => Acted(s, a, unseen)
  }

  /** `commandHistoryArray.map(command => perform(command, silent))`: the
      lines in order, until one throws. */
  function Replayed(s: Session, lines: seq<string>, unseen: Unseen): (o: Outcome)
    requires ValidLedger(s.ledger) && KeepsValid(unseen)
    ensures ValidLedger(o.session.ledger)
    decreases |lines|
  {
    if lines == [] then Outcome(s, false)
    else
      var o := RunOf(s, lines[0], unseen);
      if o.thrown then o else Replayed(o.session, lines[1..], unseen)
  }

  /** `_updateGameState(lines)`: reset, then replay. */
  function Rebuilt(s: Session, lines: seq<string>, unseen: Unseen): (o: Outcome)
    requires KeepsValid(unseen)
    ensures ValidLedger(o.session.ledger)
  {
    Replayed(s.(ledger := EmptyLedger()), lines, unseen)
  }

  /** The switch followed, for `open`, by the replay of the opened game. */
  function Applied(s: Session, a: Action, unseen: Unseen): (o: Outcome)
    requires ValidLedger(s.ledger) && KeepsValid(unseen)
    ensures ValidLedger(o.session.ledger)
  {
    var o := Acted(s, a, unseen);
    if a.verb == Some(Open) && !o.thrown then Rebuilt(o.session, Log(o.session), unseen) else o
  }

  /** `perform(command, silent)`: parse, act, then log. */
  function Performed(s: Session, command: string, silent: bool, unseen: Unseen): (o: Outcome)
    requires ValidLedger(s.ledger) && KeepsValid(unseen)
    ensures ValidLedger(o.session.ledger)
  {
    match Parse(command)
    case Throws => Outcome(s, true)
    case Ok(a) => Logged(Applied(s, a, unseen), a, silent)
  }

  /** The tail of `perform`: unless the command threw or runs silently, the
      record of a logged verb is appended to the active game's list. */
  function Logged(o: Outcome, a: Action, silent: bool): (r: Outcome)
  {
    if o.thrown || silent || Record(a).None? then o
    else
      var t := o.session;
      Outcome(t.(games := t.games[t.name := Log(t) + [Record(a).value]]), false)
  }

  /** Whether performing `a` runs a replay, which leaves the mode silent:
      an `open` of a game with a non-empty list. */
  predicate Replays(s: Session, a: Action, unseen: Unseen)
    requires ValidLedger(s.ledger) && KeepsValid(unseen)
  {
    a.verb == Some(Open) && !Acted(s, a, unseen).thrown && Log(Acted(s, a, unseen).session) != []
  }

  /** `undo()`: the popped entry (`undefined` for an empty list) and the
      session after the rest is replayed and saved; a replay that throws
      leaves the list as it was. */
  function Undone(s: Session, unseen: Unseen): (r: (Outcome, Option<string>))
    requires KeepsValid(unseen)
    ensures ValidLedger(r.0.session.ledger)
  {
    var h := Log(s);
    var undid := if h == [] then None else Some(h[|h| - 1]);
    var rest := if h == [] then [] else h[..|h| - 1];
    var o := Rebuilt(s, rest, unseen);
    if o.thrown then (o, undid)
    else (Outcome(o.session.(games := o.session.games[o.session.name := rest]), false), undid)
  }

  // ------------------------------------------------- records read back

  /** An upper-cased token, as the parser leaves subjects and objects. */
  predicate Token(w: string) {
    Word(w) && ToUpper(w) == w
  }

  /** The verbs logged as `subject verb quantity`. */
  predicate AmountVerb(v: Verb) {
    v in {Dividend, HalfDividend, Value, Cash, Float, Income}
  }

  /** The verbs logged as `verb object`. */
  predicate ObjectVerb(v: Verb) {
    v in {Close, Next, Rounding}
  }

  /** `subject verb quantity` with a numeric quantity; a value may also be
      NaN, which is how `X value 1` comes out of the parser. */
  predicate AmountShape(a: Action) {
    a.verb.Some? && AmountVerb(a.verb.value) && a.subject.Some? && Token(a.subject.value)
    && a.obj == Null && a.price.None? && a.source == Absent
    && if a.verb == Some(Value) then a.quantity != Int(1) else a.quantity.Int?
  }

  /** A buy or sell of a named company. A truthy price is written and read
      back; a falsy one is not written, and reads back as 0 when nothing
      follows, or as NaN when `from source` follows (the word `from` is
      then taken for the price). */
  predicate TradeShape(a: Action) {
    (a.verb == Some(Buy) || a.verb == Some(Sell)) && a.subject.Some? && Token(a.subject.value)
    && a.obj.Name? && Token(a.obj.name) && a.quantity.Int? && a.price.Some?
    && if a.verb == Some(Buy) && a.source.Has? then
         Token(a.source.value) && (Truthy(JNum(a.price.value)) || (a.price.value.NaN? && a.source.value != "FROM"))
       else a.price.value.Int? && a.source == (if a.verb == Some(Buy) then Nil else Absent)
  }

  predicate GiveShape(a: Action) {
    a.verb == Some(Give) && a.subject.Some? && Token(a.subject.value) && a.obj.Name? && Token(a.obj.name)
    && a.price.None? && a.source == Absent
  }

  predicate ObjectShape(a: Action) {
    a.verb.Some? && ObjectVerb(a.verb.value) && a.obj.Name? && Token(a.obj.name)
    && a == Action(a.verb, a.obj, None, Int(0), None, Absent, a.comment)
  }

  predicate BankSizeShape(a: Action) {
    a == Action(Some(BankSize), Null, None, a.quantity, None, Absent, a.comment) && Truthy(JNum(a.quantity))
  }

  predicate CreditsShape(a: Action) {
    a == Action(Some(CompanyCredits), True, None, Int(0), None, Absent, a.comment)
  }

  predicate CommentShape(a: Action) {
    a == NullAction(a.comment) && a.comment.Some?
  }

  /** The actions whose record reads back as the action itself. */
  predicate Canonical(a: Action) {
    Remark(a.comment) &&
    (AmountShape(a) || TradeShape(a) || GiveShape(a) || ObjectShape(a)
     || BankSizeShape(a) || CreditsShape(a) || CommentShape(a))
  }

  /** The normalized record of a canonical action is parsed back into that
      very action, so a replay of the log repeats what was performed. */
  lemma RecordReadsBack(a: Action)
    requires Canonical(a)
    ensures Record(a).Some? && Parse(Record(a).value) == Ok(a)
  {
    if AmountShape(a) {
      AmountReadsBack(a);
    } else if TradeShape(a) {
      TradeReadsBack(a);
    } else if GiveShape(a) {
      GiveReadsBack(a);
    } else if ObjectShape(a) {
      ObjectReadsBack(a);
    } else if BankSizeShape(a) {
      BankSizeReadsBack(a);
    } else if CreditsShape(a) {
      CreditsReadsBack(a);
    } else {
      CommentReadsBack(a);
    }
  }

  /** A record whose entry is a line of words is that line with the
      comment after ` # `. */
  lemma RecordOfEntry(a: Action, words: seq<string>)
    requires |words| >= 1 && forall i :: 0 <= i < |words| ==> Word(words[i])
    requires Remark(a.comment) && Entry(a) == Some(Join(words, ' '))
    ensures Record(a) == Some(Line(words, a.comment))
  {
    TrimLine(words, a.comment);
    if a.comment.Some? {
      assert Join(words, ' ') + " # " + a.comment.value == Line(words, a.comment);
    }
  }

  // amounts

  lemma AmountVerbWord(v: Verb)
    requires AmountVerb(v)
    ensures Word(VerbName(v))
  {
    LettersWord(VerbName(v));
  }

  /** The verbs of the three-word grammar are found under their own names. */
  lemma AmountVerbName(v: Verb)
    requires AmountVerb(v)
    ensures ThreeTokenVerb(VerbName(v)) == Some(v)
  {
  }

  /** `subject verb quantity` reads back as the same amount action. */
  lemma AmountReadsBack(a: Action)
    requires AmountShape(a) && Remark(a.comment)
    ensures Record(a).Some? && Parse(Record(a).value) == Ok(a)
  {
    var w := [a.subject.value, VerbName(a.verb.value), NumToString(a.quantity)];
    NumberWord(a.quantity);
    AmountVerbWord(a.verb.value);
    AmountEntry(a, w);
    RecordOfEntry(a, w);
    ParseLine(w, a.comment);
    DispatchArity(w, a.comment);
    AmountGrammar(a, w);
  }

  lemma AmountEntry(a: Action, w: seq<string>)
    requires a.verb.Some? && AmountVerb(a.verb.value) && a.subject.Some?
    requires w == [a.subject.value, VerbName(a.verb.value), NumToString(a.quantity)]
    ensures Entry(a) == Some(Join(w, ' '))
  {
    JoinThree(w[0], w[1], w[2]);
  }

  /** The three-word grammar gives the amount action back. */
  lemma AmountGrammar(a: Action, w: seq<string>)
    requires AmountShape(a)
    requires w == [a.subject.value, VerbName(a.verb.value), NumToString(a.quantity)]
    ensures ParseThree(w, a.comment) == a
  {
    var v := a.verb.value;
    AmountVerbName(v);
    ToUpperIdempotent(a.subject.value);
    if a.quantity.Int? {
      ParseIntToString(a.quantity.n);
      AmountOfNumber(w, a);
    } else {
      NaNText();
      ParseIntUpper(NumToString(NaN));
      assert ParseInt(ObjText(Name(ToUpper(w[2])))).None?;
      AmountOfNaN(w, a);
    }
  }

  lemma NaNText()
    ensures ParseInt(NumToString(NaN)).None?
  {
    var n := NumToString(NaN);
    assert n[0] == 'N' && !IsWhitespace(n[0]);
    assert DigitPrefix(n, 10) == [];
  }

  lemma AmountOfNumber(w: seq<string>, a: Action)
    requires |w| == 3 && a.verb.Some? && AmountVerb(a.verb.value) && ThreeTokenVerb(w[1]) == a.verb
    requires a.subject == Some(ToUpper(w[0])) && a.quantity.Int? && ParseInt(w[2]) == Some(a.quantity.n)
    requires a.obj == Null && a.price.None? && a.source == Absent
    requires a.verb == Some(Value) ==> a.quantity != Int(1)
    ensures ParseThree(w, a.comment) == a
  {
    AmountThree(a, ToUpper(w[0]), ParseInt(ObjText(Null)));
  }

  lemma AmountThree(a: Action, subject: string, reading: Option<int>)
    requires a.verb.Some? && AmountVerb(a.verb.value) && a.subject == Some(subject) && a.quantity.Int?
    requires a.obj == Null && a.price.None? && a.source == Absent
    requires a.verb == Some(Value) ==> a.quantity != Int(1)
    ensures Three(a.verb, subject, Null, Some(a.quantity.n), reading, a.comment) == a
  {
  }

  lemma AmountOfNaN(w: seq<string>, a: Action)
    requires |w| == 3 && a.verb == Some(Value) && ThreeTokenVerb(w[1]) == a.verb
    requires a.subject == Some(ToUpper(w[0])) && a.quantity == NaN && ParseInt(w[2]).None?
    requires ParseInt(ObjText(Name(ToUpper(w[2])))).None?
    requires a.obj == Null && a.price.None? && a.source == Absent
    ensures ParseThree(w, a.comment) == a
  {
    ValueOfWord(ToUpper(w[0]), Name(ToUpper(w[2])), a.comment);
  }

  // trades

  /** `@price` reads back as the price. */
  lemma PriceTokenOf(n: int)
    ensures PriceToken("@" + IntToString(n)) == Int(n)
  {
    var t := "@" + IntToString(n);
    assert t[..1] == "@" && t[1..] == IntToString(n);
    ParseIntToString(n);
  }

  /** The word `from` that introduces a source. */
  lemma FromWord()
    ensures Word("from") && ToUpper("from") == "FROM"
  {
    LettersWord("from");
  }

  /** `from` in the place of the price reads as NaN. */
  lemma FromPrice()
    ensures PriceToken("from") == NaN
  {
    var f := "from";
    assert f[0] == 'f' && !IsWhitespace(f[0]) && DigitPrefix(f, 10) == [];
    assert f[..1] != "@";
  }

  lemma TradeVerbWord(v: Verb)
    requires v == Buy || v == Sell
    ensures Word(VerbName(v)) && ManyTokenVerb(VerbName(v)) == Some(v)
  {
    LettersWord(VerbName(v));
  }

  lemma PriceWord(x: Num)
    ensures Word("@" + NumToString(x))
  {
    NumberWord(x);
    assert Word("@");
    WordConcat("@", NumToString(x));
  }

  /** The words of a buy or sell record: subject, verb, count, company,
      then `@price` when the price is truthy and `from source` when there
      is a source. */
  function TradeWords(a: Action): seq<string>
    requires TradeShape(a)
  {
    [a.subject.value, VerbName(a.verb.value), NumToString(a.quantity), a.obj.name]
    + (if Truthy(JNum(a.price.value)) then ["@" + NumToString(a.price.value)] else [])
    + (if a.source.Has? then ["from", a.source.value] else [])
  }

  /** `subject buy|sell count company [@price] [from source]` reads back as
      the same trade. */
  lemma TradeReadsBack(a: Action)
    requires TradeShape(a) && Remark(a.comment)
    ensures Record(a).Some? && Parse(Record(a).value) == Ok(a)
  {
    var w := TradeWords(a);
    TradeWordsAreWords(a);
    TradeEntry(a);
    RecordOfEntry(a, w);
    ParseLine(w, a.comment);
    DispatchArity(w, a.comment);
    TradeGrammar(a);
  }

  lemma TradeWordsAreWords(a: Action)
    requires TradeShape(a)
    ensures forall i :: 0 <= i < |TradeWords(a)| ==> Word(TradeWords(a)[i])
  {
    NumberWord(a.quantity);
    TradeVerbWord(a.verb.value);
    PriceWord(a.price.value);
    FromWord();
  }

  /** The record of a trade is its words on one line. */
  lemma TradeEntry(a: Action)
    requires TradeShape(a)
    ensures Entry(a) == Some(Join(TradeWords(a), ' '))
  {
    var head := [a.subject.value, VerbName(a.verb.value), NumToString(a.quantity), a.obj.name];
    var price := if Truthy(JNum(a.price.value)) then ["@" + NumToString(a.price.value)] else [];
    var source := if a.source.Has? then ["from", a.source.value] else [];
    assert TradeWords(a) == head + price + source;
    TradeText(a);
    TradePriceText(a.price.value, price);
    TradeSourceText(a.source, source);
    JoinTrade(head, price, source);
  }

  lemma TradeText(a: Action)
    requires (a.verb == Some(Buy) || a.verb == Some(Sell)) && a.subject.Some? && a.obj.Name?
    requires a.verb == Some(Sell) ==> a.source == Absent
    ensures Entry(a) == Some(a.subject.value + " " + VerbName(a.verb.value) + " " + NumToString(a.quantity)
      + " " + a.obj.name + PriceText(a.price) + SourceText(a.source))
  {
    if a.verb == Some(Sell) {
      SellText(a, a.subject.value + " " + VerbName(a.verb.value) + " " + NumToString(a.quantity)
        + " " + a.obj.name + PriceText(a.price));
    } else {
      BuyText(a);
    }
  }

  lemma BuyText(a: Action)
    requires a.verb == Some(Buy) && a.subject.Some? && a.obj.Name?
    ensures Entry(a) == Some(a.subject.value + " " + VerbName(a.verb.value) + " " + NumToString(a.quantity)
      + " " + a.obj.name + PriceText(a.price) + SourceText(a.source))
  {
  }

  lemma SellText(a: Action, e: string)
    requires a.verb == Some(Sell) && a.subject.Some? && a.obj.Name? && a.source == Absent
    requires e == a.subject.value + " " + VerbName(a.verb.value) + " " + NumToString(a.quantity)
      + " " + a.obj.name + PriceText(a.price)
    ensures Entry(a) == Some(e) && e + SourceText(a.source) == e
  {
    assert SourceText(a.source) == "";
  }

  lemma TradePriceText(x: Num, price: seq<string>)
    requires price == if Truthy(JNum(x)) then ["@" + NumToString(x)] else []
    ensures PriceText(Some(x)) == if price == [] then "" else " " + price[0]
  {
  }

  lemma TradeSourceText(source: Field<string>, words: seq<string>)
    requires source.Has? ==> source.value != ""
    requires words == if source.Has? then ["from", source.value] else []
    ensures SourceText(source) == if words == [] then "" else " " + words[0] + " " + words[1]
  {
  }

  /** Joining the optional price and source words onto the first four. */
  lemma JoinTrade(head: seq<string>, price: seq<string>, source: seq<string>)
    requires |head| == 4 && |price| <= 1 && (source == [] || |source| == 2)
    ensures Join(head + price + source, ' ') ==
      head[0] + " " + head[1] + " " + head[2] + " " + head[3]
      + (if price == [] then "" else " " + price[0])
      + (if source == [] then "" else " " + source[0] + " " + source[1])
  {
    JoinThree(head[0], head[1], head[2]);
    JoinAppend([head[0], head[1], head[2]], head[3]);
    assert [head[0], head[1], head[2]] + [head[3]] == head;
    var priced := head + price;
    if price != [] {
      JoinAppend(head, price[0]);
      assert priced == head + [price[0]];
    } else {
      assert priced == head;
    }
    if source != [] {
      JoinAppend(priced, source[0]);
      JoinAppend(priced + [source[0]], source[1]);
      assert priced + source == priced + [source[0]] + [source[1]];
    } else {
      assert priced + source == priced;
    }
  }

  /** The variable-length grammar gives the trade action back. */
  lemma TradeGrammar(a: Action)
    requires TradeShape(a)
    ensures |TradeWords(a)| > 3 && ParseMany(TradeWords(a), a.comment) == Ok(a)
  {
    var head := [a.subject.value, VerbName(a.verb.value), NumToString(a.quantity), a.obj.name];
    var priced := Truthy(JNum(a.price.value));
    if a.source.Has? && priced {
      var w := head + ["@" + NumToString(a.price.value)] + ["from", a.source.value];
      assert TradeWords(a) == w;
      PricedSourceGrammar(a, head, w);
    } else if a.source.Has? {
      var w := head + ["from", a.source.value];
      assert TradeWords(a) == w;
      SourceGrammar(a, head, w);
    } else if priced {
      var w := head + ["@" + NumToString(a.price.value)];
      assert TradeWords(a) == w;
      PricedGrammar(a, head, w);
    } else {
      assert TradeWords(a) == head;
      TradeHead(a, head);
      TradeOfFour(head, a.comment);
    }
  }

  /** `subject buy count company @price from source`. */
  lemma PricedSourceGrammar(a: Action, head: seq<string>, w: seq<string>)
    requires TradeShape(a) && a.source.Has? && Truthy(JNum(a.price.value))
    requires head == [a.subject.value, VerbName(a.verb.value), NumToString(a.quantity), a.obj.name]
    requires w == head + ["@" + NumToString(a.price.value)] + ["from", a.source.value]
    ensures ParseMany(w, a.comment) == Ok(a)
  {
    assert a.verb == Some(Buy) && a.price.value.Int?;
    TradeHead(a, head);
    ToUpperIdempotent(a.source.value);
    SevenWords(head, "@" + NumToString(a.price.value), "from", a.source.value, w);
    PricedSourceTail(a.price.value);
    BuyOfSeven(w, a.comment);
  }

  /** The places of the words of a priced trade from a source. */
  lemma SevenWords(head: seq<string>, x: string, y: string, z: string, w: seq<string>)
    requires |head| == 4 && w == head + [x] + [y, z]
    ensures |w| == 7 && w[0] == head[0] && w[1] == head[1] && w[2] == head[2] && w[3] == head[3]
    ensures w[4] == x && w[5] == y && w[6] == z
  {
  }

  lemma PricedSourceTail(price: Num)
    requires price.Int?
    ensures PriceToken("@" + NumToString(price)) == price && ToUpper("from") == "FROM"
  {
    PriceTokenOf(price.n);
    FromWord();
  }

  /** `subject buy count company from source`: `from` is read as the price,
      which is NaN. */
  lemma SourceGrammar(a: Action, head: seq<string>, w: seq<string>)
    requires TradeShape(a) && a.source.Has? && !Truthy(JNum(a.price.value))
    requires head == [a.subject.value, VerbName(a.verb.value), NumToString(a.quantity), a.obj.name]
    requires w == head + ["from", a.source.value]
    ensures ParseMany(w, a.comment) == Ok(a)
  {
    assert a.verb == Some(Buy) && a.price.value == NaN && a.source.value != "FROM";
    TradeHead(a, head);
    assert w[0] == head[0] && w[1] == head[1] && w[2] == head[2] && w[3] == head[3];
    FromWord();
    FromPrice();
    ToUpperIdempotent(a.source.value);
    assert w[4] == "from" && w[5] == a.source.value;
    assert PriceToken(w[4]) == a.price.value;
    assert ToUpper(w[5]) == a.source.value;
    BuyOfSix(w, a.comment);
    assert a == Action(Some(Buy), Name(ToUpper(w[3])), Some(ToUpper(w[0])),
      Int(ParseInt(w[2]).value), Some(PriceToken(w[4])), Has(ToUpper(w[5])), a.comment);
  }

  /** `subject buy|sell count company @price`. */
  lemma PricedGrammar(a: Action, head: seq<string>, w: seq<string>)
    requires TradeShape(a) && !a.source.Has? && Truthy(JNum(a.price.value))
    requires head == [a.subject.value, VerbName(a.verb.value), NumToString(a.quantity), a.obj.name]
    requires w == head + ["@" + NumToString(a.price.value)]
    ensures ParseMany(w, a.comment) == Ok(a)
  {
    TradeHead(a, head);
    FiveWords(head, "@" + NumToString(a.price.value), w);
    PriceTokenOf(a.price.value.n);
    TradeOfFive(w, a.comment);
    PricedAction(a, ManyTokenVerb(w[1]), ToUpper(w[3]), ToUpper(w[0]), ParseInt(w[2]).value, PriceToken(w[4]));
  }

  /** The places of the words of a priced trade. */
  lemma FiveWords(head: seq<string>, x: string, w: seq<string>)
    requires |head| == 4 && w == head + [x]
    ensures |w| == 5 && w[0] == head[0] && w[1] == head[1] && w[2] == head[2] && w[3] == head[3] && w[4] == x
  {
  }

  /** The action the five-word grammar builds is the priced trade itself. */
  lemma PricedAction(a: Action, verb: Option<Verb>, company: string, subject: string, q: int, price: Num)
    requires TradeShape(a) && !a.source.Has?
    requires verb == a.verb && company == a.obj.name && subject == a.subject.value
    requires Int(q) == a.quantity && price == a.price.value
    ensures a == Action(verb, Name(company), Some(subject), Int(q), Some(price), if verb == Some(Buy) then Nil else Absent, a.comment)
  {
  }

  /** The first four words of a trade record give back its verb, subject,
      count and company. */
  lemma TradeHead(a: Action, head: seq<string>)
    requires TradeShape(a)
    requires head == [a.subject.value, VerbName(a.verb.value), NumToString(a.quantity), a.obj.name]
    ensures ManyTokenVerb(head[1]) == a.verb && ParseInt(head[2]) == Some(a.quantity.n)
    ensures ToUpper(head[0]) == a.subject.value && ToUpper(head[3]) == a.obj.name
  {
    TradeVerbWord(a.verb.value);
    ToUpperIdempotent(a.subject.value);
    ToUpperIdempotent(a.obj.name);
    ParseIntToString(a.quantity.n);
  }

  // gives

  /** `subject give amount to name` reads back as the same give. */
  lemma GiveReadsBack(a: Action)
    requires GiveShape(a) && Remark(a.comment)
    ensures Record(a).Some? && Parse(Record(a).value) == Ok(a)
  {
    var w := [a.subject.value, "give", NumToString(a.quantity), "to", a.obj.name];
    NumberWord(a.quantity);
    GiveWords();
    GiveEntry(a, w);
    RecordOfEntry(a, w);
    ParseLine(w, a.comment);
    DispatchArity(w, a.comment);
    GiveGrammar(a, w);
  }

  lemma GiveEntry(a: Action, w: seq<string>)
    requires a.verb == Some(Give) && a.subject.Some? && a.obj.Name?
    requires w == [a.subject.value, "give", NumToString(a.quantity), "to", a.obj.name]
    ensures Entry(a) == Some(Join(w, ' '))
  {
    JoinThree(w[0], w[1], w[2]);
    JoinAppend([w[0], w[1], w[2]], w[3]);
    JoinAppend([w[0], w[1], w[2], w[3]], w[4]);
    assert [w[0], w[1], w[2]] + [w[3]] == [w[0], w[1], w[2], w[3]];
    assert [w[0], w[1], w[2], w[3]] + [w[4]] == w;
    var x := w[0] + " " + w[1] + " " + w[2];
    assert x + " to " + w[4] == x + " " + w[3] + " " + w[4];
  }

  lemma GiveGrammar(a: Action, w: seq<string>)
    requires GiveShape(a)
    requires w == [a.subject.value, "give", NumToString(a.quantity), "to", a.obj.name]
    ensures ParseMany(w, a.comment) == Ok(a)
  {
    assert ManyTokenVerb(w[1]) == Some(Give) && ToUpper(w[3]) == "TO" by {
      GiveWords();
    }
    GiveOfFive(w, a.comment);
    assert OfParse(ParseInt(w[2])) == a.quantity by {
      ParseIntOfNumber(a.quantity);
    }
  }

  /** The literal words of a give record. */
  lemma GiveWords()
    ensures Word("give") && Word("to") && ManyTokenVerb("give") == Some(Give) && ToUpper("to") == "TO"
  {
    LettersWord("give");
    LettersWord("to");
  }

  // close, next, rounding

  lemma ObjectVerbName(v: Verb)
    requires ObjectVerb(v)
    ensures Word(VerbName(v)) && TwoTokenVerb(VerbName(v)) == Some(v)
  {
    LettersWord(VerbName(v));
  }

  /** `close|next|rounding name` reads back as the same action. */
  lemma ObjectReadsBack(a: Action)
    requires ObjectShape(a) && Remark(a.comment)
    ensures Record(a).Some? && Parse(Record(a).value) == Ok(a)
  {
    var w := [VerbName(a.verb.value), a.obj.name];
    ObjectVerbName(a.verb.value);
    JoinAppend([w[0]], w[1]);
    assert [w[0]] + [w[1]] == w;
    RecordOfEntry(a, w);
    ParseLine(w, a.comment);
    DispatchArity(w, a.comment);
  }

  // banksize, companycredits, comments

  /** `banksize amount` reads back as the same banksize. */
  lemma BankSizeReadsBack(a: Action)
    requires BankSizeShape(a) && Remark(a.comment)
    ensures Record(a).Some? && Parse(Record(a).value) == Ok(a)
  {
    var w := ["banksize", NumToString(a.quantity)];
    BankSizeWord();
    NumberWord(a.quantity);
    BankSizeEntry(a, w);
    RecordOfEntry(a, w);
    ParseLine(w, a.comment);
    DispatchArity(w, a.comment);
    BankSizeGrammar(a, w);
  }

  lemma BankSizeWord()
    ensures Word("banksize") && TwoTokenVerb("banksize") == Some(BankSize)
  {
    LettersWord("banksize");
  }

  lemma BankSizeEntry(a: Action, w: seq<string>)
    requires BankSizeShape(a) && w == ["banksize", NumToString(a.quantity)]
    ensures Entry(a) == Some(Join(w, ' '))
  {
    JoinAppend([w[0]], w[1]);
    assert [w[0]] + [w[1]] == w;
    assert "banksize" + " " + "" + w[1] == w[0] + " " + w[1];
  }

  lemma BankSizeGrammar(a: Action, w: seq<string>)
    requires BankSizeShape(a) && TwoTokenVerb("banksize") == Some(BankSize)
    requires w == ["banksize", NumToString(a.quantity)] && ToUpper(w[1]) == w[1]
    ensures ParseTwo(w[0], w[1], a.comment) == a
  {
    ParseIntToString(a.quantity.n);
  }

  /** `companycredits` reads back as itself. */
  lemma CreditsReadsBack(a: Action)
    requires CreditsShape(a) && Remark(a.comment)
    ensures Record(a).Some? && Parse(Record(a).value) == Ok(a)
  {
    CreditsRecord(a);
    CreditsParse(a);
  }

  lemma CreditsRecord(a: Action)
    requires CreditsShape(a) && Remark(a.comment)
    ensures Record(a) == Some(Line(["companycredits"], a.comment))
  {
    CreditsWord();
    RecordOfEntry(a, ["companycredits"]);
  }

  lemma CreditsParse(a: Action)
    requires CreditsShape(a) && Remark(a.comment)
    ensures Parse(Line(["companycredits"], a.comment)) == Ok(a)
  {
    var w := ["companycredits"];
    CreditsWord();
    ParseLine(w, a.comment);
    DispatchArity(w, a.comment);
  }

  lemma CreditsWord()
    ensures Word("companycredits") && OneTokenVerb("companycredits") == Some(CompanyCredits)
  {
    LettersWord("companycredits");
  }

  /** A line holding only a comment is logged as `# comment`, which reads
      back as the same comment-only record. */
  lemma CommentReadsBack(a: Action)
    requires CommentShape(a) && Remark(a.comment)
    ensures Record(a).Some? && Parse(Record(a).value) == Ok(a)
  {
    var c := a.comment.value;
    CommentRecord(a);
    ParseCommentOnly(c);
  }

  lemma CommentRecord(a: Action)
    requires CommentShape(a) && Remark(a.comment)
    ensures Record(a) == Some("#" + " " + a.comment.value)
  {
    CommentEntry(a);
    CommentTrim(a.comment.value);
  }

  lemma CommentEntry(a: Action)
    requires CommentShape(a) && Remark(a.comment)
    ensures Record(a) == Some(Trim(" # " + a.comment.value))
  {
    assert Entry(a) == Some("");
    assert "" + " # " + a.comment.value == " # " + a.comment.value;
  }

  lemma CommentTrim(c: string)
    requires Remark(Some(c))
    ensures Trim(" # " + c) == "#" + " " + c
  {
    var line := "#" + " " + c;
    assert (" # " + c)[1..] == line;
    assert TrimStart(" # " + c) == line by {
      assert !IsWhitespace(line[0]);
    }
    TrimmedEnds(c);
    assert line[|line| - 1] == c[|c| - 1];
    TrimIdentity(line);
  }

  // ------------------------------------------------------- replay lemmas

  /** No line of `lines` opens, deletes or starts a game. */
  predicate LedgerOnly(lines: seq<string>) {
    forall i :: 0 <= i < |lines| ==> Parse(lines[i]).Throws? || !Switches(Parse(lines[i]).action)
  }

  /** An action that goes through the store rather than the ledger. */
  predicate Switches(a: Action) {
    a.verb.Some? && ManagesGames(a.verb.value)
  }

  /** `perform` never reaches the `PR…` case of `payDividends`: the parsed
      quantity is always a number, so the stored list does not matter. */
  lemma BookedIgnoresHistory(l: Ledger, h1: seq<string>, h2: seq<string>, a: Action, unseen: Unseen)
    requires ValidLedger(l) && KeepsValid(unseen) && a.verb.Some?
    ensures Booked(l, h1, a, unseen) == Booked(l, h2, a, unseen)
  {
    NumericRateIgnoresHistory(a.quantity, h1, h2, SubjectText(a.subject));
  }

  /** A line that manages no game changes only the ledger, and the same
      ledger comes out whatever the session's name and stored lists. */
  lemma RunOfIgnoresStore(s: Session, t: Session, line: string, unseen: Unseen)
    requires ValidLedger(s.ledger) && s.ledger == t.ledger && KeepsValid(unseen)
    requires Parse(line).Throws? || !Switches(Parse(line).action)
    ensures RunOf(s, line, unseen).thrown == RunOf(t, line, unseen).thrown
    ensures RunOf(s, line, unseen).session == s.(ledger := RunOf(t, line, unseen).session.ledger)
  {
    if Parse(line).Ok? && Parse(line).action.verb.Some? {
      BookedIgnoresHistory(s.ledger, Log(s), Log(t), Parse(line).action, unseen);
    }
  }

  /** Replaying lines that manage no game: the outcome depends on the ledger
      and the lines only, and the name and the stored lists stay as they are. */
  lemma {:induction false} ReplayIgnoresStore(s: Session, t: Session, lines: seq<string>, unseen: Unseen)
    requires ValidLedger(s.ledger) && s.ledger == t.ledger && KeepsValid(unseen) && LedgerOnly(lines)
    ensures Replayed(s, lines, unseen).thrown == Replayed(t, lines, unseen).thrown
    ensures Replayed(s, lines, unseen).session == s.(ledger := Replayed(t, lines, unseen).session.ledger)
    decreases |lines|
  {
    if lines != [] {
      RunOfIgnoresStore(s, t, lines[0], unseen);
      var os := RunOf(s, lines[0], unseen);
      var ot := RunOf(t, lines[0], unseen);
      if !os.thrown {
        assert LedgerOnly(lines[1..]) by {
          forall i | 0 <= i < |lines[1..]| ensures Parse(lines[1..][i]).Throws? || !Switches(Parse(lines[1..][i]).action) {
            assert lines[1..][i] == lines[i + 1];
          }
        }
        ReplayIgnoresStore(os.session, ot.session, lines[1..], unseen);
      }
    }
  }

  /** Replaying a list and one more line is replaying the list, then the line. */
  lemma {:induction false} ReplayAppend(s: Session, lines: seq<string>, line: string, unseen: Unseen)
    requires ValidLedger(s.ledger) && KeepsValid(unseen)
    ensures var o := Replayed(s, lines, unseen);
      Replayed(s, lines + [line], unseen) == if o.thrown then o else RunOf(o.session, line, unseen)
    decreases |lines|
  {
    if lines == [] {
      assert [] + [line] == [line];
    } else {
      assert (lines + [line])[0] == lines[0];
      assert (lines + [line])[1..] == lines[1..] + [line];
      var o := RunOf(s, lines[0], unseen);
      if !o.thrown {
        ReplayAppend(o.session, lines[1..], line, unseen);
      }
    }
  }

  /** The session is what its active game's list rebuilds. */
  predicate Replayable(s: Session, unseen: Unseen)
    requires KeepsValid(unseen)
  {
    LedgerOnly(Log(s)) && Rebuilt(s, Log(s), unseen) == Outcome(s, false)
  }

  /** What `perform` does with a command that manages no game: the ledger
      changes by the switch alone, and the record, if any, is appended to
      the active game's list. */
  lemma PerformedLedgerCommand(s: Session, command: string, unseen: Unseen)
    requires ValidLedger(s.ledger) && KeepsValid(unseen)
    requires Parse(command).Ok? && !Switches(Parse(command).action) && Record(Parse(command).action).Some?
    ensures var a := Parse(command).action;
      Performed(s, command, false, unseen) ==
      Outcome(s.(ledger := Acted(s, a, unseen).session.ledger, games := s.games[s.name := Log(s) + [Record(a).value]]), false)
  {
  }

  /** `c dividend w` for a word `parseInt` cannot read: the parser takes
      `w` as the object and leaves the quantity at 1, and `perform` pays
      `action.quantity`, so each share earns 1 and the list records
      `c dividend 1`. */
  lemma DividendWordPaysOne(s: Session, c: string, w: string, unseen: Unseen)
    requires ValidLedger(s.ledger) && KeepsValid(unseen)
    requires Token(c) && Word(w) && ParseInt(w).None?
    ensures Performed(s, c + " dividend " + w, false, unseen) ==
      Outcome(s.(ledger := PaidDividends(s.ledger, c, 1), games := s.games[s.name := Log(s) + [c + " dividend 1"]]), false)
  {
    var a := Action(Some(Dividend), Name(ToUpper(w)), Some(c), Int(1), None, Absent, None);
    DividendWordParse(c, w);
    DividendOneApplied(s, a, c, unseen);
    DividendOneRecord(a, c);
    PerformedParsed(s, c + " dividend " + w, a, unseen);
  }

  /** `perform` of a line that parses to `a`: the switch, then the log. */
  lemma PerformedParsed(s: Session, command: string, a: Action, unseen: Unseen)
    requires ValidLedger(s.ledger) && KeepsValid(unseen) && Parse(command) == Ok(a)
    ensures Performed(s, command, false, unseen) == Logged(Applied(s, a, unseen), a, false)
  {
  }

  /** A dividend of 1 pays 1 per share, whatever the list holds. */
  lemma DividendOneApplied(s: Session, a: Action, c: string, unseen: Unseen)
    requires ValidLedger(s.ledger) && KeepsValid(unseen)
    requires a.verb == Some(Dividend) && a.subject == Some(c) && a.quantity == Int(1)
    ensures Applied(s, a, unseen) == Outcome(s.(ledger := PaidDividends(s.ledger, c, 1)), false)
  {
    BookedDividendOne(s.ledger, Log(s), a, c, unseen);
    assert Acted(s, a, unseen) == Outcome(s.(ledger := Booked(s.ledger, Log(s), a, unseen)), false);
  }

  lemma BookedDividendOne(l: Ledger, history: seq<string>, a: Action, c: string, unseen: Unseen)
    requires ValidLedger(l) && KeepsValid(unseen)
    requires a.verb == Some(Dividend) && a.subject == Some(c) && a.quantity == Int(1)
    ensures Booked(l, history, a, unseen) == PaidDividends(l, c, 1)
  {
    NumericRateIgnoresHistory(Int(1), history, [], c);
  }

  /** `c dividend prev` is such a line: the last dividend is not looked up. */
  lemma DividendPrevPaysOne(s: Session, c: string, unseen: Unseen)
    requires ValidLedger(s.ledger) && KeepsValid(unseen) && Token(c)
    ensures Performed(s, c + " dividend prev", false, unseen) ==
      Outcome(s.(ledger := PaidDividends(s.ledger, c, 1), games := s.games[s.name := Log(s) + [c + " dividend 1"]]), false)
  {
    assert Word("prev");
    assert ParseInt("prev").None? by {
      assert TrimStart("prev") == "prev";
      assert DigitPrefix("prev", 10) == [];
    }
    assert c + " dividend prev" == c + " dividend " + "prev";
    DividendWordPaysOne(s, c, "prev", unseen);
  }

  lemma DividendWordParse(c: string, w: string)
    requires Token(c) && Word(w) && ParseInt(w).None?
    ensures Parse(c + " dividend " + w) == Ok(Action(Some(Dividend), Name(ToUpper(w)), Some(c), Int(1), None, Absent, None))
  {
    var words := [c, VerbName(Dividend), w];
    DividendText(c, w);
    DividendLine(words);
    DividendWordGrammar(words);
  }

  lemma DividendText(c: string, w: string)
    ensures Join([c, VerbName(Dividend), w], ' ') == c + " dividend " + w
  {
    JoinThree(c, VerbName(Dividend), w);
    assert " " + VerbName(Dividend) + " " == " dividend ";
  }

  lemma DividendLine(words: seq<string>)
    requires |words| == 3 && Word(words[0]) && words[1] == VerbName(Dividend) && Word(words[2])
    ensures Parse(Join(words, ' ')) == Ok(ParseThree(words, None))
  {
    AmountVerbWord(Dividend);
    ParseWords(words);
    DispatchArity(words, None);
  }

  lemma DividendWordGrammar(words: seq<string>)
    requires |words| == 3 && Token(words[0]) && words[1] == VerbName(Dividend) && ParseInt(words[2]).None?
    ensures ParseThree(words, None) == Action(Some(Dividend), Name(ToUpper(words[2])), Some(words[0]), Int(1), None, Absent, None)
  {
    AmountVerbName(Dividend);
    var r := ParseThree(words, None);
    assert r.verb == Some(Dividend);
    assert r.subject == Some(words[0]) && r.comment == None;
    assert r.obj == Name(ToUpper(words[2])) && r.quantity == Int(1);
    assert r.price == None && r.source == Absent;
  }

  lemma DividendOneRecord(a: Action, c: string)
    requires Token(c) && a.verb == Some(Dividend) && a.subject == Some(c) && a.quantity == Int(1) && a.comment.None?
    ensures Record(a) == Some(c + " dividend 1")
  {
    var w := [c, VerbName(Dividend), NumToString(Int(1))];
    NumberWord(Int(1));
    AmountVerbWord(Dividend);
    AmountEntry(a, w);
    RecordOfEntry(a, w);
    assert NumToString(Int(1)) == "1" by {
      assert NatToString(1) == [DigitChar(1)];
    }
    assert Line(w, None) == Join(w, ' ');
    JoinThree(w[0], w[1], w[2]);
    assert w[1] == "dividend" && w[2] == "1";
    assert Join(w, ' ') == c + " dividend 1";
  }

  /** Appending one line to a replayable session's list and changing its
      ledger to what that line does keeps it replayable. */
  lemma {:induction false} AppendKeepsReplayable(s: Session, line: string, unseen: Unseen)
    requires ValidLedger(s.ledger) && KeepsValid(unseen) && Replayable(s, unseen)
    requires Parse(line).Ok? && !Switches(Parse(line).action)
    ensures var t := s.(ledger := Acted(s, Parse(line).action, unseen).session.ledger, games := s.games[s.name := Log(s) + [line]]);
      Replayable(t, unseen)
  {
    var a := Parse(line).action;
    var t := s.(ledger := Acted(s, a, unseen).session.ledger, games := s.games[s.name := Log(s) + [line]]);
    assert Log(t) == Log(s) + [line];
    assert LedgerOnly(Log(t)) by {
      forall i | 0 <= i < |Log(t)| ensures Parse(Log(t)[i]).Throws? || !Switches(Parse(Log(t)[i]).action) {
        if i < |Log(s)| {
          assert Log(t)[i] == Log(s)[i];
        }
      }
    }
    var empty := t.(ledger := EmptyLedger());
    ReplayAppend(empty, Log(s), line, unseen);
    ReplayIgnoresStore(empty, s.(ledger := EmptyLedger()), Log(s), unseen);
    var mid := t.(ledger := s.ledger);
    assert Replayed(empty, Log(s), unseen) == Outcome(mid, false);
    if a.verb.Some? {
      BookedIgnoresHistory(s.ledger, Log(mid), Log(s), a, unseen);
    }
  }

  /** Performing a canonical command keeps the session replayable: its
      record reads back as the same action, so the log stays a faithful
      account of the ledger. */
  lemma PerformKeepsReplayable(s: Session, command: string, unseen: Unseen)
    requires ValidLedger(s.ledger) && KeepsValid(unseen) && Replayable(s, unseen)
    requires Parse(command).Ok? && Canonical(Parse(command).action)
    ensures Replayable(Performed(s, command, false, unseen).session, unseen)
  {
    var a := Parse(command).action;
    RecordReadsBack(a);
    CanonicalStaysInGame(a);
    PerformedLedgerCommand(s, command, unseen);
    AppendKeepsReplayable(s, Record(a).value, unseen);
  }

  /** No canonical action manages games. */
  lemma CanonicalStaysInGame(a: Action)
    requires Canonical(a)
    ensures !Switches(a)
  {
    if AmountShape(a) || ObjectShape(a) {
      assert !ManagesGames(a.verb.value);
    } else {
      assert a.verb.Some? ==> a.verb.value in {Buy, Sell, Give, BankSize, CompanyCredits};
    }
  }

  /** Undoing the last line of a list that extends a replayable session's
      list gives that session back. */
  lemma {:induction false} UndoLastLine(s: Session, t: Session, line: string, unseen: Unseen)
    requires ValidLedger(s.ledger) && KeepsValid(unseen) && Replayable(s, unseen) && s.name in s.games
    requires t == s.(ledger := t.ledger, games := s.games[s.name := Log(s) + [line]])
    ensures Undone(t, unseen) == (Outcome(s, false), Some(line))
  {
    var h := Log(t);
    assert h == Log(s) + [line];
    assert h != [] && h[|h| - 1] == line && h[..|h| - 1] == Log(s);
    ReplayIgnoresStore(t.(ledger := EmptyLedger()), s.(ledger := EmptyLedger()), Log(s), unseen);
    var o := Rebuilt(t, Log(s), unseen);
    assert o == Outcome(t.(ledger := s.ledger), false);
    assert o.session.games[o.session.name := Log(s)] == s.games;
  }

  /** `undo` right after a logged ledger command gives back the session
      before it, and returns the line that command appended. */
  lemma PerformThenUndo(s: Session, command: string, unseen: Unseen)
    requires ValidLedger(s.ledger) && KeepsValid(unseen) && Replayable(s, unseen) && s.name in s.games
    requires Parse(command).Ok? && !Switches(Parse(command).action) && Record(Parse(command).action).Some?
    ensures Undone(Performed(s, command, false, unseen).session, unseen) == (Outcome(s, false), Record(Parse(command).action))
  {
    PerformedLedgerCommand(s, command, unseen);
    UndoLastLine(s, Performed(s, command, false, unseen).session, Record(Parse(command).action).value, unseen);
  }

  // ------------------------------------------------------------- the prompt

  class Prompt {
    /** `updateMode`: set by every `perform` to its `silent` argument. */
    var updateMode: bool
    const game: Game
    const unseen: Unseen

    ghost predicate Valid()
      reads this, game
    {
      game.Valid() && KeepsValid(unseen)
    }

    function State(): Session
      reads game, game.store
    {
      Session(game.Snapshot(), game.gameName, game.store.games)
    }

    constructor (game: Game, unseen: Unseen)
      requires game.Valid() && KeepsValid(unseen)
      ensures Valid() && this.game == game && this.unseen == unseen && !updateMode
    {
      this.game := game;
      this.unseen := unseen;
      updateMode := false;
    }

    /** The `switch` of `perform`. */
    method Act(a: Action) returns (thrown: bool)
      requires Valid()
      modifies game, game.store
      ensures Valid()
      ensures Outcome(State(), thrown) == Acted(old(State()), a, unseen)
    {
      thrown := false;
      if a.verb.None? {
      } else if ManagesGames(a.verb.value) {
        thrown := Switch(a);
      } else {
        Book(a);
      }
    }

    /** The ledger cases of the switch. */
    method Book(a: Action)
      requires Valid() && a.verb.Some?
      modifies game
      ensures Valid() && game.gameName == old(game.gameName)
      ensures game.Snapshot() == Booked(old(game.Snapshot()), game.store.History(game.gameName), a, unseen)
    {
      var subject := SubjectText(a.subject);
      match a.verb.value {
        case Dividend =>
          game.PayDividends(subject, JNum(a.quantity));
        case Value =>
          var _ := game.SetValue(subject, JNum(a.quantity));
        case Cash =>
          game.ChangeCash(subject, a.quantity);
        case BankSize =>
          game.SetBankSize(a.quantity);
        case Holdings =>
        case Values =>
        case ListGames =>
        case Bank =>
        case Companies =>
        case Remove =>
        case Set =>
        case Open =>
        case Delete =>
        case Start =>
        case _ =>
          var l := unseen(game.Snapshot(), a);
          game.sharesOwned, game.cash, game.values, game.bankSize := l.sharesOwned, l.cash, l.values, l.bankSize;
      }
    }

    /** `open`, `delete` and `start`. */
    method Switch(a: Action) returns (thrown: bool)
      requires Valid()
      modifies game, game.store
      ensures Valid()
      ensures Outcome(State(), thrown) == Switched(old(State()), a)
    {
      thrown := !a.obj.Name?;
      if thrown {
        return;
      }
      var name := ToLower(a.obj.name);
      if a.verb == Some(Open) {
        var _ := game.Open(name);
      } else if a.verb == Some(Delete) {
        var _ := game.DeleteGame(name);
      } else if a.verb == Some(Start) {
        var _ := game.NewGame(name);
      }
    }

    /** `perform(line, true)` as a replay runs it. */
    method RunLine(line: string) returns (thrown: bool)
      requires Valid()
      modifies this`updateMode, game, game.store
      ensures Valid() && updateMode
      ensures Outcome(State(), thrown) == RunOf(old(State()), line, unseen)
    {
      updateMode := true;
      var parsed := Parse(line);
      if parsed.Throws? {
        return true;
      }
      thrown := Act(parsed.action);
    }

    /** `_updateGameState(commandHistoryArray)`. */
    method UpdateGameState(lines: seq<string>) returns (thrown: bool)
      requires Valid()
      modifies this`updateMode, game, game.store
      ensures Valid()
      ensures Outcome(State(), thrown) == Rebuilt(old(State()), lines, unseen)
      ensures updateMode == (old(updateMode) || lines != [])
    {
      game.ResetGameState();
      ghost var target := Replayed(State(), lines, unseen);
      thrown := false;
      var i := 0;
      while i < |lines| && !thrown
        invariant 0 <= i <= |lines| && Valid()
        invariant !thrown ==> Replayed(State(), lines[i..], unseen) == target
        invariant thrown ==> Outcome(State(), true) == target
        invariant updateMode == (old(updateMode) || i > 0) && (thrown ==> i > 0)
      {
        assert lines[i..][1..] == lines[i + 1..];
        thrown := RunLine(lines[i]);
        i := i + 1;
      }
      if !thrown {
        assert lines[i..] == [];
      }
    }

    /** `perform(command, silent)`. */
    method Perform(command: string, silent: bool) returns (thrown: bool)
      requires Valid()
      modifies this`updateMode, game, game.store
      ensures Valid()
      ensures Outcome(State(), thrown) == Performed(old(State()), command, silent, unseen)
      ensures updateMode == (silent || (Parse(command).Ok? && Replays(old(State()), Parse(command).action, unseen)))
    {
      updateMode := silent;
      var parsed := Parse(command);
      if parsed.Throws? {
        return true;
      }
      thrown := PerformAction(parsed.action, silent);
    }

    /** `perform` from the parsed action on. */
    method PerformAction(a: Action, silent: bool) returns (thrown: bool)
      requires Valid() && updateMode == silent
      modifies this`updateMode, game, game.store
      ensures Valid()
      ensures Outcome(State(), thrown) == Logged(Applied(old(State()), a, unseen), a, silent)
      ensures updateMode == (silent || Replays(old(State()), a, unseen))
    {
      thrown := Apply(a);
      if thrown {
        return;
      }
      var line := Record(a);
      if !updateMode && line.Some? {
        game.AddToHistory(line.value);
      }
    }

    /** The switch of `perform`, then the replay an `open` starts. */
    method Apply(a: Action) returns (thrown: bool)
      requires Valid()
      modifies this`updateMode, game, game.store
      ensures Valid()
      ensures Outcome(State(), thrown) == Applied(old(State()), a, unseen)
      ensures updateMode == (old(updateMode) || Replays(old(State()), a, unseen))
      ensures a.verb == Some(Open) || updateMode == old(updateMode)
    {
      thrown := Act(a);
      if !thrown && a.verb == Some(Open) {
        var history := game.GetCommandHistory();
        thrown := UpdateGameState(history);
      }
    }

    /** `undo()`. */
    method Undo() returns (undid: Option<string>, thrown: bool)
      requires Valid()
      modifies this`updateMode, game, game.store
      ensures Valid()
      ensures (Outcome(State(), thrown), undid) == Undone(old(State()), unseen)
    {
      var history := game.GetCommandHistory();
      if history == [] {
        undid := None;
      } else {
        undid := Some(history[|history| - 1]);
        history := history[..|history| - 1];
      }
      thrown := UpdateGameState(history);
      if thrown {
        return;
      }
      game.SetCommandHistory(history);
    }
  }
}
