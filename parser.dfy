/** The command interpreter (modules/parser.js): one line of text becomes an
    action record. The part before the first `#` is split on single spaces,
    the number of tokens picks a grammar, and each verb is looked up in an
    explicit table of accepted abbreviations. */
module Parser {
  import opened Js

  datatype Verb =
    | Holdings | Values | ListGames | Bank | Companies | CompanyCredits
    | Open | Delete | Start | BankSize | Close | Next | Rounding | Remove
    | Buy | Sell | Dividend | HalfDividend | Value | Float | Cash | Set | Income | Give

  /** The `object` field: null, an upper-cased name, or `true` (companycredits). */
  datatype Obj = Null | Name(name: string) | True

  /** A field a result record may lack (`undefined`), hold as null, or hold. */
  datatype Field<T> = Absent | Nil | Has(value: T)

  /** The record `parse` returns. `price` is present only for buy and sell,
      `source` only for buy. */
  datatype Action = Action(
    verb: Option<Verb>,
    obj: Obj,
    subject: Option<string>,
    quantity: Num,
    price: Option<Num>,
    source: Field<string>,
    comment: Option<string>)

  /** `parse` returns a record, except that `give N to` with nothing after
      `to` reads past the end of the token array and throws a TypeError. */
  datatype Parsed = Ok(action: Action) | Throws

  /** The verb string stored in the record (and written to the log). */
  function VerbName(v: Verb): string {
    match v
    case Holdings => "holdings"       case Values => "values"
    case ListGames => "listGames"     case Bank => "bank"
    case Companies => "companies"     case CompanyCredits => "companycredits"
    case Open => "open"               case Delete => "delete"
    case Start => "start"             case BankSize => "banksize"
    case Close => "close"             case Next => "next"
    case Rounding => "rounding"       case Remove => "remove"
    case Buy => "buy"                 case Sell => "sell"
    case Dividend => "dividend"       case HalfDividend => "halfdividend"
    case Value => "value"             case Float => "float"
    case Cash => "cash"               case Set => "set"
    case Income => "income"           case Give => "give"
  }

  /** `String(object)`: how the object field prints in a template string. */
  function ObjText(o: Obj): string {
    match o
    case Null => "null"
    case Name(s) => s
    case True => "true"
  }

  // ------------------------------------------------------ abbreviation tables

  const HoldingsWords: set<string> := {"h", "ho", "hol", "hold", "holdi", "holdin", "holding", "holdings"}
  const ValuesWords: set<string> := {"v", "va", "val", "valu", "value", "values"}
  const ListWords: set<string> := {"l", "li", "lis", "list"}
  const BankWords: set<string> := {"b", "ba", "ban", "bank"}
  const CompaniesWords: set<string> :=
    {"c", "co", "com", "comp", "compa", "compan", "compani", "companie", "companies"}

  const OpenWords: set<string> := {"o", "op", "ope", "open"}
  const BankSizeWords: set<string> :=
    {"b", "ba", "ban", "bank", "banks", "banksi", "banksiz", "banksize"}
  const NextWords: set<string> := {"n", "ne", "nex", "next"}

  const BuyWords: set<string> := {"b", "bu", "buy", "buys"}
  const SellWords: set<string> := {"s", "se", "sell", "sells"}
  const DividendWords: set<string> :=
    {"d", "di", "div", "divi", "divid", "divide", "dividen", "dividend", "dividends",
     "p", "pa", "pay", "pays"}
  const HalfDividendWords: set<string> :=
    {"h", "ha", "hal", "half", "halfd", "halfdi", "halfdiv", "halfdivi", "halfdivid",
     "halfdivide", "halfdividen", "halfdividend", "halfdividends"}
  const ValueWords: set<string> := {"v", "va", "val", "valu", "value"}
  const FloatWords: set<string> := {"f", "fl", "flo", "floa", "float"}
  const CashWords: set<string> := {"c", "ca", "cas", "cash"}
  const GiveWords: set<string> := {"g", "gi", "giv", "give"}

  /** The one-token verbs. */
  function OneTokenVerb(t: string): Option<Verb> {
    if t in HoldingsWords then Some(Holdings)
    else if t in ValuesWords then Some(Values)
    else if t in ListWords then Some(ListGames)
    else if t in BankWords then Some(Bank)
    else if t in CompaniesWords then Some(Companies)
    else if t == "companycredits" then Some(CompanyCredits)
    else None
  }

  /** The verbs taking one argument. */
  function TwoTokenVerb(t: string): Option<Verb> {
    if t in OpenWords then Some(Open)
    else if t == "delete" then Some(Delete)
    else if t == "start" then Some(Start)
    else if t in BankSizeWords then Some(BankSize)
    else if t == "close" then Some(Close)
    else if t in NextWords then Some(Next)
    else if t == "rounding" then Some(Rounding)
    else if t == "remove" then Some(Remove)
    else None
  }

  /** The verbs of `subject verb object-or-quantity`. */
  function ThreeTokenVerb(t: string): Option<Verb> {
    if t in BuyWords then Some(Buy)
    else if t in SellWords then Some(Sell)
    else if t in DividendWords then Some(Dividend)
    else if t in HalfDividendWords then Some(HalfDividend)
    else if t in ValueWords then Some(Value)
    else if t in FloatWords then Some(Float)
    else if t in CashWords then Some(Cash)
    else if t == "set" then Some(Set)
    else if t == "income" then Some(Income)
    else None
  }

  /** The verbs of the variable-length grammar. */
  function ManyTokenVerb(t: string): (r: Option<Verb>)
    ensures r.Some? ==> r.value in {Buy, Sell, Give}
  {
    if t in BuyWords then Some(Buy)
    else if t in SellWords then Some(Sell)
    else if t in GiveWords then Some(Give)
    else None
  }

  // ---------------------------------------------------------------- grammars

  /** The record every unknown verb yields. */
  function NullAction(comment: Option<string>): Action {
    Action(None, Null, None, Int(0), None, Absent, comment)
  }

  function ParseOne(t: string, comment: Option<string>): Action {
    match OneTokenVerb(t)
    case None => NullAction(comment)
    case Some(v) => Action(Some(v), if v.CompanyCredits? then True else Null, None, Int(0), None, Absent, comment)
  }

  /** The banksize argument: a number; else one leading currency character
      followed by a number; else the raw token with amount 0. */
  function BankSizeArgument(word: string): (r: (Obj, int))
    ensures ParseInt(word).Some? ==> r == (Null, ParseInt(word).value)
    ensures word != [] && ParseInt(word).None? && ParseInt(word[1..]).Some? ==> r == (Name(word[..1]), ParseInt(word[1..]).value)
    ensures ParseInt(word).None? && (word == [] || ParseInt(word[1..]).None?) ==> r == (Name(word), 0)
  {
    var whole := ParseInt(word);
    if whole.Some? then (Null, whole.value)
    else
      // `substr(1)` and `substr(0, 1)` of the empty text are empty
      var rest := ParseInt(if word == [] then [] else word[1..]);
      if rest.Some? then (Name(if word == [] then [] else word[..1]), rest.value)
      else (Name(word), 0)
  }

  function ParseTwo(verb: string, arg: string, comment: Option<string>): Action {
    var word := ToUpper(arg);
    match TwoTokenVerb(verb)
    case None => NullAction(comment)
    case Some(v) =>
      if v.BankSize? then
        var (o, q) := BankSizeArgument(word);
        Action(Some(BankSize), o, None, Int(q), None, Absent, comment)
      else Action(Some(v), Name(word), None, Int(0), None, Absent, comment)
  }

  /** `subject verb x`: a numeric `x` is the quantity, anything else the
      (upper-cased) object with quantity 1. */
  function ParseThree(parts: seq<string>, comment: Option<string>): (r: Action)
    requires |parts| == 3
    ensures r.verb == ThreeTokenVerb(parts[1])
    ensures r.verb.None? ==> r == NullAction(comment)
    ensures r.verb.Some? ==> r.subject == Some(ToUpper(parts[0])) && r.comment == comment
    ensures r.verb.Some? && r.verb != Some(Value) && ParseInt(parts[2]).Some? ==>
      r.obj == Null && r.quantity == Int(ParseInt(parts[2]).value)
    ensures r.verb.Some? && r.verb != Some(Value) && ParseInt(parts[2]).None? ==>
      r.obj == Name(ToUpper(parts[2])) && r.quantity == Int(1)
    ensures r.price.Some? <==> r.verb == Some(Buy) || r.verb == Some(Sell)
    ensures r.price.Some? ==> r.price == Some(Int(0))
    ensures r.source == if r.verb == Some(Buy) then Nil else Absent
  {
    var q := ParseInt(parts[2]);
    var word := if q.None? then Name(ToUpper(parts[2])) else Null;
    Three(ThreeTokenVerb(parts[1]), ToUpper(parts[0]), word, q, ParseInt(ObjText(word)), comment)
  }

  /** The `switch` of the three-token grammar, given the verb, the subject,
      the object, the `parseInt` reading `q` of the third token and the
      `parseInt` reading of the object's text. A value whose object does not
      read as a number while the quantity is 1 becomes object null,
      quantity NaN. */
  function Three(verb: Option<Verb>, subject: string, word: Obj, q: Option<int>, wordReading: Option<int>, comment: Option<string>): (r: Action)
    ensures r.verb == verb
    ensures verb.None? ==> r == NullAction(comment)
    ensures verb.Some? ==> r.subject == Some(subject) && r.comment == comment
    ensures verb.Some? && verb != Some(Value) ==> r.obj == word && r.quantity == Int(if q.None? then 1 else q.value)
    ensures r.price.Some? <==> verb == Some(Buy) || verb == Some(Sell)
    ensures r.price.Some? ==> r.price == Some(Int(0))
    ensures r.source == if verb == Some(Buy) then Nil else Absent
  {
    var quantity := if q.None? then 1 else q.value;
    match verb
    case None => NullAction(comment)
    case Some(v) =>
      if v.Buy? then Action(Some(Buy), word, Some(subject), Int(quantity), Some(Int(0)), Nil, comment)
      else if v.Sell? then Action(Some(Sell), word, Some(subject), Int(quantity), Some(Int(0)), Absent, comment)
      else if v.Value? && wordReading.None? && quantity == 1 then
        Action(Some(Value), Null, Some(subject), NaN, None, Absent, comment)
      else Action(Some(v), word, Some(subject), Int(quantity), None, Absent, comment)
  }

  /** A price token: a leading `@` is dropped before `parseInt`. */
  function PriceToken(t: string): Num {
    if |t| >= 1 && t[..1] == "@" then OfParse(ParseInt(t[1..])) else OfParse(ParseInt(t))
  }

  /** The variable-length grammar of buy, sell and give. */
  function ParseMany(parts: seq<string>, comment: Option<string>): Parsed
    requires |parts| > 3
  {
    var subject := ToUpper(parts[0]);
    match ManyTokenVerb(parts[1])
    case None => Ok(NullAction(comment))
    case Some(v) =>
      if v.Give? then
        var quantity := OfParse(ParseInt(parts[2]));
        var at := if ToUpper(parts[3]) == "TO" then 4 else 3;
        if at < |parts| then Ok(Action(Some(Give), Name(ToUpper(parts[at])), Some(subject), quantity, None, Absent, comment))
        else Throws
      else
        var q := ParseInt(parts[2]);
        var quantity := if q.None? then 1 else q.value;
        var word := if q.None? then ToUpper(parts[2]) else ToUpper(parts[3]);
        var at := if q.None? then 3 else 4;
        var price := if at < |parts| then PriceToken(parts[at]) else Int(0);
        if v.Buy? then
          var afterPrice := at + 1;
          var sourceAt := if afterPrice < |parts| && ToUpper(parts[afterPrice]) == "FROM" then afterPrice + 1 else afterPrice;
          var source := if sourceAt < |parts| then Has(ToUpper(parts[sourceAt])) else Nil;
          Ok(Action(Some(Buy), Name(word), Some(subject), Int(quantity), Some(price), source, comment))
        else Ok(Action(Some(Sell), Name(word), Some(subject), Int(quantity), Some(price), Absent, comment))
  }

  /** The token count picks the grammar. */
  function Dispatch(parts: seq<string>, comment: Option<string>): Parsed
    requires |parts| >= 1
  {
    if |parts| == 1 then Ok(ParseOne(parts[0], comment))
    else if |parts| == 2 then Ok(ParseTwo(parts[0], parts[1], comment))
    else if |parts| == 3 then Ok(ParseThree(parts, comment))
    else ParseMany(parts, comment)
  }

  /** `parse(command)`: `split("#", 2)` keeps the text between the first and
      a second `#` as the comment; only when a `#` occurs is the command part
      trimmed. */
  function Parse(command: string): Parsed {
    var pieces := Split(command, '#');
    var line := if |pieces| > 1 then Trim(pieces[0]) else command;
    var comment := if |pieces| > 1 then Some(Trim(pieces[1])) else None;
    Dispatch(Split(line, ' '), comment)
  }

  // ------------------------------------------------------------------ lemmas

  /** A token: non-empty, and free of whitespace and `#`. */
  predicate Word(w: string) {
    w != [] && forall i :: 0 <= i < |w| ==> !IsWhitespace(w[i]) && w[i] != '#'
  }

  /** The grammar `Dispatch` picks for each word count. */
  lemma DispatchArity(w: seq<string>, c: Option<string>)
    requires |w| >= 1
    ensures |w| == 1 ==> Dispatch(w, c) == Ok(ParseOne(w[0], c))
    ensures |w| == 2 ==> Dispatch(w, c) == Ok(ParseTwo(w[0], w[1], c))
    ensures |w| == 3 ==> Dispatch(w, c) == Ok(ParseThree(w, c))
    ensures |w| > 3 ==> Dispatch(w, c) == ParseMany(w, c)
  {
  }

  /** `subject buy|sell count company`: price 0, no source. */
  lemma TradeOfFour(w: seq<string>, c: Option<string>)
    requires |w| == 4 && ManyTokenVerb(w[1]) in {Some(Buy), Some(Sell)} && ParseInt(w[2]).Some?
    ensures ParseMany(w, c) == Ok(Action(ManyTokenVerb(w[1]), Name(ToUpper(w[3])), Some(ToUpper(w[0])),
      Int(ParseInt(w[2]).value), Some(Int(0)), if ManyTokenVerb(w[1]) == Some(Buy) then Nil else Absent, c))
  {
  }

  /** Four words or more whose second is no trade verb are no command. */
  lemma UnknownManyVerb(w: seq<string>, c: Option<string>)
    requires |w| > 3 && ManyTokenVerb(w[1]).None?
    ensures ParseMany(w, c) == Ok(NullAction(c))
  {
  }

  /** `subject buy company price`: without a count, one share, and the
      word after the company is the price. */
  lemma BuyWithoutCount(w: seq<string>, c: Option<string>)
    requires |w| == 4 && ManyTokenVerb(w[1]) == Some(Buy) && ParseInt(w[2]).None?
    ensures ParseMany(w, c) == Ok(Action(Some(Buy), Name(ToUpper(w[2])), Some(ToUpper(w[0])),
      Int(1), Some(PriceToken(w[3])), Nil, c))
  {
  }

  /** `subject buy|sell count company price`: no source. */
  lemma TradeOfFive(w: seq<string>, c: Option<string>)
    requires |w| == 5 && ManyTokenVerb(w[1]) in {Some(Buy), Some(Sell)} && ParseInt(w[2]).Some?
    ensures ParseMany(w, c) == Ok(Action(ManyTokenVerb(w[1]), Name(ToUpper(w[3])), Some(ToUpper(w[0])),
      Int(ParseInt(w[2]).value), Some(PriceToken(w[4])), if ManyTokenVerb(w[1]) == Some(Buy) then Nil else Absent, c))
  {
  }

  /** `subject buy count company price source`. */
  lemma BuyOfSix(w: seq<string>, c: Option<string>)
    requires |w| == 6 && ManyTokenVerb(w[1]) == Some(Buy) && ParseInt(w[2]).Some? && ToUpper(w[5]) != "FROM"
    ensures ParseMany(w, c) == Ok(Action(Some(Buy), Name(ToUpper(w[3])), Some(ToUpper(w[0])),
      Int(ParseInt(w[2]).value), Some(PriceToken(w[4])), Has(ToUpper(w[5])), c))
  {
  }

  /** `subject buy count company price from source`. */
  lemma BuyOfSeven(w: seq<string>, c: Option<string>)
    requires |w| == 7 && ManyTokenVerb(w[1]) == Some(Buy) && ParseInt(w[2]).Some? && ToUpper(w[5]) == "FROM"
    ensures ParseMany(w, c) == Ok(Action(Some(Buy), Name(ToUpper(w[3])), Some(ToUpper(w[0])),
      Int(ParseInt(w[2]).value), Some(PriceToken(w[4])), Has(ToUpper(w[6])), c))
  {
  }

  /** `subject give amount to name`. */
  lemma GiveOfFive(w: seq<string>, c: Option<string>)
    requires |w| == 5 && ManyTokenVerb(w[1]) == Some(Give) && ToUpper(w[3]) == "TO"
    ensures ParseMany(w, c) == Ok(Action(Some(Give), Name(ToUpper(w[4])), Some(ToUpper(w[0])),
      OfParse(ParseInt(w[2])), None, Absent, c))
  {
  }

  /** A line holding only a comment gives the null record with that comment. */
  lemma ParseCommentOnly(c: string)
    requires Remark(Some(c))
    ensures Parse("#" + " " + c) == Ok(NullAction(Some(c)))
  {
    CommentOnlyDispatch(c);
    EmptyWord(Some(c));
  }

  lemma CommentOnlyDispatch(c: string)
    requires Remark(Some(c))
    ensures Parse("#" + " " + c) == Dispatch([""], Some(c))
  {
    assert '#' !in " " + c;
    assert "" + "#" + (" " + c) + "" == "#" + " " + c;
    ParseComment("", " " + c, "");
    CommentOnlyPieces(c);
  }

  lemma CommentOnlyPieces(c: string)
    requires Remark(Some(c))
    ensures Dispatch(Split(Trim(""), ' '), Some(Trim(" " + c))) == Dispatch([""], Some(c))
  {
    TrimLeadingSpace(c);
    EmptyLine();
  }

  lemma EmptyLine()
    ensures Split(Trim(""), ' ') == [""]
  {
    assert Trim("") == "";
  }

  /** An empty line is no verb. */
  lemma EmptyWord(c: Option<string>)
    ensures Dispatch([""], c) == Ok(NullAction(c))
  {
    DispatchArity([""], c);
    assert OneTokenVerb("") == None;
  }

  /** A name made of lower-case letters is a word. */
  lemma LettersWord(w: string)
    requires w != [] && forall i :: 0 <= i < |w| ==> 'a' <= w[i] <= 'z'
    ensures Word(w)
  {
  }

  /** Two words written together are a word. */
  lemma WordConcat(x: string, y: string)
    requires Word(x) && Word(y)
    ensures Word(x + y)
  {
    assert forall i :: |x| <= i < |x + y| ==> (x + y)[i] == y[i - |x|];
  }

  /** The text of a number is a word; that of an integer is upper-case. */
  lemma NumberWord(x: Num)
    ensures Word(NumToString(x))
    ensures x.Int? ==> ToUpper(NumToString(x)) == NumToString(x)
  {
    if x.Int? {
      var d := NatToString(if x.n < 0 then -x.n else x.n);
      DigitsWord(d);
      if x.n < 0 {
        assert Word("-");
        WordConcat("-", d);
        assert ToUpper("-" + d) == "-" + ToUpper(d);
      }
    } else {
      LettersWordMixed();
    }
  }

  lemma DigitsWord(d: string)
    requires d != [] && forall i :: 0 <= i < |d| ==> '0' <= d[i] <= '9'
    ensures Word(d) && ToUpper(d) == d
  {
  }

  lemma LettersWordMixed()
    ensures Word(NumToString(NaN))
  {
    var n := NumToString(NaN);
    assert n == "NaN";
  }

  /** A line of words separated by single spaces is parsed by the grammar
      of its word count, with exactly those words as tokens. */
  lemma ParseWords(words: seq<string>)
    requires |words| >= 1 && forall i :: 0 <= i < |words| ==> Word(words[i])
    ensures Parse(Join(words, ' ')) == Dispatch(words, None)
  {
    JoinWordsHasNo(words, '#');
    SplitNoSeparator(Join(words, ' '), '#');
    SplitJoin(words, ' ');
  }

  /** The same line followed by ` # comment`: the comment is kept, the
      command part is trimmed back to the words. */
  lemma ParseWordsWithComment(words: seq<string>, comment: string)
    requires |words| >= 1 && forall i :: 0 <= i < |words| ==> Word(words[i])
    requires '#' !in comment && Trim(comment) == comment
    ensures Parse(Join(words, ' ') + " # " + comment) == Dispatch(words, Some(comment))
  {
    var line := Join(words, ' ');
    CommentLine(words, comment);
    ParseOfPieces(line + " # " + comment, line + " ", " " + comment);
  }

  /** A comment that survives being written after ` # ` and read back:
      non-empty, trimmed and free of `#`; or no comment at all. */
  predicate Remark(comment: Option<string>) {
    comment.None? || (comment.value != "" && '#' !in comment.value && Trim(comment.value) == comment.value)
  }

  /** Words joined by single spaces, then ` # comment` when there is one. */
  function Line(words: seq<string>, comment: Option<string>): string
    requires |words| >= 1
  {
    Join(words, ' ') + if comment.Some? then " # " + comment.value else ""
  }

  /** A line of words, with or without a comment, is parsed by the grammar
      of its word count. */
  lemma ParseLine(words: seq<string>, comment: Option<string>)
    requires |words| >= 1 && forall i :: 0 <= i < |words| ==> Word(words[i])
    requires Remark(comment)
    ensures Parse(Line(words, comment)) == Dispatch(words, comment)
  {
    if comment.Some? {
      assert Line(words, comment) == Join(words, ' ') + " # " + comment.value;
      ParseWordsWithComment(words, comment.value);
    } else {
      assert Line(words, comment) == Join(words, ' ');
      ParseWords(words);
    }
  }

  /** Such a line is its own trim. */
  lemma TrimLine(words: seq<string>, comment: Option<string>)
    requires |words| >= 1 && forall i :: 0 <= i < |words| ==> Word(words[i])
    requires Remark(comment)
    ensures Trim(Line(words, comment)) == Line(words, comment)
  {
    JoinWordsEnds(words);
    var line := Line(words, comment);
    if comment.Some? {
      var c := comment.value;
      assert !IsWhitespace(c[|c| - 1]) by {
        assert TrimStart(c) == c[|c| - |TrimStart(c)|..];
        assert TrimEnd(TrimStart(c)) == c;
      }
      assert line[|line| - 1] == c[|c| - 1];
    }
    assert line[0] == Join(words, ' ')[0];
    TrimIdentity(line);
  }

  /** How `split` and `trim` take a commented line of words apart. */
  lemma CommentLine(words: seq<string>, comment: string)
    requires |words| >= 1 && forall i :: 0 <= i < |words| ==> Word(words[i])
    requires '#' !in comment && Trim(comment) == comment
    ensures Split(Join(words, ' ') + " # " + comment, '#') == [Join(words, ' ') + " ", " " + comment]
    ensures Trim(Join(words, ' ') + " ") == Join(words, ' ')
    ensures Trim(" " + comment) == comment
    ensures Split(Join(words, ' '), ' ') == words
  {
    var line := Join(words, ' ');
    assert Split(line + " # " + comment, '#') == [line + " ", " " + comment] by {
      JoinWordsHasNo(words, '#');
      CommentSeparator(line, comment);
      assert '#' !in line + " " && '#' !in " " + comment;
      SplitInTwo(line + " ", " " + comment);
    }
    assert Trim(line + " ") == line by {
      JoinWordsEnds(words);
      TrimTrailingSpace(line);
    }
    TrimLeadingSpace(comment);
    SplitJoin(words, ' ');
  }

  lemma CommentSeparator(a: string, b: string)
    ensures a + " # " + b == (a + " ") + "#" + (" " + b)
  {
    assert " # " == " " + "#" + " ";
    calc {
      a + " # " + b;
      a + (" " + "#" + " ") + b;
      (a + " ") + "#" + (" " + b);
    }
  }

  /** A command holding exactly one `#`. */
  lemma SplitInTwo(a: string, b: string)
    requires '#' !in a && '#' !in b
    ensures Split(a + "#" + b, '#') == [a, b]
  {
    assert a + "#" + b == a + ['#'] + b;
    SplitAtFirst(a, '#', b);
    SplitNoSeparator(b, '#');
  }

  /** How `parse` uses the first two pieces of `split("#")`. */
  lemma ParseOfPieces(command: string, a: string, b: string)
    requires Split(command, '#') == [a, b]
    ensures Parse(command) == Dispatch(Split(Trim(a), ' '), Some(Trim(b)))
  {
  }

  lemma TrimTrailingSpace(line: string)
    requires line != [] && !IsWhitespace(line[0]) && !IsWhitespace(line[|line| - 1])
    ensures Trim(line + " ") == line
  {
    assert TrimStart(line + " ") == line + " ";
    assert (line + " ")[..|line|] == line;
  }

  lemma TrimLeadingSpace(s: string)
    requires Trim(s) == s
    ensures Trim(" " + s) == s
  {
    assert (" " + s)[1..] == s;
  }

  /** A line of words contains no character the words lack, other than spaces. */
  lemma {:induction false} JoinWordsHasNo(words: seq<string>, c: char)
    requires |words| >= 1 && forall i :: 0 <= i < |words| ==> Word(words[i])
    requires c != ' ' && (c == '#' || IsWhitespace(c))
    ensures c !in Join(words, ' ')
  {
    if |words| > 1 {
      JoinWordsHasNo(words[1..], c);
    }
  }

  /** A line of words begins and ends with non-whitespace. */
  lemma {:induction false} JoinWordsEnds(words: seq<string>)
    requires |words| >= 1 && forall i :: 0 <= i < |words| ==> Word(words[i])
    ensures var line := Join(words, ' ');
      line != [] && !IsWhitespace(line[0]) && !IsWhitespace(line[|line| - 1])
  {
    if |words| > 1 {
      JoinWordsEnds(words[1..]);
    }
  }

  /** Without a `#` the comment is null and the line is split untrimmed. */
  lemma ParseNoComment(command: string)
    requires '#' !in command
    ensures Parse(command) == Dispatch(Split(command, ' '), None)
  {
    SplitNoSeparator(command, '#');
  }

  /** The comment is the trimmed text between the first and the second `#`
      (what follows a second `#` is lost); the command part is the trimmed
      text before the first `#`. */
  lemma ParseComment(before: string, comment: string, rest: string)
    requires '#' !in before && '#' !in comment
    requires rest == [] || rest[0] == '#'
    ensures Parse(before + "#" + comment + rest) == Dispatch(Split(Trim(before), ' '), Some(Trim(comment)))
  {
    var command := before + "#" + comment + rest;
    assert command == before + ['#'] + (comment + rest);
    SplitAtFirst(before, '#', comment + rest);
    if rest == [] {
      SplitNoSeparator(comment, '#');
      assert comment + rest == comment;
    } else {
      assert comment + rest == comment + ['#'] + rest[1..];
      SplitAtFirst(comment, '#', rest[1..]);
    }
  }

  /** Every unrecognised verb, at every arity, gives the null record. */
  lemma UnknownVerbIsNull(parts: seq<string>, comment: Option<string>)
    requires |parts| >= 1 && Dispatch(parts, comment).Ok? && Dispatch(parts, comment).action.verb.None?
    ensures Dispatch(parts, comment).action == NullAction(comment)
  {
    if |parts| == 3 {
      var r := ParseThree(parts, comment);
      assert ThreeTokenVerb(parts[1]).None?;
    } else if |parts| > 3 {
      assert ManyTokenVerb(parts[1]).None?;
    }
  }

  /** A value record never carries quantity 1 and never an object:
      `X value 1` itself comes out as quantity NaN. */
  lemma ValueNeverOne(parts: seq<string>, comment: Option<string>)
    requires |parts| >= 1 && Dispatch(parts, comment).Ok? && Dispatch(parts, comment).action.verb == Some(Value)
    ensures Dispatch(parts, comment).action.quantity != Int(1)
    ensures Dispatch(parts, comment).action.obj == Null
  {
    if |parts| == 3 {
      ValueThree(parts, comment);
    }
  }

  lemma ValueThree(parts: seq<string>, comment: Option<string>)
    requires |parts| == 3 && ParseThree(parts, comment).verb == Some(Value)
    ensures ParseThree(parts, comment).quantity != Int(1)
    ensures ParseThree(parts, comment).obj == Null
  {
    assert ThreeTokenVerb(parts[1]) == Some(Value);
    if ParseInt(parts[2]).None? {
      ParseIntUpper(parts[2]);
      ValueOfName(parts, comment);
    } else {
      NullIsNotANumber();
      ValueOfNumber(parts, comment);
    }
  }

  lemma ValueOfName(parts: seq<string>, comment: Option<string>)
    requires |parts| == 3 && ThreeTokenVerb(parts[1]) == Some(Value)
    requires ParseInt(parts[2]).None? && ParseInt(ToUpper(parts[2])).None?
    ensures ParseThree(parts, comment).quantity == NaN
    ensures ParseThree(parts, comment).obj == Null
  {
    assert ParseInt(ObjText(Name(ToUpper(parts[2])))).None?;
    ValueOfWord(ToUpper(parts[0]), Name(ToUpper(parts[2])), comment);
  }

  lemma ValueOfWord(subject: string, word: Obj, comment: Option<string>)
    ensures Three(Some(Value), subject, word, None, None, comment)
      == Action(Some(Value), Null, Some(subject), NaN, None, Absent, comment)
  {
  }

  lemma ValueOfNumber(parts: seq<string>, comment: Option<string>)
    requires |parts| == 3 && ThreeTokenVerb(parts[1]) == Some(Value)
    requires ParseInt(parts[2]).Some? && ParseInt(ObjText(Null)).None?
    ensures ParseThree(parts, comment).quantity != Int(1)
    ensures ParseThree(parts, comment).obj == Null
  {
    ValueOfQuantity(ToUpper(parts[0]), ParseInt(parts[2]).value, comment);
  }

  lemma ValueOfQuantity(subject: string, q: int, comment: Option<string>)
    ensures var r := Three(Some(Value), subject, Null, Some(q), None, comment);
      r.quantity != Int(1) && r.obj == Null
  {
  }

  /** `parseInt(String(null))` is NaN. */
  lemma NullIsNotANumber()
    ensures ParseInt(ObjText(Null)) == None
  {
    var s := ObjText(Null);
    assert s == "null" && s[0] == 'n' && !IsWhitespace(s[0]);
    assert TrimStart(s) == s;
    assert DigitPrefix(s, 10) == [];
  }

  /** `X give N to` with nothing after `to` throws. */
  lemma GiveToNothingThrows(words: seq<string>)
    requires |words| == 4 && forall i :: 0 <= i < |words| ==> Word(words[i])
    requires words[1] in GiveWords && ToUpper(words[3]) == "TO"
    ensures Parse(Join(words, ' ')) == Throws
  {
    GiveToNothingDispatch(words);
    ParseWords(words);
  }

  lemma GiveToNothingDispatch(words: seq<string>)
    requires |words| == 4 && words[1] in GiveWords && ToUpper(words[3]) == "TO"
    ensures Dispatch(words, None) == Throws
  {
    assert ManyTokenVerb(words[1]) == Some(Give);
  }
}
