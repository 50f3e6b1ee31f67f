# 18sh ledger, modelled in Dafny

18sh is a command-line bookkeeper for 18xx railway board games. A player
types one line per game event, for example `A buy 3 PRR @67 from IPO`,
`PRR dividend 50` or `B value 120`. The program does three things with
each line:

- it parses the line into an action (verb, subject, object, quantity,
  price, source, comment);
- it updates a ledger of share holdings, player cash, company values and
  the bank size;
- it appends a normalized form of the line to the active game's command
  list.

The list is the only persistent state. Opening a game or undoing a
command resets the ledger and replays the list silently.

The repository has three generations of this loop, and each is modelled
in its own form:

- `index.js` is the first prototype: buy, sell, holdings and undo over a
  single list. It is modelled in module `Prototype`.
- `18sh.js` is the second command-line version. It adds dividends,
  values, cash, and several named games. It is modelled in module `Shell`.
- The modular version is the current one:
  - `modules/parser.js` is modelled in `Parser`;
  - `modules/stockHoldings.js` in `Shares` and `StockHoldings`;
  - `modules/gameState.js` in `GameState`;
  - `modules/commandHistory.js` in `CommandHistory`;
  - `modules/perform.js`, the first dispatcher, in `Perform`;
  - `modules/commandPrompt.js`, the current dispatcher, in `CommandPrompt`.

`EarlyLedger` holds the `buy`/`sell` pair that `index.js` and `18sh.js`
share. `Js` states the JavaScript semantics the code leans on:

- `parseInt` on decimal and `0x` text, and `Number` on integer
  literals (signed decimal, unsigned `0x`/`0o`/`0b`, blank text as 0);
- which property names are array indices;
- NaN arithmetic and comparisons;
- truthiness;
- `split`, `join`, `trim` and `toUpperCase`.

`Dicts` is an insertion-ordered dictionary. It stands in for the arrays
and objects that the source uses as dictionaries. `Object.keys` returns
their keys in insertion order as long as no key is an array index such as
`0` or `12` (see "Left out").

Pure code is written as functions. Code that updates module-level state
is written as classes:

- `Game` for gameState.js;
- `Holdings` for stockHoldings.js;
- `Store` for the Configstore lists;
- `Prompt` and `Dispatcher` for the two dispatchers;
- `Console` for 18sh.js;
- `Session` for index.js.

Each method is proved equal to a function of the old state, and the
properties are proved about those functions. The loops of the source
(`forEach`, `reduce`, the replay `map`) are `while` loops with
invariants.

Several proved lemmas record behaviour of the source as written that
contradicts the documentation or the evident intent:

- `Perform.BuyEntryReadsBackAsPrice`: perform.js logs
  `subject verb object quantity`. The parser reads a logged buy such as
  `A buy X 5` back as a buy of one share at price 5. The current
  dispatcher logs the count first, so every one of its records reads back
  unchanged (`CommandPrompt.RecordReadsBack`).
- `Perform.DividendEntryReadsBackAsNothing`: a dividend entry logged by
  perform.js, such as `A dividend null 10`, reads back as no command.
- `Perform.NumericDividendPaysNothing` and
  `Perform.NumericValueStoresNull`: perform.js hands `action.object`,
  which is null for a numeric amount, to `payDividends` and `setValue`.
- `EarlyLedger.SuffixedCountOversells`: `sell` guards with `Number(n)`
  but subtracts `parseInt(n)`, so `5x` oversells.
- `Shell.UnreadableDividendPoisons`: a dividend whose amount does not read
  as a number leaves NaN in the cash of every holder.
- `GameState.PrevWithCommentPaysNothing`: `dividend PREV` after a
  commented dividend line pays 0.
- `Prototype.ClearedStart`: `undo` before any command throws in index.js.
- `CommandPrompt.DividendPrevPaysOne`: `C dividend prev` is read with
  `prev` as the object and quantity 1, and commandPrompt.js pays
  `action.quantity`. The company pays 1 per share instead of repeating its
  last dividend, and the list records `C dividend 1`.
- `GameState.IndexNamesDropped`: `_getPlayers` tests `players[name]`, so a
  player whose name is an array index such as `1` can be left out.

## Model

| member | source | states |
|---|---|---|
| Parser.ParseThree | modules/parser.js:214-223 | a three-token line has the verb its second token names and the upper-cased first token as subject; for every verb but value, a third token `parseInt` reads is the quantity with no object, and any other third token is the upper-cased object with quantity 1; only buy and sell carry price 0, only buy source null; an unknown verb gives the null record |
| Parser.Three | modules/parser.js:224-363 | the three-token switch keeps the verb, subject, object and quantity it is given for every verb but value, adds price 0 to buy and sell and source null to buy, and gives the null record for an unknown verb |
| Parser.Parse | modules/parser.js:3-11 | splits off the comment at the first `#`, trims the command part and splits it on spaces; what it gives for lines of words is stated by `ParseWords`, `ParseWordsWithComment`, `ParseComment` and `ParseNoComment` |
| Parser.Dispatch | modules/parser.js:12-481 | picks the grammar by the number of tokens, as `DispatchArity` states |
| Parser.ParseOne | modules/parser.js:12-103 | one token: the verb it names, with object `true` for companycredits; the null record for any other word (`UnknownVerbIsNull`) |
| Parser.ParseTwo | modules/parser.js:104-213 | two tokens: the verb and the upper-cased object; banksize reads its amount as `BankSizeArgument` states |
| Parser.ParseMany | modules/parser.js:364-479 | buy, sell and give of four or more tokens, as `TradeOfFour`, `TradeOfFive`, `BuyOfSix`, `BuyOfSeven`, `GiveOfFive`, `GiveToNothingThrows` and `UnknownManyVerb` state |
| Js.ParseInt | modules/parser.js:219 | `parseInt` with no radix: leading whitespace skipped, an optional sign, an optional `0x`, then the longest digit run, NaN when it is empty; `ParseIntToString` reads every integer's text back |
| Js.StringToNumber | modules/gameState.js:131 | `Number` of a text, as `isNaN` coerces it: trimmed, blank text is 0, a signed decimal or unsigned `0x`/`0o`/`0b` literal is its value, anything else NaN; `NatToStringNumber`, `DecimalLiteral` and `DigitsThenCommentIsNaN` state its readings |
| Parser.ManyTokenVerb | modules/parser.js:364-371 | only buy, sell and give are recognized with more than three tokens |
| Parser.BankSizeArgument | modules/parser.js:145-164 | `banksize N` gives (null, N); `banksize XN` gives the letter X and N; an unreadable argument gives the object itself and 0 |
| Parser.DispatchArity | modules/parser.js:12-479 | the line is handled by the one-, two-, three- or many-token branch according to its token count |
| Parser.TradeOfFour | modules/parser.js:368-412 | `S buy N C` is a buy (or sell) of N shares of C by S at the default price 0, with a null source for a buy and no source field for a sell |
| Parser.BuyWithoutCount | modules/parser.js:378-380 | `S buy C P` without a count buys one share of C and reads P as the price |
| Parser.TradeOfFive | modules/parser.js:386-392 | a fifth token is the price, read after an optional `@` |
| Parser.BuyOfSix | modules/parser.js:393-401 | a sixth token that is not FROM is the source |
| Parser.BuyOfSeven | modules/parser.js:394-401 | `from` is skipped and the seventh token is the source |
| Parser.GiveOfFive | modules/parser.js:449-468 | `S give N to T` moves N from S to T |
| Parser.GiveToNothingThrows | modules/parser.js:456-459 | `S give N to` with nothing after `to` throws, since the object token is undefined |
| Parser.GiveToNothingDispatch | modules/parser.js:456-459 | the same throw, stated on the token list |
| Parser.UnknownManyVerb | modules/parser.js:470-477 | an unknown verb with more than three tokens gives the null action |
| Parser.UnknownVerbIsNull | modules/parser.js:470-477 | every action without a verb is the null action carrying only the comment |
| Parser.ValueNeverOne | modules/parser.js:294-310 | a parsed value action never has quantity 1 and has no object |
| Parser.ValueThree | modules/parser.js:294-310 | the same, for the three-token branch |
| Parser.ValueOfName | modules/parser.js:299-302 | `S value WORD` gives quantity NaN and no object |
| Parser.ValueOfNumber | modules/parser.js:219-223 | `S value N` keeps N as the quantity and has no object |
| Parser.ParseNoComment | modules/parser.js:3-10 | a line without `#` is split on spaces as it stands |
| Parser.ParseComment | modules/parser.js:4-9 | the text before the first `#`, trimmed, is split; the text up to the next `#`, trimmed, is the comment |
| Parser.ParseCommentOnly | modules/parser.js:4-9 | a line holding only `# c` parses to the null action with comment c |
| Parser.ParseWords | modules/parser.js:10 | words joined by single spaces parse as those words |
| Parser.ParseWordsWithComment | modules/parser.js:4-10 | `words # comment` parses as the words with that comment |
| Parser.ParseLine | modules/parser.js:4-10 | any line built from words and a comment reads back as those words and that comment |
| Parser.NullIsNotANumber | modules/parser.js:299 | the text `null` is not a number to `parseInt` |
| CommandHistory.PreviousDividend | modules/commandHistory.js:25-35 | the result is 0 exactly when no entry starts with `COMPANY dividend `; otherwise it is the suffix of the last such entry |
| CommandHistory.OtherCompanyNoMatch | modules/commandHistory.js:27-30 | another company's dividend entry never matches the prefix |
| CommandHistory.Store.GetCommandHistory | modules/commandHistory.js:9-13 | the game's list, or `[]` for an unknown game |
| CommandHistory.Store.AddCommandToHistory | modules/commandHistory.js:15-19 | the game's list grows by the command at its end, and the other games are unchanged |
| CommandHistory.Store.SaveCommandHistory | modules/commandHistory.js:21-23 | the game's list is replaced |
| CommandHistory.Store.GetPreviousDividend | modules/commandHistory.js:25-35 | the `reduce` loop computes `PreviousDividend` of the stored list |
| Shares.ChangeCount | modules/stockHoldings.js:14-36 | a NaN quantity changes nothing; selling more than is held leaves 0 with the "only has" feedback; otherwise the count moves by the quantity; from a non-negative holding the result is the sum clamped at 0, never negative |
| Shares.Change | modules/stockHoldings.js:14-36 | the entry is created if missing and takes `ChangeCount`; no other entry changes; a new owner is appended last |
| Shares.ChangeKeepsNonNegative | modules/stockHoldings.js:21-23 | holdings never go below zero |
| Shares.BuyThenSell | modules/stockHoldings.js:14-36 | selling what was just bought restores the holding |
| Shares.OwnersAreHoldings | modules/stockHoldings.js:38-52 | `getCompanyOwners` lists every owner in table order with that owner's count of the company (0 if none) |
| Shares.SumMatchingIsEntry | modules/stockHoldings.js:42-47 | the inner `reduce` picks out exactly the company's entry |
| Shares.CloseRemovesCompany | modules/stockHoldings.js:54-60 | after closing, no owner holds the company; owners and other companies are unchanged |
| Shares.CloseKeepsNonNegative | modules/stockHoldings.js:54-60 | closing keeps holdings non-negative |
| Shares.Companies | modules/stockHoldings.js:62-71 | the list holds exactly the companies someone holds |
| Shares.CompanyKeysLength | modules/stockHoldings.js:62-71 | duplicates are kept: the length is the sum of the owners' row sizes |
| Shares.AllCompanies | modules/gameState.js:285-295 | `Array.from(new Set(...))`: each held company exactly once |
| Shares.DedupFirstSeenOrder | modules/gameState.js:294 | companies keep the order in which they are first seen |
| StockHoldings.Holdings.ChangeSharesOwned | modules/stockHoldings.js:14-36 | the table becomes `Change` of the old table, and the feedback is its rendering |
| StockHoldings.Holdings.CloseCompany | modules/stockHoldings.js:54-60 | the loop over owners computes `Close` |
| StockHoldings.Holdings.GetCompanies | modules/stockHoldings.js:62-71 | the nested loop computes `Companies` |
| StockHoldings.Holdings.ResetHoldings | modules/stockHoldings.js:73-75 | the table is emptied |
| GameState.CashAfter | modules/gameState.js:105-109 | missing or NaN cash counts as 0, then `parseInt(sum)` is added; no other player's cash changes |
| GameState.CashTotalAfter | modules/gameState.js:105-109 | a numeric cash change moves the total by exactly that amount |
| GameState.ChangeCashLeavesBank | modules/gameState.js:323-331 | what the bank has left falls by what the player gains |
| GameState.PayDividendsCredits | modules/gameState.js:127-145 | every owner is credited shares times rate; non-owners are unchanged |
| GameState.DividendRate | modules/gameState.js:128-133 | a text starting with `PR` is replaced by the previous dividend, and anything that is not a number pays 0, as `NumericRateIgnoresHistory`, `PrevRepeatsLastDividend` and `PrevWithCommentPaysNothing` state |
| GameState.PaidDividends | modules/gameState.js:127-145 | the ledger after the owners are credited; `PayDividendsCredits`, `DividendTotal` and `DividendsLeaveBank` state the credits and the bank |
| GameState.PlayerWorth | modules/gameState.js:176-186 | cash plus shares times values, as `WorthIsSum` states |
| GameState.DividendTotal | modules/gameState.js:137-143 | the cash total grows by rate times all shares held |
| GameState.DividendsLeaveBank | modules/gameState.js:127-145 | the bank's remains fall by the whole payout |
| GameState.OwnersPayable | modules/gameState.js:80-94 | `_getCompanyOwners` has an entry for each owner: that owner's holding |
| GameState.NumericRateIgnoresHistory | modules/gameState.js:128-133 | a numeric amount pays itself, NaN pays 0, and the history is not read |
| GameState.PrevRepeatsLastDividend | modules/gameState.js:128-130 | `PREV` pays the amount of the company's last dividend entry |
| GameState.PrevWithCommentPaysNothing | modules/gameState.js:128-133 | when that entry carries a comment, `PREV` pays 0 |
| GameState.ValueAfter | modules/gameState.js:158-164 | a value that is not a number is rejected and nothing changes; otherwise only that company's value is set |
| GameState.ReadValue | modules/gameState.js:166-172 | an empty name returns the whole table; a missing or falsy value is set to 0 and returned |
| GameState.GetValueKeepsWorth | modules/gameState.js:166-172 | the default that `_getValue` writes does not change any company's numeric value |
| GameState.BankSizeAfter | modules/gameState.js:318-321 | a readable size is stored; an unreadable one leaves the bank size alone |
| GameState.WorthIsSum | modules/gameState.js:176-186 | a player's worth is cash plus the sum of shares times values |
| GameState.Game.ChangeSharesOwned | modules/gameState.js:52-78 | the table becomes `Change` of the old table |
| GameState.Game.ChangeCash | modules/gameState.js:105-109 | the cash becomes `CashAfter` |
| GameState.Game.PerShare | modules/gameState.js:128-133 | the rate is `DividendRate` of the amount and the stored list |
| GameState.Game.PayDividends | modules/gameState.js:127-145 | the cash becomes `DividendCash` at that rate |
| GameState.Game.PayOwners | modules/gameState.js:137-143 | the `forEach` loop credits the owners in order |
| GameState.Game.SetValue | modules/gameState.js:158-164 | the values and the acceptance are those of `ValueAfter` |
| GameState.Game.GetValue | modules/gameState.js:166-172 | the values and the result are those of `ReadValue` |
| GameState.Game.CalculatePlayerValue | modules/gameState.js:176-186 | the `reduce` computes `PlayerWorth`, and the values gain the defaults `_getValue` writes |
| GameState.Game.GetPlayers | modules/gameState.js:113-123 | the result is `Gathered` over the cash keys, then the holding keys: a name is pushed unless `players[name]` is truthy, which holds only for a name that is the index of an occupied slot |
| GameState.GatheredNames | modules/gameState.js:113-123 | `_getPlayers` keeps every name it pushed, returns only visited names, and returns every visited name that is not an array index |
| GameState.GatheredOrdinaryNames | modules/gameState.js:113-123 | when no name is an array index, the result is the cash keys followed by the holding keys, duplicates included |
| GameState.IndexNamesDropped | modules/gameState.js:116-121 | a player named `1` after two others is dropped, because `players["1"]` reads the second pushed name; `0` seen twice is kept once |
| Js.ArrayIndex | modules/gameState.js:116 | `players[name]` reads a slot only when `name` is the canonical decimal text of a number below 2^32 - 1 |
| Js.ArrayIndexOfNumber | modules/gameState.js:116 | the decimal text of every such number names its slot |
| GameState.Game.GetAllCompanies | modules/gameState.js:285-295 | the nested loops and the set give `AllCompanies` |
| GameState.Game.SetBankSize | modules/gameState.js:318-321 | the bank size becomes `BankSizeAfter` |
| GameState.Game.Open | modules/gameState.js:190-200 | a stored game becomes active; an unknown name changes nothing |
| GameState.Game.DeleteGame | modules/gameState.js:211-225 | a stored game is dropped; if it was active, no game is active |
| GameState.Game.NewGame | modules/gameState.js:227-238 | a new name resets the ledger and becomes active; an existing name changes nothing |
| GameState.Game.ResetGameState | modules/gameState.js:149-154 | holdings, cash, values and the bank size are cleared, and the name is kept |
| GameState.Game.SetCommandHistory | modules/gameState.js:31-33 | the active game's list is replaced |
| GameState.Game.GetCommandHistory | modules/gameState.js:35-38 | the active game's list |
| GameState.Game.AddToHistory | modules/gameState.js:40-42 | the active game's list grows by the command |
| Perform.Negated | modules/perform.js:89-90 | `count *= -1` negates a number and keeps NaN |
| Perform.Entry | modules/perform.js:74-76 | subject, verb and object, then the quantity when it is truthy; `BuyEntryReadsBackAsPrice` and `DividendEntryReadsBackAsNothing` show how the current parser reads such entries |
| Perform.Dispatched | modules/perform.js:51-66 | buy passes the quantity, sell its negation, dividend and value the object, as `SellIsNegatedBuy`, `NumericDividendPaysNothing` and `NumericValueStoresNull` state |
| Perform.Acted | modules/perform.js:26-70 | open, delete and start go to the store by the object's text, the rest to `Dispatched`; the ledger stays well formed |
| Perform.Performed | modules/perform.js:20-80 | parse, act, then log; `LogGrowth` and `QuietKeepsLists` state its effect on the lists |
| Perform.Logged | modules/perform.js:72-79 | an entry is appended exactly for buy, sell, dividend and value outside update mode; the ledger is untouched |
| Perform.LogGrowth | modules/perform.js:20-80 | a non-switching command grows the active list by at most its one entry and leaves other games alone |
| Perform.QuietKeepsLists | modules/perform.js:72 | in update mode no list changes except by a delete |
| Perform.SellIsNegatedBuy | modules/perform.js:89-95 | a sell is a buy of the negated quantity |
| Perform.NumericDividendPaysNothing | modules/perform.js:59-62 | `S dividend N` passes the null object, so it pays at rate 0 |
| Perform.NumericValueStoresNull | modules/perform.js:63-66 | `S value N` passes the null object, which `setValue` stores |
| Perform.BuyEntryReadsBackAsPrice | modules/perform.js:74-77 | the entry `A buy X 5` parses back with 5 as the price and 1 share |
| Perform.DividendEntryReadsBackAsNothing | modules/perform.js:74-77 | the entry `A dividend null 10` parses back to no action |
| Perform.Dispatcher.Perform | modules/perform.js:20-80 | the mode is sticky (`silent` switches it on for good), and the state becomes `Performed` |
| Perform.Dispatcher.Apply | modules/perform.js:26-79 | the switch, then the log step |
| Perform.Dispatcher.Switch | modules/perform.js:125-138 | open, delete and start act on the store by the object's text |
| Perform.Dispatcher.Trade | modules/perform.js:82-95 | buy and sell change the holdings as `Dispatched` says |
| Perform.Dispatcher.Book | modules/perform.js:51-66 | the ledger becomes `Dispatched` |
| CommandPrompt.SwitchedTo | modules/gameState.js:190-238 | open, delete and start on a name, as the store decides |
| CommandPrompt.Entry | modules/commandPrompt.js:139-241 | the normalized command of each logged verb, none for the others; `RecordReadsBack` shows that every canonical action's record parses back to it |
| CommandPrompt.Record | modules/commandPrompt.js:249-252 | the entry, then ` # comment` for a non-empty comment, trimmed |
| CommandPrompt.Acted | modules/commandPrompt.js:120-241 | game verbs go to `SwitchedTo`, the rest to `Booked`; the ledger stays well formed |
| CommandPrompt.Booked | modules/commandPrompt.js:149-236 | the ledger effect of each verb; the ledger stays well formed, and `BookedIgnoresHistory` shows that the stored list never matters, because the parsed quantity is always a number |
| CommandPrompt.Replayed | modules/commandPrompt.js:28-33 | the silent replay of a list, in order, stopping at the first throw; `ReplayAppend` shows one more line is one more step |
| CommandPrompt.Rebuilt | modules/commandPrompt.js:28-34 | reset, then replay; the ledger stays well formed |
| CommandPrompt.Applied | modules/commandPrompt.js:126-130 | the switch, then, for an `open` that did not throw, the replay of the opened game's list |
| CommandPrompt.Performed | modules/commandPrompt.js:105-254 | parse, act, then log; `PerformedLedgerCommand`, `PerformKeepsReplayable` and `PerformThenUndo` state its effect |
| CommandPrompt.Logged | modules/commandPrompt.js:247-252 | the record is appended to the active game's list unless the command threw, ran silently or logs nothing |
| CommandPrompt.Undone | modules/commandPrompt.js:38-44 | pop, rebuild from the rest, store the rest; the ledger stays well formed, and `UndoLastLine` shows an undo takes back the last line |
| CommandPrompt.DividendWordPaysOne | modules/commandPrompt.js:167-170 | `C dividend w` with a word `parseInt` cannot read pays 1 per share and records `C dividend 1` |
| CommandPrompt.DividendPrevPaysOne | modules/commandPrompt.js:167-170 | `C dividend prev` does not look up the last dividend: it pays 1 per share and records `C dividend 1` |
| CommandPrompt.RecordReadsBack | modules/commandPrompt.js:139-252 | every canonical action's logged line parses back to the same action |
| CommandPrompt.AmountReadsBack | modules/commandPrompt.js:167-193 | dividend, halfdividend, value, cash, float and income lines read back |
| CommandPrompt.TradeReadsBack | modules/commandPrompt.js:139-166 | buy and sell lines, with price and source, read back |
| CommandPrompt.GiveReadsBack | modules/commandPrompt.js:182-188 | `S give N to T` reads back |
| CommandPrompt.ObjectReadsBack | modules/commandPrompt.js:199-228 | close, next and rounding lines read back |
| CommandPrompt.BankSizeReadsBack | modules/commandPrompt.js:204-210 | a logged banksize reads back |
| CommandPrompt.CreditsReadsBack | modules/commandPrompt.js:229-233 | `companycredits` reads back |
| CommandPrompt.CommentReadsBack | modules/commandPrompt.js:109 | a comment-only line reads back as a comment |
| CommandPrompt.CanonicalStaysInGame | modules/commandPrompt.js:126-138 | no logged action switches games |
| CommandPrompt.BookedIgnoresHistory | modules/commandPrompt.js:167-171 | a numeric dividend does not depend on the stored list |
| CommandPrompt.ReplayIgnoresStore | modules/commandPrompt.js:28-34 | replaying ledger commands changes only the ledger and does not depend on the store |
| CommandPrompt.ReplayAppend | modules/commandPrompt.js:28-34 | replaying one more line is one more step |
| CommandPrompt.PerformedLedgerCommand | modules/commandPrompt.js:247-252 | a ledger command appends its record to the active list |
| CommandPrompt.AppendKeepsReplayable | modules/commandPrompt.js:249-252 | the ledger stays the replay of the active list after an append |
| CommandPrompt.PerformKeepsReplayable | modules/commandPrompt.js:105-254 | performing a canonical command keeps the ledger equal to the replay of the list |
| CommandPrompt.UndoLastLine | modules/commandPrompt.js:38-44 | undo drops the last line and rebuilds the state from before it |
| CommandPrompt.PerformThenUndo | modules/commandPrompt.js:38-44 | undo right after a logged command restores the state and returns that command |
| CommandPrompt.Prompt.Act | modules/commandPrompt.js:113-245 | the switch computes `Acted` |
| CommandPrompt.Prompt.Book | modules/commandPrompt.js:167-238 | the ledger verbs compute `Booked` |
| CommandPrompt.Prompt.Switch | modules/commandPrompt.js:126-138 | open, delete and start compute `Switched`; a non-text object throws |
| CommandPrompt.Prompt.RunLine | modules/commandPrompt.js:32 | one silent line computes `RunOf` and leaves the mode silent |
| CommandPrompt.Prompt.UpdateGameState | modules/commandPrompt.js:28-34 | reset, then the replay loop computes `Rebuilt` |
| CommandPrompt.Prompt.Perform | modules/commandPrompt.js:105-254 | the state becomes `Performed`; the mode is `silent` unless an `open` replayed |
| CommandPrompt.Prompt.PerformAction | modules/commandPrompt.js:109-252 | the switch, then the log step |
| CommandPrompt.Prompt.Apply | modules/commandPrompt.js:113-245 | the switch, and the replay that follows an open |
| CommandPrompt.Prompt.Undo | modules/commandPrompt.js:38-44 | the state and the popped line are those of `Undone` |
| EarlyLedger.Start | 18sh.js:16-24 | `if (!count) count = 0`: a missing entry, 0 or NaN starts at 0 |
| EarlyLedger.Bought | 18sh.js:16-33 | both names upper-cased, the holding set to `BuyCount`, as `BuyAdds` states |
| EarlyLedger.Sold | 18sh.js:35-63 | both names upper-cased, the holding set to `SellCount`, as `SellClamps`, `SellFrame` and `BuyThenSell` state |
| EarlyLedger.BuyCount | 18sh.js:16-24 | a purchase adds `parseInt(n)` to the count, or gives NaN |
| EarlyLedger.SellCount | 18sh.js:35-54 | a sale clamps at 0 when the count is below `Number(n)`, and otherwise subtracts `parseInt(n)` |
| EarlyLedger.BuyAdds | index.js:9-26 | a purchase writes only its own entry |
| EarlyLedger.SellClamps | index.js:28-56 | a sale of a plain count leaves the difference or 0, and never less than 0 |
| EarlyLedger.SellFrame | index.js:28-56 | a sale writes only its own entry |
| EarlyLedger.BuyThenSell | 18sh.js:16-54 | selling what was just bought restores the count |
| EarlyLedger.SuffixedCountOversells | 18sh.js:35-54 | selling `5x` from a holding of 2 leaves -3 |
| Prototype.Count | index.js:99 | an empty or missing fourth token counts 1 |
| Prototype.Step | index.js:78-120 | buy and sell of three or more tokens change the table and report true, anything else reports false (`StepReportsAccepted`) |
| Prototype.Undone | index.js:131-136 | pop and replay, throwing on a missing list; `UndoTakesBack` and `UndoneKeepsConsistent` state its effect |
| Prototype.Entered | index.js:137-145 | perform, then push and store when `perform` returned true; `EnteredKeepsConsistent` states its effect |
| Prototype.StepReportsAccepted | index.js:78-120 | `perform` returns true exactly for a buy or sell with three tokens or more, and any other command leaves the table alone |
| Prototype.ReplayedAppend | index.js:72-76 | replaying one more command is one more step |
| Prototype.EnteredKeepsConsistent | index.js:137-145 | after a command the table is still the replay of the stored list |
| Prototype.UndoneKeepsConsistent | index.js:131-136 | undo leaves a consistent state one command shorter, or throws on an undefined list |
| Prototype.UndoTakesBack | index.js:131-145 | undo right after an accepted command restores the table |
| Prototype.ClearedStart | index.js:149 | the cleared start is consistent, and undo there throws |
| Prototype.Session.Buy | index.js:9-26 | the table becomes `Bought` |
| Prototype.Session.Sell | index.js:28-56 | the table becomes `Sold` |
| Prototype.Session.Perform | index.js:78-120 | the table and the result are `Step` |
| Prototype.Session.UpdateGameState | index.js:72-76 | the loop computes the replay from an empty table |
| Prototype.Session.Enter | index.js:130-146 | undo, quit/exit, or a command that is logged when accepted |
| Shell.PerformReportsAccepted | 18sh.js:198-313 | a command is logged exactly when it is accepted |
| Shell.Step | 18sh.js:259-310 | the ledger cases of `perform` and its return value, as `SwapIsOrderFree`, `CountDefaultsToOne`, `DividendPaysHolders` and `ValueStoresText` state |
| Shell.Performed | 18sh.js:198-313 | `perform(command)` on the world; `PerformReportsAccepted` and `PerformedKeepsValid` state its effect |
| Shell.Undone | 18sh.js:331-338 | pop, replay and store, throwing on a missing list; `UndoTakesBack` and `UndoneKeepsValid` state its effect |
| Shell.Entered | 18sh.js:350-356 | perform, then append when `perform` returned true; `EnteredKeepsReplay` and `EnteredKeepsValid` state its effect |
| Shell.Credited | 18sh.js:81-98 | every holder of the company is credited from its base, and everyone else is unchanged (`DividendPaysHolders`) |
| Shell.SwapIsOrderFree | 18sh.js:263-268 | `S buy 3 C` and `S buy C 3` are the same command |
| Shell.CountDefaultsToOne | 18sh.js:259-268 | a missing or empty count is 1 |
| Shell.DividendPaysHolders | 18sh.js:81-98 | each holder gets cash base plus shares times the amount |
| Shell.UnreadableDividendPoisons | 18sh.js:81-98 | an unreadable amount turns every holder's cash to NaN |
| Shell.ValueStoresText | 18sh.js:100-106 | a value is stored as the text typed |
| Shell.ValueVerbOnly | 18sh.js:269-310 | the value words clash with no other verb |
| Shell.ReplayedAppend | 18sh.js:134-140 | replaying one more line is one more step |
| Shell.PerformedKeepsValid | 18sh.js:198-313 | every stored list stays replayable |
| Shell.EnteredKeepsValid | 18sh.js:350-357 | the same, for a command entered at the prompt |
| Shell.UndoneKeepsValid | 18sh.js:331-338 | the same, after undo |
| Shell.EnteredKeepsReplay | 18sh.js:350-357 | the ledger stays the replay of the active list |
| Shell.UndoTakesBack | 18sh.js:331-357 | undo right after an accepted command restores the list and the ledger, and records the command as undone |
| Shell.Console.Buy | 18sh.js:16-24 | the table becomes `Bought` |
| Shell.Console.Sell | 18sh.js:35-54 | the table becomes `Sold` |
| Shell.Console.Dividend | 18sh.js:81-98 | the loop over holders computes `Credited` |
| Shell.Console.Value | 18sh.js:100-106 | the company's value is set to the text |
| Shell.Console.ZeroCash | 18sh.js:65-79 | the cash defaults `holdings()` writes |
| Shell.Console.ResetGameState | 18sh.js:128-132 | the ledger is emptied |
| Shell.Console.UpdateGameState | 18sh.js:134-140 | reset, then the replay loop |
| Shell.Console.Open | 18sh.js:142-151 | a stored game is opened and replayed |
| Shell.Console.DeleteGame | 18sh.js:160-178 | a stored game is dropped when confirmed |
| Shell.Console.NewGame | 18sh.js:180-189 | a new name resets the ledger and becomes current |
| Shell.Console.Perform | 18sh.js:198-313 | the state becomes `Performed` |
| Shell.Console.Undo | 18sh.js:331-338 | the state becomes `Undone` |
| Shell.Console.Enter | 18sh.js:331-357 | undo, quit, or a command whose line is logged when accepted |

## Left out

- Terminal output, feedback colours, the status bar, the display, tables
  and usage text. Feedback strings are modelled only where a contract
  names them (`Render`).
- Configstore persistence. The store is a map from game name to list. The
  `currentGameName` key is modelled in `Shell` and, in the modular
  version, approximated by the active game's name.
- `listGames`, `createOrLoadGame`, the name generator, the 18sh.js
  start-up code (18sh.js:363-373) and the `help` command. These only
  print, or pick a random name.
- The asynchronous confirmation of `delete` in 18sh.js. The answer is a
  parameter.
- `buyShares`, `sellShares`, `payHalfDividends`, `moveCash`, `float`,
  `close`, `nextRound`, `setIncome` and `setParameter`. commandPrompt.js
  calls them, but modules/gameState.js does not define them. Their effect
  on the ledger is an arbitrary function of the ledger and the action
  (`CommandPrompt.Unseen`) that keeps the ledger well formed.
- `displayContent` and `getCompanyTable`, which commandPrompt.js also
  calls (lines 25 and 216) and gameState.js does not define. The first is
  covered in the line on `CommandPrompt.Performed` below. The second
  makes the `companies` verb throw a TypeError in JavaScript, before
  anything is logged; the model treats that verb as printing only, so
  `CommandPrompt.Booked` leaves the ledger as it is and reports no throw.
- Numbers are unbounded integers:
  - fractions, exponents, `Infinity` and float rounding are not modelled;
  - `Number` reads signed decimal integers, unsigned `0x`/`0o`/`0b`
    literals and blank text (as 0), ignoring surrounding whitespace; a
    fraction, an exponent, `Infinity` or any other text is NaN;
  - `parseInt` of a number above 1e21, which JavaScript prints in
    exponent form, is not modelled.
- `toUpperCase` and `toLowerCase` convert ASCII letters only.
- A null game name is modelled as the empty name.
- Shell.Console.Perform: the `holdings`/`values` branches are modelled
  only by the cash defaults they write. Their tables are printed and not
  modelled.
- Shell.ValidConf: stored lists are assumed to hold only accepted
  commands, because only accepted commands are ever stored.
- GameState.Game.CalculatePlayerValue: requires a non-empty player. With
  an empty player `_getCash` returns the whole cash table, and adding a
  table is not modelled.
- CommandPrompt.Performed, CommandPrompt.Prompt.Perform: the
  `updateStatusBar` call that ends a non-silent command
  (commandPrompt.js:253, 23-26) is left out, and it has two effects
  besides the display:
  - through `statusBarContent`, `_calculatePlayerValue` and `_getValue`
    (gameState.js:263-280, 176-186, 166-172) it writes `values[c] = 0`
    for every company `c` an owner holds whose value is missing or falsy.
    These are the writes `GameState.Defaults` describes and
    `GameState.Game.CalculatePlayerValue` makes; they leave every
    player's worth unchanged (`GameState.GetValueKeepsWorth`). The
    model's ledger lacks these 0 entries, so `PerformKeepsReplayable`
    holds in JavaScript only up to them;
  - it then calls `gameState.displayContent`, which gameState.js does not
    define, so every non-silent command that gets this far throws a
    TypeError after its line has been logged. The model reports no throw
    there.
- Perform.Performed, Perform.Dispatcher.Perform: the
  `gameStateObject.updateStatusBar()` call after a logged line
  (perform.js:78) is left out. The game state module does not define it,
  so in JavaScript it throws after the line has been appended.
- Dicts: a key that is an array index (`0`, `1`, …) stays in insertion
  order in the model, while `Object.keys` lists such keys first, in
  ascending order. Orders derived from the keys (GameState.Game.GetPlayers,
  GameState.Game.GetAllCompanies, Shares.OwnersAreHoldings,
  GameState.Game.PayOwners) are those of JavaScript only when no name is
  an array index. Sums and the set of names are unaffected.
- CommandPrompt.RunOf, CommandPrompt.Replayed, CommandPrompt.Rebuilt,
  CommandPrompt.Prompt.RunLine, CommandPrompt.Prompt.UpdateGameState: an
  `open` line met during a replay only switches the active game. In
  commandPrompt.js:126-128 it also resets the ledger and replays the
  opened game's list inside the outer replay, which recurses without bound
  when a list opens its own game. The program never logs `open`
  (CommandPrompt.CanonicalStaysInGame), so only a list edited by hand in
  the store holds one.
