/** index.js: the earliest prototype. It knows only `buy`, `sell` and
    `holdings`, keeps a single list of commands under `commandHistory` in
    Configstore (cleared at every start), and `undo` pops that list and
    replays the rest silently into a fresh share table. */
module Prototype {
  import opened Js
  import opened EarlyLedger

  /** `parts[3] ? parts[3] : 1`: an empty or missing fourth token counts 1. */
  function Count(parts: seq<string>): (n: JsVal)
    requires |parts| > 2
    ensures n == JNum(Int(1)) <==> |parts| == 3 || parts[3] == ""
    ensures n != JNum(Int(1)) ==> n == JStr(parts[3])
  {
    if |parts| > 3 && parts[3] != "" then JStr(parts[3]) else JNum(Int(1))
  }

  /** The commands `perform` returns true for: three tokens or more with a
      buy or sell abbreviation second. */
  predicate Accepted(command: string) {
    var parts := Split(command, ' ');
    |parts| > 2 && (parts[1] in BuyWords || parts[1] in SellWords)
  }

  /** `perform(command)`: the new share table and the return value. The
      one-token `holdings` only prints. */
  function Step(s: Holdings, command: string): (Holdings, bool) {
    var parts := Split(command, ' ');
    if |parts| <= 2 then (s, false)
    else if parts[1] in BuyWords then (Bought(s, parts[0], parts[2], Count(parts)), true)
    else if parts[1] in SellWords then (Sold(s, parts[0], parts[2], Count(parts)), true)
    else (s, false)
  }

  /** `updateGameState(commandHistory)` from the table `s`. */
  function Replayed(s: Holdings, lines: seq<string>): Holdings
    decreases |lines|
  {
    if lines == [] then s else Replayed(Step(s, lines[0]).0, lines[1..])
  }

  /** The share table and `conf.get("commandHistory")`, which is undefined
      until the first command is stored. */
  datatype Saved = Saved(sharesOwned: Holdings, history: Option<seq<string>>)

  /** The stored list, `[]` when there is none. */
  function Listed(w: Saved): seq<string> {
    if w.history.None? then [] else w.history.value
  }

  /** The state right after `conf.clear()`. */
  function Cleared(): Saved {
    Saved(map[], None)
  }

  /** The share table is the replay of the stored list. */
  predicate Consistent(w: Saved) {
    w.sharesOwned == Replayed(map[], Listed(w))
  }

  /** The `undo` branch: the new state and whether `pop` on an undefined
      list threw. */
  function Undone(w: Saved): (Saved, bool) {
    if w.history.None? then (w, true)
    else
      var lines := w.history.value;
      var rest := if lines == [] then [] else lines[..|lines| - 1];
      (Saved(Replayed(map[], rest), Some(rest)), false)
  }

  /** The other branch: the input is performed and, when `perform`
      returns true, pushed and stored. */
  function Entered(w: Saved, input: string): Saved
    requires input != "undo" && input != "quit" && input != "exit"
  {
    var (s, logged) := Step(w.sharesOwned, input);
    if logged then Saved(s, Some(Listed(w) + [input])) else Saved(s, w.history)
  }

  // ------------------------------------------------------------------ lemmas

  /** `perform` returns true exactly for an accepted command, and any other
      command leaves the table alone. */
  lemma StepReportsAccepted(s: Holdings, command: string)
    ensures Step(s, command).1 <==> Accepted(command)
    ensures !Accepted(command) ==> Step(s, command).0 == s
  {
  }

  /** Replaying one more command is one more step. */
  lemma {:induction false} ReplayedAppend(s: Holdings, lines: seq<string>, line: string)
    ensures Replayed(s, lines + [line]) == Step(Replayed(s, lines), line).0
    decreases |lines|
  {
    if lines == [] {
      assert [] + [line] == [line];
    } else {
      assert (lines + [line])[1..] == lines[1..] + [line];
      ReplayedAppend(Step(s, lines[0]).0, lines[1..], line);
    }
  }

  /** The cleared start is consistent, and `undo` there throws. */
  lemma ClearedStart()
    ensures Consistent(Cleared())
    ensures Undone(Cleared()).1
  {
  }

  /** Entering a command keeps the table equal to the replay of the list. */
  lemma EnteredKeepsConsistent(w: Saved, input: string)
    requires input != "undo" && input != "quit" && input != "exit"
    requires Consistent(w)
    ensures Consistent(Entered(w, input))
    ensures Entered(w, input).history.Some? <==> w.history.Some? || Accepted(input)
  {
    StepReportsAccepted(w.sharesOwned, input);
    ReplayedAppend(map[], Listed(w), input);
  }

  /** An `undo` that does not throw leaves a consistent state, one command
      shorter. */
  lemma UndoneKeepsConsistent(w: Saved)
    ensures var (u, thrown) := Undone(w);
      (thrown <==> w.history.None?)
      && (!thrown ==> Consistent(u) && |Listed(u)| == if Listed(w) == [] then 0 else |Listed(w)| - 1)
  {
  }

  /** `undo` right after an accepted command restores the table and the
      list as they were (the list defined, if it was not). */
  lemma UndoTakesBack(w: Saved, input: string)
    requires input != "undo" && input != "quit" && input != "exit"
    requires Consistent(w) && Accepted(input)
    ensures Undone(Entered(w, input)) == (Saved(w.sharesOwned, Some(Listed(w))), false)
  {
    StepReportsAccepted(w.sharesOwned, input);
    var lines := Listed(w) + [input];
    assert lines[..|lines| - 1] == Listed(w);
  }

  // ----------------------------------------------------------- the program

  /** The module-level `gameState.sharesOwned` and the stored list. */
  class Session {
    var sharesOwned: Holdings
    var history: Option<seq<string>>

    function State(): Saved
      reads this
    {
      Saved(sharesOwned, history)
    }

    /** `conf.clear()` at start-up, with an empty table. */
    constructor ()
      ensures State() == Cleared()
    {
      sharesOwned, history := map[], None;
    }

    /** `buy(buyer, object, count)`. */
    method Buy(buyer: string, company: string, count: JsVal)
      modifies this`sharesOwned
      ensures sharesOwned == Bought(old(sharesOwned), buyer, company, count)
    {
      var obj := ToUpper(company);
      var owner := ToUpper(buyer);
      var row := if owner in sharesOwned then sharesOwned[owner] else map[];
      ghost var found := row;
      if !(obj in row && Truthy(JNum(row[obj]))) {
        row := row[obj := Int(0)];
      }
      var held := Add(row[obj], ParseIntVal(count));
      TradeStep(sharesOwned, owner, obj, found, row, held);
      sharesOwned := sharesOwned[owner := row[obj := held]];
    }

    /** `sell(seller, object, count)`. */
    method Sell(seller: string, company: string, count: JsVal)
      modifies this`sharesOwned
      ensures sharesOwned == Sold(old(sharesOwned), seller, company, count)
    {
      var obj := ToUpper(company);
      var owner := ToUpper(seller);
      var row := if owner in sharesOwned then sharesOwned[owner] else map[];
      ghost var found := row;
      if !(obj in row && Truthy(JNum(row[obj]))) {
        row := row[obj := Int(0)];
      }
      var n := count;
      if Less(row[obj], ToNumber(count)) {
        n := JNum(row[obj]);
      }
      var held := Sub(row[obj], ParseIntVal(n));
      TradeStep(sharesOwned, owner, obj, found, row, held);
      SellHeld(Start(sharesOwned, owner, obj), count, n);
      sharesOwned := sharesOwned[owner := row[obj := held]];
    }

    /** `perform(command)`. */
    method Perform(command: string) returns (logged: bool)
      modifies this`sharesOwned
      ensures (sharesOwned, logged) == Step(old(sharesOwned), command)
    {
      var parts := Split(command, ' ');
      logged := false;
      if |parts| > 2 {
        var count := if |parts| > 3 && parts[3] != "" then JStr(parts[3]) else JNum(Int(1));
        if parts[1] in BuyWords {
          Buy(parts[0], parts[2], count);
          logged := true;
        } else if parts[1] in SellWords {
          Sell(parts[0], parts[2], count);
          logged := true;
        }
      }
    }

    /** `updateGameState(commandHistory)`. */
    method UpdateGameState(lines: seq<string>)
      modifies this`sharesOwned
      ensures sharesOwned == Replayed(map[], lines)
    {
      sharesOwned := map[];
      var i := 0;
      while i < |lines|
        invariant 0 <= i <= |lines|
        invariant Replayed(sharesOwned, lines[i..]) == Replayed(map[], lines)
      {
        assert lines[i..][1..] == lines[i + 1..];
        var _ := Perform(lines[i]);
        i := i + 1;
      }
      assert lines[i..] == [];
    }

    /** The input callback: `undo`, `quit`/`exit`, or a command. */
    method Enter(input: string) returns (thrown: bool, exited: bool)
      modifies this
      ensures input == "undo" ==> !exited && (State(), thrown) == Undone(old(State()))
      ensures input == "quit" || input == "exit" ==> exited && !thrown && State() == old(State())
      ensures input != "undo" && input != "quit" && input != "exit" ==>
        !exited && !thrown && State() == Entered(old(State()), input)
    {
      thrown, exited := false, false;
      if input == "undo" {
        if history.None? {
          thrown := true;
          return;
        }
        var lines := history.value;
        if lines != [] {
          lines := lines[..|lines| - 1];
        }
        UpdateGameState(lines);
        history := Some(lines);
      } else if input != "quit" && input != "exit" {
        var lines := if history.None? then [] else history.value;
        var logged := Perform(input);
        if logged {
          history := Some(lines + [input]);
        }
      } else {
        exited := true;
      }
    }
  }
}
