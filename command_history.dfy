/** modules/commandHistory.js: the persisted command list of each game,
    kept in a key/value store under the game's name. */
module CommandHistory {
  import opened Js

  /** The text a dividend entry of `company` starts with. */
  function DividendPrefix(company: string): string {
    company + " dividend "
  }

  /** The amount text of the last entry starting with the dividend prefix,
      or the number 0 when there is none. */
  function PreviousDividend(history: seq<string>, company: string): (r: JsVal)
    ensures r.JNum? || r.JStr?
    ensures r.JNum? <==> forall i :: 0 <= i < |history| ==> !StartsWith(history[i], DividendPrefix(company))
    ensures r.JNum? ==> r == JNum(Int(0))
    ensures r.JStr? ==>
      (exists i :: 0 <= i < |history| && history[i] == DividendPrefix(company) + r.s &&
        forall j :: i < j < |history| ==> !StartsWith(history[j], DividendPrefix(company)))
  {
    var prefix := DividendPrefix(company);
    if history == [] then JNum(Int(0))
    else
      var last := history[|history| - 1];
      if StartsWith(last, prefix) then
        assert last == prefix + last[|prefix|..];
        JStr(last[|prefix|..])
      else
        var r := PreviousDividend(history[..|history| - 1], company);
        assert forall i :: 0 <= i < |history| - 1 ==> history[..|history| - 1][i] == history[i];
        r
  }

  /** The value an entry leaves in the `reduce` accumulator. */
  function ScanStep(accumulator: JsVal, command: string, company: string): JsVal {
    var prefix := DividendPrefix(company);
    if |prefix| <= |command| && command[..|prefix|] == prefix then JStr(command[|prefix|..])
    else accumulator
  }

  /** Entries of another company never match: company names have no spaces,
      and the prefix ends with one, so `C` does not match `CR dividend …`. */
  lemma {:induction false} OtherCompanyNoMatch(c: string, d: string, rest: string)
    requires c != d && ' ' !in c && ' ' !in d
    ensures !StartsWith(d + " dividend " + rest, DividendPrefix(c))
  {
    var entry := d + " dividend " + rest;
    var prefix := DividendPrefix(c);
    if |c| < |d| {
      assert entry[|c|] == d[|c|] != ' ';
      assert prefix[|c|] == ' ';
    } else if |c| > |d| {
      assert entry[|d|] == ' ';
      assert prefix[|d|] == c[|d|] != ' ';
    } else {
      assert entry[..|c|] == d && prefix[..|c|] == c;
    }
  }

  /** The session directory: game name -> stored command list. */
  class Store {
    var games: map<string, seq<string>>

    constructor ()
      ensures games == map[]
    {
      games := map[];
    }

    /** The stored list of `name`, or the empty list. */
    function History(name: string): seq<string>
      reads this
    {
      if name in games then games[name] else []
    }

    /** `getCommandHistory(gameState)`. */
    method GetCommandHistory(name: string) returns (history: seq<string>)
      ensures history == History(name)
      ensures name !in games ==> history == []
    {
      if name in games {
        history := games[name];
      } else {
        history := [];
      }
    }

    /** `addCommandToHistory(command, gameState)`: push, then save. */
    method AddCommandToHistory(command: string, name: string)
      modifies this
      ensures games == old(games)[name := old(History(name)) + [command]]
      ensures History(name) == old(History(name)) + [command]
    {
      var history := GetCommandHistory(name);
      history := history + [command];
      SaveCommandHistory(history, name);
    }

    /** `saveCommandHistory(commandHistory, gameState)`. */
    method SaveCommandHistory(history: seq<string>, name: string)
      modifies this
      ensures games == old(games)[name := history]
    {
      games := games[name := history];
    }

    /** `conf.delete(name)`: the game's list is dropped from the store. */
    method DeleteGame(name: string)
      modifies this
      ensures games == old(games) - {name}
    {
      games := games - {name};
    }

    /** `getPreviousDividend(company, gameState)`: a `reduce` over the whole
        stored list starting from the number 0. */
    method GetPreviousDividend(company: string, name: string) returns (dividend: JsVal)
      ensures dividend == PreviousDividend(History(name), company)
    {
      var history := GetCommandHistory(name);
      dividend := JNum(Int(0));
      var i := 0;
      while i < |history|
        invariant 0 <= i <= |history|
        invariant dividend == PreviousDividend(history[..i], company)
      {
        dividend := ScanStep(dividend, history[i], company);
        assert history[..i + 1][..i] == history[..i];
        i := i + 1;
      }
      assert history[..i] == history;
    }
  }
}
