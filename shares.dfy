/** The share table `sharesOwned: owner -> company -> count` shared by
    modules/stockHoldings.js and modules/gameState.js, as values: what each
    of their operations makes of the table. */
module Shares {
  import opened Js
  import opened Dicts

  /** owner -> company -> number of shares, both levels in insertion order. */
  type Table = Dict<Dict<int>>

  ghost predicate ValidTable(s: Table) {
    s.Valid() && forall p :: p in s.m ==> s.m[p].Valid()
  }

  /** Whether `sharesOwned[p][c]` exists. */
  predicate Has(s: Table, p: string, c: string) {
    p in s.m && c in s.m[p].m
  }

  /** `sharesOwned[p][c]`, 0 where it does not exist. */
  function Holding(s: Table, p: string, c: string): int {
    if Has(s, p, c) then s.m[p].m[c] else 0
  }

  ghost predicate NonNegative(s: Table) {
    forall p, c :: Has(s, p, c) ==> s.m[p].m[c] >= 0
  }

  /** What `changeSharesOwned` reports. */
  datatype Feedback =
    | Silent                          // NaN quantity, or quantity 0
    | Bought(quantity: int, now: int)
    | Sold(quantity: int, now: int)   // quantity is the absolute value
    | SellingAll(had: int)            // the oversell clamp

  /** An owner's row, or the empty row `changeSharesOwned` creates. */
  function Row(s: Table, p: string): Dict<int> {
    if p in s.m then s.m[p] else Empty()
  }

  /** `sharesOwned[actor][company] = v`, creating the row if needed. */
  function SetEntry(s: Table, actor: string, company: string, v: int): (r: Table)
    requires ValidTable(s)
    ensures ValidTable(r)
    ensures Has(r, actor, company) && Holding(r, actor, company) == v
    ensures forall p, c :: p != actor || c != company ==>
      Holding(r, p, c) == Holding(s, p, c) && (Has(r, p, c) <==> Has(s, p, c))
    ensures r.keys == if actor in s.m then s.keys else s.keys + [actor]
  {
    s.Put(actor, Row(s, actor).Put(company, v))
  }

  /** The new count and the report of `changeSharesOwned`, from the old
      count `h` and `parseInt(quantity)`. */
  function ChangeCount(h: int, q: Num): (r: (int, Feedback))
    ensures q.NaN? ==> r == (h, Silent)
    ensures q.Int? && q.n < 0 && -q.n > h ==> r == (0, SellingAll(h))
    ensures q.Int? && !(q.n < 0 && -q.n > h) ==>
      r.0 == h + q.n &&
      r.1 == (if q.n > 0 then Bought(q.n, r.0) else if q.n < 0 then Sold(-q.n, r.0) else Silent)
    ensures q.Int? && h >= 0 ==> r.0 == if h + q.n < 0 then 0 else h + q.n
    ensures h >= 0 ==> r.0 >= 0
  {
    if q.Int? && q.n < 0 && -q.n > h then (0, SellingAll(h))
    else if q.Int? then
      var now := h + q.n;
      (now, if q.n > 0 then Bought(q.n, now) else if q.n < 0 then Sold(-q.n, now) else Silent)
    else (h, Silent)
  }

  /** `changeSharesOwned(actor, company, quantity)`: the missing row and the
      missing entry are created first; a sale of more than the holding
      empties it; NaN changes nothing. */
  function Change(s: Table, actor: string, company: string, quantity: Num): (r: (Table, Feedback))
    requires ValidTable(s)
    ensures ValidTable(r.0)
    ensures Has(r.0, actor, company)
    ensures (Holding(r.0, actor, company), r.1) == ChangeCount(Holding(s, actor, company), quantity)
    ensures forall p, c :: p != actor || c != company ==>
      Holding(r.0, p, c) == Holding(s, p, c) && (Has(r.0, p, c) <==> Has(s, p, c))
    ensures r.0.keys == if actor in s.m then s.keys else s.keys + [actor]
  {
    ParseIntOfNumber(quantity);
    var c := ChangeCount(Holding(s, actor, company), ParseIntVal(JNum(quantity)));
    (SetEntry(s, actor, company, c.0), c.1)
  }

  /** A table without negative counts keeps none after any change: the
      clamp stops every oversale at zero. */
  lemma ChangeKeepsNonNegative(s: Table, actor: string, company: string, quantity: Num)
    requires ValidTable(s) && NonNegative(s)
    ensures NonNegative(Change(s, actor, company, quantity).0)
  {
    var r := Change(s, actor, company, quantity).0;
    var h := Holding(s, actor, company);
    assert h >= 0;
    forall p, c | Has(r, p, c)
      ensures r.m[p].m[c] >= 0
    {
      assert Holding(r, p, c) == r.m[p].m[c];
      if p != actor || c != company {
        assert Has(s, p, c);
      } else {
        assert Has(s, p, c) ==> Holding(s, p, c) >= 0;
      }
    }
  }

  /** A purchase followed by a sale of the same amount restores the holding. */
  lemma BuyThenSell(s: Table, actor: string, company: string, q: int)
    requires ValidTable(s) && NonNegative(s) && q >= 0
    ensures var bought := Change(s, actor, company, Int(q)).0;
      Holding(Change(bought, actor, company, Int(-q)).0, actor, company) == Holding(s, actor, company)
  {
    var h := Holding(s, actor, company);
    assert h >= 0;
    ChangeBy(s, actor, company, q, h);
    ChangeBy(Change(s, actor, company, Int(q)).0, actor, company, -q, h + q);
  }

  /** Changing a holding `h` by `q` with `h + q >= 0` gives `h + q`. */
  lemma ChangeBy(s: Table, actor: string, company: string, q: int, h: int)
    requires ValidTable(s) && Holding(s, actor, company) == h && h + q >= 0
    ensures Holding(Change(s, actor, company, Int(q)).0, actor, company) == h + q
  {
    assert ChangeCount(h, Int(q)).0 == h + q;
  }

  // ------------------------------------------------------ getCompanyOwners

  /** The inner `reduce` of `getCompanyOwners`: the sum of `row[k]` over the
      keys `k` equal to `company`. */
  function SumMatching(keys: seq<string>, row: map<string, int>, company: string): int
    requires forall k :: k in keys ==> k in row
  {
    if keys == [] then 0
    else (if keys[0] == company then row[keys[0]] else 0) + SumMatching(keys[1..], row, company)
  }

  /** Keys are distinct, so the sum picks at most one entry. */
  lemma {:induction false} SumMatchingIsEntry(keys: seq<string>, row: map<string, int>, company: string)
    requires Distinct(keys) && forall k :: k in keys ==> k in row
    ensures SumMatching(keys, row, company) == if company in keys then row[company] else 0
  {
    if keys != [] {
      assert Distinct(keys[1..]);
      SumMatchingIsEntry(keys[1..], row, company);
      if keys[0] == company {
        assert company !in keys[1..];
      }
    }
  }

  /** The outer `reduce`: the first `n` owners, each with its count. */
  function OwnersUpTo(s: Table, company: string, n: nat): (r: Dict<int>)
    requires ValidTable(s) && n <= |s.keys|
    ensures r.Valid() && r.keys == s.keys[..n]
  {
    if n == 0 then Empty()
    else
      var p := s.keys[n - 1];
      var prev := OwnersUpTo(s, company, n - 1);
      assert p !in prev.keys by {
        assert s.keys[..n - 1] + [p] == s.keys[..n];
      }
      assert prev.keys + [p] == s.keys[..n];
      prev.Put(p, SumMatching(s.m[p].keys, s.m[p].m, company))
  }

  /** `getCompanyOwners(company)` / `_getCompanyOwners(company)`. */
  function Owners(s: Table, company: string): Dict<int>
    requires ValidTable(s)
  {
    OwnersUpTo(s, company, |s.keys|)
  }

  /** One key per owner, in owner order, holding that owner's count of
      `company` (0 for an owner without it). */
  lemma OwnersAreHoldings(s: Table, company: string)
    requires ValidTable(s)
    ensures Owners(s, company).Valid()
    ensures Owners(s, company).keys == s.keys
    ensures forall p :: p in s.m ==> Owners(s, company).m[p] == Holding(s, p, company)
  {
    assert s.keys[..|s.keys|] == s.keys;
    OwnersUpToHoldings(s, company, |s.keys|);
  }

  lemma {:induction false} OwnersUpToHoldings(s: Table, company: string, n: nat)
    requires ValidTable(s) && n <= |s.keys|
    ensures forall p :: p in s.keys[..n] ==> OwnersUpTo(s, company, n).m[p] == Holding(s, p, company)
  {
    if n > 0 {
      OwnersUpToHoldings(s, company, n - 1);
      var p := s.keys[n - 1];
      SumMatchingIsEntry(s.m[p].keys, s.m[p].m, company);
      forall x | x in s.keys[..n]
        ensures OwnersUpTo(s, company, n).m[x] == Holding(s, x, company)
      {
        if x != p {
          assert x in s.keys[..n - 1] by {
            assert s.keys[..n] == s.keys[..n - 1] + [p];
          }
        }
      }
    }
  }

  // ------------------------------------------------------------ closeCompany

  /** `closeCompany(company)`: the key removed from every owner's row. */
  function Close(s: Table, company: string): (r: Table)
    requires ValidTable(s)
    ensures ValidTable(r)
  {
    Dict(s.keys, map p | p in s.m :: s.m[p].Remove(company))
  }

  /** Afterwards nobody holds `company`; every owner and every other entry
      is as before. */
  lemma CloseRemovesCompany(s: Table, company: string)
    requires ValidTable(s)
    ensures Close(s, company).keys == s.keys
    ensures forall p :: !Has(Close(s, company), p, company)
    ensures forall p, c :: c != company ==>
      (Has(Close(s, company), p, c) <==> Has(s, p, c)) && Holding(Close(s, company), p, c) == Holding(s, p, c)
  {
  }

  lemma CloseKeepsNonNegative(s: Table, company: string)
    requires ValidTable(s) && NonNegative(s)
    ensures NonNegative(Close(s, company))
  {
  }

  // ------------------------------------------------------------ getCompanies

  /** The company keys of the owners `owners`, row after row. */
  function CompanyKeys(s: Table, owners: seq<string>): (r: seq<string>)
    requires ValidTable(s) && forall p :: p in owners ==> p in s.m
    ensures forall c :: c in r <==> exists p :: p in owners && Has(s, p, c)
  {
    if owners == [] then []
    else
      var rest := CompanyKeys(s, owners[1..]);
      var r := s.m[owners[0]].keys + rest;
      assert forall c :: c in r <==> exists p :: p in owners && Has(s, p, c) by {
        forall c | c in r
          ensures exists p :: p in owners && Has(s, p, c)
        {
          if c in s.m[owners[0]].keys {
            assert owners[0] in owners && Has(s, owners[0], c);
          } else {
            var p :| p in owners[1..] && Has(s, p, c);
            assert p in owners;
          }
        }
        forall c | exists p :: p in owners && Has(s, p, c)
          ensures c in r
        {
          var p :| p in owners && Has(s, p, c);
          if p != owners[0] {
            assert p in owners[1..];
          } else {
            assert c in s.m[owners[0]].keys;
          }
        }
      }
      r
  }

  /** `getCompanies()`: one entry per (owner, company) pair, duplicates kept. */
  function Companies(s: Table): (r: seq<string>)
    requires ValidTable(s)
    ensures forall c :: c in r <==> exists p :: Has(s, p, c)
  {
    CompanyKeys(s, s.keys)
  }

  /** Every owner's row contributes all its keys: the list is as long as
      the number of (owner, company) pairs. */
  lemma {:induction false} CompanyKeysLength(s: Table, owners: seq<string>)
    requires ValidTable(s) && forall p :: p in owners ==> p in s.m
    ensures |CompanyKeys(s, owners)| == RowSizes(s, owners)
  {
    if owners != [] {
      CompanyKeysLength(s, owners[1..]);
    }
  }

  /** The rows of one more owner come last. */
  lemma {:induction false} CompanyKeysAppend(s: Table, owners: seq<string>, p: string)
    requires ValidTable(s) && p in s.m && forall q :: q in owners ==> q in s.m
    ensures CompanyKeys(s, owners + [p]) == CompanyKeys(s, owners) + s.m[p].keys
  {
    if owners != [] {
      assert (owners + [p])[1..] == owners[1..] + [p];
      CompanyKeysAppend(s, owners[1..], p);
    }
  }

  function RowSizes(s: Table, owners: seq<string>): nat
    requires forall p :: p in owners ==> p in s.m
  {
    if owners == [] then 0 else |s.m[owners[0]].keys| + RowSizes(s, owners[1..])
  }

  // --------------------------------------------------------- _getAllCompanies

  /** `Array.from(new Set(xs))`: each element once, at its first occurrence. */
  function Dedup(xs: seq<string>): (r: seq<string>)
    ensures Distinct(r)
    ensures forall x :: x in r <==> x in xs
  {
    if xs == [] then []
    else
      var d := Dedup(xs[..|xs| - 1]);
      assert forall x :: x in xs <==> x in xs[..|xs| - 1] || x == xs[|xs| - 1] by {
        assert xs == xs[..|xs| - 1] + [xs[|xs| - 1]];
      }
      if xs[|xs| - 1] in d then d else d + [xs[|xs| - 1]]
  }

  /** Index of the first occurrence of `x` in `xs`. */
  function FirstIndex(xs: seq<string>, x: string): (i: nat)
    requires x in xs
    ensures i < |xs| && xs[i] == x && x !in xs[..i]
  {
    if xs[0] == x then 0
    else
      var i := 1 + FirstIndex(xs[1..], x);
      assert xs[..i] == [xs[0]] + xs[1..][..i - 1];
      i
  }

  /** The first occurrence of an earlier element lies before that of a
      later one: the set keeps first-seen order. */
  lemma {:induction false} DedupFirstSeenOrder(xs: seq<string>)
    ensures forall i, j :: 0 <= i < j < |Dedup(xs)| ==>
      FirstIndex(xs, Dedup(xs)[i]) < FirstIndex(xs, Dedup(xs)[j])
  {
    if xs != [] {
      var init := xs[..|xs| - 1];
      var y := xs[|xs| - 1];
      DedupFirstSeenOrder(init);
      var d := Dedup(init);
      forall x | x in init
        ensures FirstIndex(xs, x) == FirstIndex(init, x)
      {
        FirstIndexPrefix(init, [y], x);
        assert init + [y] == xs;
      }
      if y !in d {
        assert FirstIndex(xs, y) == |init| by {
          assert xs[..|init|] == init;
        }
      }
    }
  }

  lemma {:induction false} FirstIndexPrefix(xs: seq<string>, ys: seq<string>, x: string)
    requires x in xs
    ensures FirstIndex(xs + ys, x) == FirstIndex(xs, x)
  {
    if xs[0] != x {
      assert (xs + ys)[1..] == xs[1..] + ys;
      FirstIndexPrefix(xs[1..], ys, x);
    }
  }

  /** `_getAllCompanies()`: the distinct company keys in first-seen order. */
  function AllCompanies(s: Table): (r: seq<string>)
    requires ValidTable(s)
    ensures Distinct(r)
    ensures forall c :: c in r <==> exists p :: Has(s, p, c)
  {
    Dedup(Companies(s))
  }
}
