/** modules/stockHoldings.js: the module-level share table and the
    operations that update it in place. */
module StockHoldings {
  import opened Js
  import opened Dicts
  import opened Shares

  /** The text `changeSharesOwned` returns for each outcome. */
  function Render(actor: string, company: string, f: Feedback): string {
    match f
    case Silent => ""
    case SellingAll(had) => actor + " only has " + IntToString(had) + ", selling all.\n"
    case Bought(q, now) =>
      actor + " buys " + IntToString(q) + " " + company + " and now has " + IntToString(now) + ".\n"
    case Sold(q, now) =>
      actor + " sells " + IntToString(q) + " " + company + " and now has " + IntToString(now) + ".\n"
  }

  class Holdings {
    var sharesOwned: Table

    ghost predicate Valid()
      reads this
    {
      ValidTable(sharesOwned)
    }

    constructor ()
      ensures Valid() && sharesOwned == Empty()
    {
      sharesOwned := Empty();
    }

    /** `changeSharesOwned(actor, company, quantity)`. */
    method ChangeSharesOwned(actor: string, company: string, quantity: Num) returns (feedback: string)
      requires Valid()
      modifies this
      ensures Valid()
      ensures sharesOwned == Change(old(sharesOwned), actor, company, quantity).0
      ensures feedback == Render(actor, company, Change(old(sharesOwned), actor, company, quantity).1)
    {
      var r := Change(sharesOwned, actor, company, quantity);
      sharesOwned := r.0;
      feedback := Render(actor, company, r.1);
    }

    /** `closeCompany(company)`: `deleteProperty` on every owner's row. */
    method CloseCompany(company: string)
      requires Valid()
      modifies this
      ensures Valid()
      ensures sharesOwned == Close(old(sharesOwned), company)
    {
      var owners := sharesOwned.keys;
      var i := 0;
      while i < |owners|
        invariant 0 <= i <= |owners|
        invariant sharesOwned.keys == owners && sharesOwned.m.Keys == old(sharesOwned).m.Keys
        invariant forall p :: p in sharesOwned.m ==>
          sharesOwned.m[p] == if p in owners[..i] then old(sharesOwned).m[p].Remove(company) else old(sharesOwned).m[p]
      {
        var p := owners[i];
        assert p !in owners[..i] by {
          assert Distinct(owners);
        }
        sharesOwned := Dict(owners, sharesOwned.m[p := sharesOwned.m[p].Remove(company)]);
        assert owners[..i + 1] == owners[..i] + [p];
        i := i + 1;
      }
      assert owners[..i] == owners;
      assert sharesOwned.m == Close(old(sharesOwned), company).m;
    }

    /** `getCompanies()`: the company keys of every owner, row after row. */
    method GetCompanies() returns (companyList: seq<string>)
      requires Valid()
      ensures companyList == Companies(sharesOwned)
    {
      companyList := [];
      var owners := sharesOwned.keys;
      var i := 0;
      while i < |owners|
        invariant 0 <= i <= |owners|
        invariant companyList == CompanyKeys(sharesOwned, owners[..i])
      {
        var row := sharesOwned.m[owners[i]];
        var j := 0;
        while j < |row.keys|
          invariant 0 <= j <= |row.keys|
          invariant companyList == CompanyKeys(sharesOwned, owners[..i]) + row.keys[..j]
        {
          companyList := companyList + [row.keys[j]];
          assert row.keys[..j + 1] == row.keys[..j] + [row.keys[j]];
          j := j + 1;
        }
        assert row.keys[..j] == row.keys;
        CompanyKeysAppend(sharesOwned, owners[..i], owners[i]);
        assert owners[..i + 1] == owners[..i] + [owners[i]];
        i := i + 1;
      }
      assert owners[..i] == owners;
    }

    /** `resetHoldings()`. */
    method ResetHoldings()
      modifies this
      ensures Valid() && sharesOwned == Empty()
    {
      sharesOwned := Empty();
    }
  }
}
