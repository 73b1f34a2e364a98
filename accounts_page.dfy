/**
 * The accounts page: each account's icon and colour follow its type, and
 * the header splits the balances into available money and investments.
 */
module AccountsPage {
  import opened Strings
  import opened Lists

  /** An account row; `kind` is the free-text `type` column. */
  datatype Account = Account(id: string, name: string, kind: string, balance: real)

  datatype Icon = Building2 | TrendingUp | Wallet

  /** `getIcon`: the switch on the lower-cased type. */
  function IconOf(kind: string): Icon {
    var k := Lower(kind);
    if k == "savings" then Building2
    else if k == "investment" then TrendingUp
    else Wallet
  }

  /** `getColor`: the same switch, giving the card's colour. */
  function ColorOf(kind: string): string {
    var k := Lower(kind);
    if k == "savings" then "bg-blue-500"
    else if k == "investment" then "bg-purple-500"
    else "bg-emerald-500"
  }

  /** The icon and the colour always tell the same type apart, and neither depends on letter case. */
  lemma IconAndColorAgree(kind: string, other: string)
    ensures IconOf(kind) == Building2 <==> ColorOf(kind) == "bg-blue-500"
    ensures IconOf(kind) == TrendingUp <==> ColorOf(kind) == "bg-purple-500"
    ensures IconOf(kind) == Wallet <==> ColorOf(kind) == "bg-emerald-500"
    ensures Lower(kind) == Lower(other) ==> IconOf(kind) == IconOf(other) && ColorOf(kind) == ColorOf(other)
  {
  }

  /** "Investment", "INVESTMENT" and "investment" all get the investment icon; "Savings" the bank. */
  lemma MixedCaseTypes()
    ensures IconOf("Investment") == TrendingUp && IconOf("INVESTMENT") == TrendingUp
    ensures IconOf("Savings") == Building2 && IconOf("Current") == Wallet
  {
    assert Lower("Investment") == "investment";
    assert Lower("INVESTMENT") == "investment";
    assert Lower("Savings") == "savings";
    assert Lower("Current") == "current";
  }

  predicate IsInvestment(a: Account) {
    Lower(a.kind) == "investment"
  }

  function InvestmentTest(): Account -> bool {
    (a: Account) => IsInvestment(a)
  }

  function AvailableTest(): Account -> bool {
    (a: Account) => !IsInvestment(a)
  }

  function Balance(a: Account): real { a.balance }

  /** `totalAvailableBalance`: the balances of the accounts that are not investments. */
  function TotalAvailable(accounts: seq<Account>): real {
    SumOf(Filter(accounts, AvailableTest()), Balance)
  }

  /** `totalInvestment`: the balances of the investment accounts. */
  function TotalInvestment(accounts: seq<Account>): real {
    SumOf(Filter(accounts, InvestmentTest()), Balance)
  }

  /** Every account is counted exactly once: available plus invested is the sum of all balances. */
  lemma AvailablePlusInvestment(accounts: seq<Account>)
    ensures TotalAvailable(accounts) + TotalInvestment(accounts) == SumOf(accounts, Balance)
  {
    SumOfPartition(accounts, AvailableTest(), InvestmentTest(), Balance);
  }

  /** Without investment accounts everything is available. */
  lemma NoInvestmentsAllAvailable(accounts: seq<Account>)
    requires forall i :: 0 <= i < |accounts| ==> !IsInvestment(accounts[i])
    ensures TotalInvestment(accounts) == 0.0
    ensures TotalAvailable(accounts) == SumOf(accounts, Balance)
  {
    FilterNone(accounts, InvestmentTest());
    AvailablePlusInvestment(accounts);
  }
}
