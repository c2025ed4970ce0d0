/**
 The value model of the bank's registry (class Bank): a map from account
 number to account, and the four operations on it, each of which looks the
 account up first.
 */
module LedgerModel {
  import opened AccountModel

  /** The registry: account number to account. */
  type Ledger = map<string, Account>

  /** Every key is the number of the account stored under it. */
  predicate KeysMatch(l: Ledger)
  {
    forall k | k in l :: l[k].number == k
  }

  /** No account holds a negative balance. */
  predicate Solvent(l: Ledger)
  {
    forall k | k in l :: l[k].balance >= 0.0
  }

  /** What checkBalance reports: holder and balance, or that there is no
      such account. */
  datatype Report = Found(holder: string, balance: real) | NotFound

  /** createAccount: refuses a number already present; otherwise adds exactly
      one entry under that number. The initial deposit is not validated. */
  function CreateAccount(l: Ledger, number: string, holder: string, initialDeposit: real): (r: (Status, Ledger))
    ensures r.0 == Ok <==> number !in l
    ensures r.0 != Ok ==> r.0 == AccountExists && r.1 == l
    ensures r.0 == Ok ==> r.1.Keys == l.Keys + {number}
    ensures r.0 == Ok ==> r.1[number] == Account(number, holder, initialDeposit)
    ensures forall k | k in l :: k in r.1 && r.1[k] == l[k]
    ensures KeysMatch(l) ==> KeysMatch(r.1)
  {
    if number in l then (AccountExists, l)
    else (Ok, l[number := Account(number, holder, initialDeposit)])
  }

  /** depositToAccount: reports a missing account and changes nothing;
      otherwise the account's own deposit decides, and no other entry
      changes. */
  function DepositToAccount(l: Ledger, number: string, amount: real): (r: (Status, Ledger))
    ensures number !in l ==> r == (AccountNotFound, l)
    ensures r.1.Keys == l.Keys
    ensures number in l ==> (r.0, r.1[number]) == Deposit(l[number], amount)
    ensures forall k | k in l && k != number :: r.1[k] == l[k]
  {
    if number in l then
      var (s, a) := Deposit(l[number], amount);
      (s, l[number := a])
    else (AccountNotFound, l)
  }

  /** withdrawFromAccount: reports a missing account and changes nothing;
      otherwise the account's withdraw decides, and an insufficient balance is
      reported as an outcome rather than propagated. No other entry changes. */
  function WithdrawFromAccount(l: Ledger, number: string, amount: real): (r: (Status, Ledger))
    ensures number !in l ==> r == (AccountNotFound, l)
    ensures r.1.Keys == l.Keys
    ensures number in l ==> (r.0, r.1[number]) == Withdraw(l[number], amount)
    ensures forall k | k in l && k != number :: r.1[k] == l[k]
  {
    if number in l then
      var (s, a) := Withdraw(l[number], amount);
      (s, l[number := a])
    else (AccountNotFound, l)
  }

  /** checkBalance: the holder and balance of the account, if there is one. */
  function CheckBalance(l: Ledger, number: string): (r: Report)
    ensures r.NotFound? <==> number !in l
    ensures r.Found? ==> r.holder == l[number].holder && r.balance == l[number].balance
  {
    if number in l then Found(l[number].holder, l[number].balance) else NotFound
  }

  /** A freshly created account reports the given holder and initial deposit. */
  lemma CreateThenCheck(l: Ledger, number: string, holder: string, initialDeposit: real)
    requires number !in l
    ensures CheckBalance(CreateAccount(l, number, holder, initialDeposit).1, number)
            == Found(holder, initialDeposit)
  {
  }

  /** Creating the same number twice: the second call reports AccountExists
      and the ledger is as the first call left it. */
  lemma CreateTwice(l: Ledger, number: string, holder: string, initialDeposit: real,
                    holder': string, initialDeposit': real)
    ensures var l1 := CreateAccount(l, number, holder, initialDeposit).1;
            CreateAccount(l1, number, holder', initialDeposit') == (AccountExists, l1)
  {
  }
}
