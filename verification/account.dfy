/**
 The value model of one bank account (class BankAccount): its fixed identity,
 its balance, and what deposit and withdraw do to the balance.
 Amounts are exact reals; the rounding of a Java double is not modelled.
 */
module AccountModel {

  /** What an operation reports. The source prints a message, or throws
      InsufficientBalanceException; here each outcome is a value. */
  datatype Status = Ok | InvalidAmount | InsufficientBalance | AccountExists | AccountNotFound

  /** An account as a value: number and holder are fixed when it is opened,
      only the balance ever changes. */
  datatype Account = Account(number: string, holder: string, balance: real)

  /** b is the same account as a: same number, same holder. */
  predicate SameIdentity(a: Account, b: Account)
  {
    a.number == b.number && a.holder == b.holder
  }

  /** deposit: only a positive amount is credited; any other amount is
      reported as invalid and changes nothing. */
  function Deposit(a: Account, amount: real): (r: (Status, Account))
    ensures SameIdentity(a, r.1)
    ensures r.0 == Ok <==> amount > 0.0
    ensures r.0 == Ok ==> r.1.balance == a.balance + amount && r.1.balance > a.balance
    ensures r.0 != Ok ==> r.0 == InvalidAmount && r.1 == a
  {
    if amount > 0.0 then (Ok, a.(balance := a.balance + amount))
    else (InvalidAmount, a)
  }

  /** withdraw: refuses an amount above the balance (the source throws
      InsufficientBalanceException); otherwise debits it. The amount is not
      checked to be positive, so a negative amount that passes the guard
      raises the balance. */
  function Withdraw(a: Account, amount: real): (r: (Status, Account))
    ensures SameIdentity(a, r.1)
    ensures r.0 == Ok <==> amount <= a.balance
    ensures r.0 == Ok ==> r.1.balance == a.balance - amount && r.1.balance >= 0.0
    ensures r.0 == Ok && amount < 0.0 ==> r.1.balance > a.balance
    ensures r.0 != Ok ==> r.0 == InsufficientBalance && r.1 == a
  {
    if amount > a.balance then (InsufficientBalance, a)
    else (Ok, a.(balance := a.balance - amount))
  }

  /** Withdrawing what was just deposited gives back the account as it was,
      provided the balance was not negative to begin with (it can only be
      negative when the account was opened with a negative deposit); and
      depositing back what was just withdrawn does the same. */
  lemma DepositWithdrawInverse(a: Account, amount: real)
    requires amount > 0.0
    ensures a.balance >= 0.0 ==> Withdraw(Deposit(a, amount).1, amount) == (Ok, a)
    ensures a.balance < 0.0 ==> Withdraw(Deposit(a, amount).1, amount).0 == InsufficientBalance
    ensures amount <= a.balance ==> Deposit(Withdraw(a, amount).1, amount) == (Ok, a)
  {
  }
}
