/**
 Client code driving a Bank the way the menu does, one call after another.
 Each method shows what a caller can conclude from the contracts of the
 Bank methods alone.
 */
module Scenarios {
  import opened AccountModel
  import opened LedgerModel
  import opened Banking

  /** A deposit raises the balance by exactly the amount. */
  method DepositIsCredited()
  {
    var bank := new Bank();
    var s := bank.CreateAccount("001", "Alice", 100.0);
    assert s == Ok;
    s := bank.DepositToAccount("001", 50.0);
    assert s == Ok;
    var r := bank.CheckBalance("001");
    assert r == Found("Alice", 150.0);
  }

  /** An overdraft is refused and leaves the balance as it was. */
  method OverdraftIsRefused()
  {
    var bank := new Bank();
    var s := bank.CreateAccount("001", "Alice", 100.0);
    s := bank.WithdrawFromAccount("001", 150.0);
    assert s == InsufficientBalance;
    var r := bank.CheckBalance("001");
    assert r == Found("Alice", 100.0);
  }

  /** Calls on a number nobody opened report AccountNotFound. */
  method UnknownAccount()
  {
    var bank := new Bank();
    var s := bank.WithdrawFromAccount("999", 10.0);
    assert s == AccountNotFound;
    s := bank.DepositToAccount("999", 10.0);
    assert s == AccountNotFound;
    var r := bank.CheckBalance("999");
    assert r == NotFound;
  }

  /** A second account under the same number is refused; the first stays. */
  method DuplicateNumber()
  {
    var bank := new Bank();
    var s := bank.CreateAccount("001", "Alice", 100.0);
    s := bank.CreateAccount("001", "Bob", 5.0);
    assert s == AccountExists;
    var r := bank.CheckBalance("001");
    assert r == Found("Alice", 100.0);
  }

  /** The unchecked amounts: a non-positive deposit is refused, a negative
      withdrawal credits the account, and an account opened below zero
      refuses even a negative withdrawal that does not reach its balance. */
  method UncheckedAmounts()
  {
    var bank := new Bank();
    var s := bank.CreateAccount("001", "Alice", 100.0);
    s := bank.DepositToAccount("001", 0.0);
    assert s == InvalidAmount;
    s := bank.WithdrawFromAccount("001", -20.0);
    assert s == Ok;
    var r := bank.CheckBalance("001");
    assert r == Found("Alice", 120.0);

    s := bank.CreateAccount("002", "Bob", -5.0);
    assert s == Ok;
    s := bank.WithdrawFromAccount("002", -3.0);
    assert s == InsufficientBalance;
    r := bank.CheckBalance("002");
    assert r == Found("Bob", -5.0);
  }
}
