/**
 The two classes of the ledger as objects whose state changes in place:
 BankAccount, whose balance deposit and withdraw update, and Bank, whose map
 of accounts createAccount extends. Each method is proved against the value
 model (AccountModel, LedgerModel), so every property proved there holds of
 the objects too.
 */
module Banking {
  import opened AccountModel
  import L = LedgerModel

  class BankAccount {
    // Number and holder are set once, by the constructor; the source has no setters.
    const accountNumber: string
    const accountHolder: string
    var balance: real

    /** The account as a value. */
    ghost function Value(): Account
      reads this
    {
      Account(accountNumber, accountHolder, balance)
    }

    /** Opens an account; the initial deposit is taken as it is. */
    constructor (accountNumber: string, accountHolder: string, initialDeposit: real)
      ensures Value() == Account(accountNumber, accountHolder, initialDeposit)
    {
      this.accountNumber := accountNumber;
      this.accountHolder := accountHolder;
      this.balance := initialDeposit;
    }

    method Deposit(amount: real) returns (s: Status)
      modifies this
      ensures (s, Value()) == AccountModel.Deposit(old(Value()), amount)
    {
      if amount > 0.0 {
        balance := balance + amount;
        s := Ok;
      } else {
        s := InvalidAmount;
      }
    }

    /** The source throws InsufficientBalanceException; here the refusal is
        the returned status. */
    method Withdraw(amount: real) returns (s: Status)
      modifies this
      ensures (s, Value()) == AccountModel.Withdraw(old(Value()), amount)
    {
      if amount > balance {
        s := InsufficientBalance;
      } else {
        balance := balance - amount;
        s := Ok;
      }
    }
  }

  class Bank {
    var accounts: map<string, BankAccount>

    /** Every key is the number of the account object stored under it; hence
        distinct keys hold distinct objects. */
    ghost predicate Valid()
      reads this
    {
      forall k | k in accounts :: accounts[k].accountNumber == k
    }

    /** The registry as a value. */
    ghost function Ledger(): (l: L.Ledger)
      reads this, accounts.Values
      ensures l.Keys == accounts.Keys
      ensures Valid() ==> L.KeysMatch(l)
    {
      map k | k in accounts :: accounts[k].Value()
    }

    constructor ()
      ensures Valid() && Ledger() == map[]
    {
      accounts := map[];
    }

    method CreateAccount(number: string, holder: string, initialDeposit: real) returns (s: Status)
      requires Valid()
      modifies this
      ensures Valid()
      ensures fresh(accounts.Values - old(accounts.Values))
      ensures (s, Ledger()) == L.CreateAccount(old(Ledger()), number, holder, initialDeposit)
    {
      if number in accounts {
        s := AccountExists;
      } else {
        var account := new BankAccount(number, holder, initialDeposit);
        accounts := accounts[number := account];
        s := Ok;
        assert forall k | k in old(accounts) :: accounts[k].Value() == old(accounts[k].Value());
        assert Ledger() == old(Ledger())[number := account.Value()];
      }
    }

    method DepositToAccount(number: string, amount: real) returns (s: Status)
      requires Valid()
      modifies accounts.Values
      ensures Valid()
      ensures (s, Ledger()) == L.DepositToAccount(old(Ledger()), number, amount)
    {
      if number in accounts {
        var account := accounts[number];
        s := account.Deposit(amount);
        assert Ledger() == old(Ledger())[number := account.Value()];
      } else {
        s := AccountNotFound;
      }
    }

    /** An insufficient balance does not escape: it is the returned status. */
    method WithdrawFromAccount(number: string, amount: real) returns (s: Status)
      requires Valid()
      modifies accounts.Values
      ensures Valid()
      ensures (s, Ledger()) == L.WithdrawFromAccount(old(Ledger()), number, amount)
    {
      if number in accounts {
        var account := accounts[number];
        s := account.Withdraw(amount);
        assert Ledger() == old(Ledger())[number := account.Value()];
      } else {
        s := AccountNotFound;
      }
    }

    /** Reads the holder and balance; changes nothing. */
    method CheckBalance(number: string) returns (r: L.Report)
      ensures r == L.CheckBalance(Ledger(), number)
    {
      if number in accounts {
        var account := accounts[number];
        r := L.Found(account.accountHolder, account.balance);
      } else {
        r := L.NotFound;
      }
    }
  }
}
