# Banking ledger model

A Dafny model of the in-memory account ledger in `BANKING.java`: the
`BankAccount` class (an account number and holder fixed at creation, and a
balance that `deposit` and `withdraw` update in place) and the `Bank` class
(a map from account number to account that `createAccount` extends and that
`depositToAccount`, `withdrawFromAccount` and `checkBalance` look up first).

The project has two layers.

- A value model. `AccountModel` (account.dfy) holds the account as a datatype
  and `Deposit`/`Withdraw` as functions. `LedgerModel` (ledger.dfy) holds the
  registry as a `map<string, Account>` and its four operations as functions.
  `History` (history.dfy) runs any sequence of calls on the registry and
  proves what holds in every state such a sequence reaches.
- The objects. `Banking` (banking.dfy) has the classes `BankAccount` and
  `Bank`, with fields updated in place. Each method's postcondition equates the
  outcome and the new state with the value model applied to the old state. So
  everything proved of the value model holds of the objects.
  `Scenarios` (scenarios.dfy) is client code that drives a `Bank` through
  the example sessions, using only those postconditions.

Printed messages and `InsufficientBalanceException` become a `Status` value:
`Ok`, `InvalidAmount`, `InsufficientBalance`, `AccountExists` or
`AccountNotFound`. `checkBalance` prints the holder and the balance; here it
returns `Found(holder, balance)` or `NotFound`. Amounts are exact `real`s.

Two unchecked amounts are kept as the code has them:

- `withdraw` never checks that the amount is positive. A negative amount that
  passes the guard raises the balance.
- `createAccount` never checks the initial deposit. So an account can start
  with a negative balance. Such an account refuses every positive withdrawal,
  and also any negative one that is above its balance.

One might expect a balance to change only by a positive deposit or by a
withdrawal that does not exceed it, and so to stay non-negative. The code
does less than that, and the model follows the code. What the model
proves instead is `History.RunKeepsSolvent`: balances stay non-negative as
long as no account is opened with a negative deposit. `AccountModel.DepositWithdrawInverse`
shows one more effect of a negative balance: withdrawing a deposit that was
just made is refused.

## Model

| member | source | states |
|---|---|---|
| `AccountModel.Deposit` | BANKING.java:36-43 | succeeds exactly when the amount is positive, and then raises the balance by exactly that amount; otherwise it reports InvalidAmount and leaves the account unchanged; number and holder never change |
| `AccountModel.Withdraw` | BANKING.java:45-52 | succeeds exactly when the amount does not exceed the balance, and then lowers the balance by exactly the amount; a successful withdrawal never leaves a negative balance; a negative amount that succeeds raises the balance; otherwise it reports InsufficientBalance and the account is unchanged |
| `AccountModel.DepositWithdrawInverse` | BANKING.java:36-52 | withdraw undoes a positive deposit when the balance was non-negative, and is refused when it was negative; a deposit undoes a positive withdrawal that succeeded |
| `LedgerModel.CreateAccount` | BANKING.java:59-67 | a number already present gives AccountExists and the same registry; otherwise it adds exactly one entry under that number, holding the given holder and the unvalidated initial deposit; all other entries are kept; consistent keys stay consistent |
| `LedgerModel.DepositToAccount` | BANKING.java:69-76 | a missing number gives AccountNotFound and the same registry; otherwise the outcome and the new entry are those of the account's deposit; the key set and all other entries are unchanged |
| `LedgerModel.WithdrawFromAccount` | BANKING.java:78-89 | a missing number gives AccountNotFound and the same registry; otherwise the account's withdraw decides, and an insufficient balance comes back as an outcome; the key set and all other entries are unchanged |
| `LedgerModel.CheckBalance` | BANKING.java:91-99 | reports NotFound exactly when the number is not in the registry; otherwise the holder and balance stored under it |
| `LedgerModel.CreateThenCheck` | BANKING.java:59-99 | after a successful create, a balance check reports the given holder and initial deposit |
| `LedgerModel.CreateTwice` | BANKING.java:59-66 | creating the same number a second time reports AccountExists and leaves the registry as the first creation left it |
| `History.Step` | BANKING.java:56-99 | any call that does not succeed changes nothing; a balance check never changes anything; a call on an unknown number reports AccountNotFound; no call removes an account or changes a number or holder; each call keeps the keys consistent, and keeps balances non-negative unless it opens an account below zero |
| `History.RunKeepsKeysMatch` | BANKING.java:57-67 | after any sequence of calls, every key is still the number of the account stored under it |
| `History.ReachableKeysMatch` | BANKING.java:57-67 | every registry reachable from the empty one has consistent keys |
| `History.RunKeepsAccounts` | BANKING.java:13-22 | after any sequence of calls, every account is still there with the same number and holder |
| `History.RunKeepsSolvent` | BANKING.java:36-52 | if no call opens an account below zero, no sequence of calls makes any balance negative |
| `History.DepositsAccumulate` | BANKING.java:36-76 | a series of deposits into one account raises its balance by exactly the sum of the positive amounts and changes nothing else; into a missing account it changes nothing |
| `History.DepositsCommute` | BANKING.java:36-43 | two blocks of deposits into one account give the same registry in either order |
| `History.DepositsReorder` | BANKING.java:36-43 | any reordering of a series of deposits into one account gives the same final registry |
| `History.IneffectiveCallErasable` | BANKING.java:56-99 | a call that fails, or a balance check, can be removed from any sequence of calls without changing the final registry |
| `Banking.BankAccount.constructor` | BANKING.java:18-22 | the new account holds the given number, holder and initial deposit |
| `Banking.BankAccount.Deposit` | BANKING.java:36-43 | the status and the new account are those of AccountModel.Deposit applied to the old account |
| `Banking.BankAccount.Withdraw` | BANKING.java:45-52 | the status and the new account are those of AccountModel.Withdraw applied to the old account; the refusal is returned rather than thrown |
| `Banking.Bank.Ledger` | BANKING.java:57 | the registry value has the keys of the account map, and its keys are consistent whenever the object invariant holds |
| `Banking.Bank.constructor` | BANKING.java:57 | a new bank has no accounts |
| `Banking.Bank.CreateAccount` | BANKING.java:59-67 | keeps the object invariant; the new account object is fresh; the status and new registry are those of LedgerModel.CreateAccount on the old registry |
| `Banking.Bank.DepositToAccount` | BANKING.java:69-76 | keeps the object invariant; the status and new registry are those of LedgerModel.DepositToAccount on the old registry; only the account under that number is touched |
| `Banking.Bank.WithdrawFromAccount` | BANKING.java:78-89 | keeps the object invariant; the status and new registry are those of LedgerModel.WithdrawFromAccount on the old registry; the insufficient-balance case is a returned status |
| `Banking.Bank.CheckBalance` | BANKING.java:91-99 | reports the holder and balance stored under the number, or NotFound when there is none; changes nothing |

## Left out

- `BankingApp.main` (BANKING.java:103-159): the menu loop, reading input with `Scanner`, and `System.exit`. These are input and output only. `History.Run` stands in for any sequence of calls the menu can make.
- The printed messages: each is modelled as the `Status` or `Report` the operation returns.
- `InsufficientBalanceException` (BANKING.java:6-10) is not modelled as an exception. It is the `InsufficientBalance` status, returned by `BankAccount.Withdraw` and passed on by `Bank.WithdrawFromAccount`, where the source catches it and prints it.
- Java `double` arithmetic: amounts are exact reals. Rounding, infinities and NaN are not modelled.
- The getters `getAccountNumber`, `getAccountHolder` and `getBalance` are not separate members. Clients read the `const` fields `accountNumber` and `accountHolder` and the field `balance` directly.
- Java `null` strings and a `null` map key are not modelled. An absent key in `accounts.get` is modelled as the key not being in the map.
