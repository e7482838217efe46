# Console bank accounts — a Dafny model

This project models the core of a small Java console bank. It has two parts:

- `Account` (declared in `BankAccount.java`) holds an id, a balance, an
  annual interest rate and a creation date. `withdraw` takes money out only
  when `0 < amount <= balance`. `deposit` adds money only when `amount > 0`.
  Any other amount leaves the account as it was. The setters overwrite their
  own field without any check.
- `BankService` preallocates ten accounts with ids 0 to 9 and a balance of
  10000 each. It accepts a typed id only when it indexes an account. It then
  runs a menu on that one account: 1 shows the balance, 2 withdraws, 3
  deposits, 4 leaves, and any other number is refused.

`account.dfy` (module `Accounts`) models `Account` as a class with the same
four fields. Its guarded updates are specified by the functions `Withdrawn`
and `Deposited`. `bank_service.dfy` (module `Bank`) models `BankService` as a
class over an `array<Account?>`, like Java's `Account[]`. The console input is
a sequence of `MenuInput` rounds. The effect of a menu session on the balance
is the function `Replay`, and the number of rounds the do/while loop reads is
`MenuRounds`.

Modelling choices:

- Balances and amounts are `real`. Java's `double` rounding is not modelled.
- Ids are unbounded `int`. The code does no arithmetic on them, so Java's
  32-bit width does not matter.
- The clock behind `new Date()` is the `now` parameter of the `Account`
  constructors. `BankService` takes one clock reading per account, `nows[i]`
  for account `i`, because each `new Account` reads the clock itself.
- `Scanner` input becomes parameters: the id, and the list of menu rounds.
  Each round holds a choice and an amount; the amount is used only by
  choices 2 and 3.
- When the rounds run out before a choice 4, the model stops the menu. The
  Java program would throw from `nextInt` instead.

`Main.java` and the three test files call a richer ledger API: string
account numbers, `createAccount`, `transfer`, transaction history,
`InsufficientFundsException`. No source file in the modelled code defines
it. This model follows the code that exists, not that API.

## Model

| member | source | states |
|---|---|---|
| Accounts.Withdrawn | projects/bank_acccont/src/main/java/com/bank/BankAccount.java:61-67 | the balance changes exactly when `0 < amount <= balance`, and then drops by exactly `amount`; it never rises, and a non-negative balance stays non-negative |
| Accounts.Deposited | projects/bank_acccont/src/main/java/com/bank/BankAccount.java:70-76 | the balance changes exactly when `amount > 0`, and then rises by exactly `amount`; it never falls |
| Accounts.DepositThenWithdrawRestores | projects/bank_acccont/src/main/java/com/bank/BankAccount.java:61-76 | from a non-negative balance, an accepted deposit followed by a withdrawal of the same amount gives back the starting balance (from a negative one the withdrawal is refused) |
| Accounts.Account.Default | projects/bank_acccont/src/main/java/com/bank/BankAccount.java:10-15 | the no-argument constructor gives id 0, balance 0, rate 0 and the current time |
| Accounts.Account.constructor | projects/bank_acccont/src/main/java/com/bank/BankAccount.java:18-23 | stores exactly the given id and balance, rate 0, the current time |
| Accounts.Account.GetId | projects/bank_acccont/src/main/java/com/bank/BankAccount.java:26-28 | returns the stored id |
| Accounts.Account.SetId | projects/bank_acccont/src/main/java/com/bank/BankAccount.java:30-32 | overwrites the id and no other field |
| Accounts.Account.GetBalance | projects/bank_acccont/src/main/java/com/bank/BankAccount.java:34-36 | returns the stored balance |
| Accounts.Account.SetBalance | projects/bank_acccont/src/main/java/com/bank/BankAccount.java:38-40 | overwrites the balance with any value, negative included, and no other field |
| Accounts.Account.GetAnnualInterestRate | projects/bank_acccont/src/main/java/com/bank/BankAccount.java:42-44 | returns the stored rate |
| Accounts.Account.SetAnnualInterestRate | projects/bank_acccont/src/main/java/com/bank/BankAccount.java:46-48 | overwrites the rate and no other field |
| Accounts.Account.GetDateCreated | projects/bank_acccont/src/main/java/com/bank/BankAccount.java:50-52 | returns the creation time |
| Accounts.Account.Withdraw | projects/bank_acccont/src/main/java/com/bank/BankAccount.java:61-67 | the new balance is `Withdrawn(old balance, amount)`; id, rate and creation time do not change |
| Accounts.Account.Deposit | projects/bank_acccont/src/main/java/com/bank/BankAccount.java:70-76 | the new balance is `Deposited(old balance, amount)`; id, rate and creation time do not change |
| Accounts.SetBalanceBypassesGuard | projects/bank_acccont/src/main/java/com/bank/BankAccount.java:38-67 | a withdrawal beyond the balance is refused, yet the setter can then make the balance negative: `balance >= 0` is not a class invariant |
| Bank.MenuStep | projects/bank_acccont/src/main/java/com/bank/BankService.java:41-60 | one menu round changes the balance exactly when it is an accepted withdrawal (item 2) or deposit (item 3), by exactly that amount; items 1, 4 and any other change nothing; no overdraft |
| Bank.Replay | projects/bank_acccont/src/main/java/com/bank/BankService.java:32-61 | the selected account's balance after a run of menu rounds played in order; without a withdrawal among them it cannot fall, without a deposit it cannot rise |
| Bank.MenuRounds | projects/bank_acccont/src/main/java/com/bank/BankService.java:32-61 | the do/while loop runs at least once, stops right after the first choice 4 and reads no round past it; it ends on choice 4 exactly when some round chooses 4 |
| Bank.ReplayAppend | projects/bank_acccont/src/main/java/com/bank/BankService.java:32-61 | replaying two stretches of rounds one after another equals replaying their concatenation |
| Bank.ReplayNonNegative | projects/bank_acccont/src/main/java/com/bank/BankService.java:41-60 | no sequence of menu rounds makes a non-negative balance negative |
| Bank.ReplayWithoutMoneyItems | projects/bank_acccont/src/main/java/com/bank/BankService.java:41-60 | rounds that choose neither 2 nor 3 leave the balance unchanged |
| Bank.BankService.constructor | projects/bank_acccont/src/main/java/com/bank/BankService.java:6-11 | exactly 10 fresh, distinct accounts; account `i` has id `i`, balance 10000, rate 0 and its own clock reading `nows[i]` |
| Bank.BankService.AcceptsId | projects/bank_acccont/src/main/java/com/bank/BankService.java:21-24 | an id is accepted exactly when `0 <= id < accounts.length` |
| Bank.BankService.ShowMainMenu | projects/bank_acccont/src/main/java/com/bank/BankService.java:30-62 | reads `MenuRounds(inputs)` rounds; the selected account's balance becomes the replay of those rounds, its other fields stay, and every other account's balance is unchanged |
| Bank.BankService.Serve | projects/bank_acccont/src/main/java/com/bank/BankService.java:13-28 | one pass of the console loop: an out-of-range id is refused and changes no account; an accepted id runs the menu on that account only, whose id, rate and creation time stay as they were |
| Bank.BankService.Start | projects/bank_acccont/src/main/java/com/bank/BankService.java:13-28 | a finite run of console passes: each account's balance is the replay of exactly the menu rounds read in the passes that selected it, in order; no id, rate or creation time changes |

## Left out

- `Account.getMonthlyInterest` (`BankAccount.java:55-58`): floating-point rate arithmetic.
- IEEE `double` behaviour: rounding, NaN and infinite amounts. Amounts are exact reals.
- `getDateCreated` returns Java's mutable `Date` object, so a caller can change the creation date through it. The model returns a plain value.
- Console output: the refusal messages of `withdraw`/`deposit`, the menu text, and the balance printed for item 1. Item 1 only reads the balance.
- The endless `while (true)` of `start()` (`BankService.java:13-28`) never ends; `Start` models any finite stretch of its passes.
- Bank.BankService.ShowMainMenu: input that ends before a choice 4 stops the menu, where Java's `Scanner` would throw `NoSuchElementException`. Input that is not a number is not modelled.
- The static `main` of `BankService` (`BankService.java:64-67`) and `Main.java`: program entry points and console I/O.
- The ledger API used by `Main.java` and the tests (transfer, transaction history, duplicate-account checks, totals, exceptions) is not part of this model: no modelled source file defines it.
- Concurrency: the code is single-threaded and has no locking.
