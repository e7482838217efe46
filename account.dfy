/** A bank account of the console demo: an identifier, a balance, an annual
    interest rate and a creation time. The balance moves through the guarded
    `Withdraw` and `Deposit`, which refuse a bad amount and leave the account
    as it was, and through the unguarded setter `SetBalance`.

    Amounts are exact reals: Java's `double` rounding is not modelled. */
module Accounts {

  /** A withdrawal goes through exactly when the amount is positive and
      covered by the balance. */
  predicate CanWithdraw(balance: real, amount: real) {
    0.0 < amount <= balance
  }

  /** A deposit goes through exactly when the amount is positive. */
  predicate CanDeposit(amount: real) {
    0.0 < amount
  }

  /** The balance after `withdraw(amount)`: lowered by exactly the amount when
      the guard lets it through, untouched otherwise, and never driven below
      zero from a non-negative balance. */
  function Withdrawn(balance: real, amount: real): (r: real)
    ensures r != balance <==> CanWithdraw(balance, amount)
    ensures r != balance ==> r == balance - amount
    ensures r <= balance
    ensures 0.0 <= balance ==> 0.0 <= r
  {
    if CanWithdraw(balance, amount) then balance - amount else balance
  }

  /** The balance after `deposit(amount)`: raised by exactly the amount when it
      is positive, untouched otherwise. */
  function Deposited(balance: real, amount: real): (r: real)
    ensures r != balance <==> CanDeposit(amount)
    ensures r != balance ==> r == balance + amount
    ensures balance <= r
  {
    if CanDeposit(amount) then balance + amount else balance
  }

  /** A withdrawal undoes an accepted deposit of the same amount, provided
      the balance was not negative (only `SetBalance` can make it so): from
      -10, a deposit of 5 gives -5, and a withdrawal of 5 is then refused. */
  lemma DepositThenWithdrawRestores(balance: real, amount: real)
    requires 0.0 <= balance && CanDeposit(amount)
    ensures Withdrawn(Deposited(balance, amount), amount) == balance
  {
  }

  class Account {
    var id: int
    var balance: real
    var annualInterestRate: real
    /** When the account was created; the clock is a constructor parameter. */
    var dateCreated: int

    /** The no-argument constructor: id 0, an empty balance, no interest. */
    constructor Default(now: int)
      ensures id == 0 && balance == 0.0 && annualInterestRate == 0.0
      ensures dateCreated == now
    {
      id := 0;
      balance := 0.0;
      annualInterestRate := 0.0;
      dateCreated := now;
    }

    /** Stores the given id and balance as they are (a negative balance
        included) and starts with no interest. */
    constructor (id: int, balance: real, now: int)
      ensures this.id == id && this.balance == balance
      ensures annualInterestRate == 0.0 && dateCreated == now
    {
      this.id := id;
      this.balance := balance;
      annualInterestRate := 0.0;
      dateCreated := now;
    }

    method GetId() returns (r: int)
      ensures r == id
    {
      r := id;
    }

    method SetId(id: int)
      modifies this`id
      ensures this.id == id
      ensures balance == old(balance) && annualInterestRate == old(annualInterestRate)
      ensures dateCreated == old(dateCreated)
    {
      this.id := id;
    }

    method GetBalance() returns (r: real)
      ensures r == balance
    {
      r := balance;
    }

    /** Overwrites the balance with no check at all, so a non-negative balance
        is not an invariant of the class (see `SetBalanceBypassesGuard`). */
    method SetBalance(balance: real)
      modifies this`balance
      ensures this.balance == balance
      ensures id == old(id) && annualInterestRate == old(annualInterestRate)
      ensures dateCreated == old(dateCreated)
    {
      this.balance := balance;
    }

    method GetAnnualInterestRate() returns (r: real)
      ensures r == annualInterestRate
    {
      r := annualInterestRate;
    }

    method SetAnnualInterestRate(annualInterestRate: real)
      modifies this`annualInterestRate
      ensures this.annualInterestRate == annualInterestRate
      ensures id == old(id) && balance == old(balance)
      ensures dateCreated == old(dateCreated)
    {
      this.annualInterestRate := annualInterestRate;
    }

    method GetDateCreated() returns (r: int)
      ensures r == dateCreated
    {
      r := dateCreated;
    }

    /** Takes `amount` out when `0 < amount <= balance`; otherwise the account
        is left as it was (the Java method prints a refusal). */
    method Withdraw(amount: real)
      modifies this`balance
      ensures balance == Withdrawn(old(balance), amount)
      ensures id == old(id) && annualInterestRate == old(annualInterestRate)
      ensures dateCreated == old(dateCreated)
    {
      if 0.0 < amount && amount <= balance {
        balance := balance - amount;
      }
    }

    /** Adds `amount` when it is positive; otherwise the account is left as it
        was (the Java method prints a refusal). */
    method Deposit(amount: real)
      modifies this`balance
      ensures balance == Deposited(old(balance), amount)
      ensures id == old(id) && annualInterestRate == old(annualInterestRate)
      ensures dateCreated == old(dateCreated)
    {
      if 0.0 < amount {
        balance := balance + amount;
      }
    }
  }

  /** The guard lives in `Withdraw` and `Deposit` only: a withdrawal beyond the
      balance is refused, yet the setter then stores a negative balance. */
  method SetBalanceBypassesGuard() returns (a: Account)
    ensures a.balance < 0.0
  {
    a := new Account(0, 100.0, 0);
    a.Withdraw(150.0);
    assert a.balance == 100.0;
    a.SetBalance(-1.0);
  }
}
