/** Bonus calculators (package `decorator`): a base calculator that always
    answers 0, wrapped by decorators. A calculator maps what it reads of an
    account (its type and balance) to a bonus percentage contribution. */
module Bonuses {
  import opened AccountTypes

  /** What `additionalBonus` reads from the account it is given: the
      account's type and current balance. Calculators read nothing else and
      change nothing, which this value form makes explicit. */
  datatype AccountView = AccountView(accountType: AccountType, balance: real)

  /** A calculator, as the object graph the constructor wiring builds:
      - `AccountBonus`: the base calculator;
      - `AccountBalanceDecorator(decorated)`: the Savings threshold decorator;
      - `DepositBalanceDecorator(decorated)`: the Deposit threshold decorator;
      - `PlainDecorator(decorated)`: a `BonusDecorator` subclass that keeps
        the inherited `additionalBonus`. */
  datatype Bonus =
    | AccountBonus
    | AccountBalanceDecorator(decorated: Bonus)
    | DepositBalanceDecorator(decorated: Bonus)
    | PlainDecorator(decorated: Bonus)

  /** The Savings decorator's own rule: +2 above 100000, else +1 above 50000,
      else nothing, and only for Savings accounts. */
  function SavingsThresholdBonus(account: AccountView): int {
    var bonus := 0;
    if account.accountType == Savings then
      if account.balance > 100000.0 then bonus + 2
      else if account.balance > 50000.0 then bonus + 1
      else bonus
    else bonus
  }

  /** The Deposit decorator's own rule: +2 above 500000, else +1 above 250000,
      else nothing, and only for Deposit accounts. */
  function DepositThresholdBonus(account: AccountView): int {
    var bonus := 0;
    if account.accountType == Deposit then
      if account.balance > 500000.0 then bonus + 2
      else if account.balance > 250000.0 then bonus + 1
      else bonus
    else bonus
  }

  /** `calculator.additionalBonus(account)`. Both concrete decorators
      override the method and answer from their own rule only; the
      inherited `BonusDecorator` method asks the decorated calculator. */
  function AdditionalBonus(calculator: Bonus, account: AccountView): (r: int)
    ensures 0 <= r <= 2
  {
    match calculator
    case AccountBonus => 0
    case AccountBalanceDecorator(_) => SavingsThresholdBonus(account)
    case DepositBalanceDecorator(_) => DepositThresholdBonus(account)
    case PlainDecorator(decorated) => AdditionalBonus(decorated, account)
  }

  /** The base calculator answers 0 whatever the account's type and balance. */
  lemma BaseIsZero(account: AccountView)
    ensures AdditionalBonus(AccountBonus, account) == 0
  {
  }

  /** An inherited `additionalBonus` is that of the decorated calculator:
      the plain decorator adds nothing of its own. */
  lemma PlainDelegates(decorated: Bonus, account: AccountView)
    ensures AdditionalBonus(PlainDecorator(decorated), account) == AdditionalBonus(decorated, account)
  {
  }

  /** A calculator made only of plain decorators around the base. */
  predicate OnlyPlain(calculator: Bonus) {
    match calculator
    case AccountBonus => true
    case PlainDecorator(decorated) => OnlyPlain(decorated)
    case _ => false
  }

  /** However many plain decorators wrap the base calculator, the answer is 0. */
  lemma {:induction false} PlainChainIsZero(calculator: Bonus, account: AccountView)
    requires OnlyPlain(calculator)
    ensures AdditionalBonus(calculator, account) == 0
  {
    if calculator.PlainDecorator? {
      PlainChainIsZero(calculator.decorated, account);
    }
  }

  /** The Savings decorator: exact thresholds, both strict. */
  lemma SavingsThresholds(decorated: Bonus, balance: real)
    ensures var r := AdditionalBonus(AccountBalanceDecorator(decorated), AccountView(Savings, balance));
      (balance > 100000.0 ==> r == 2) &&
      (50000.0 < balance <= 100000.0 ==> r == 1) &&
      (balance <= 50000.0 ==> r == 0)
    ensures AdditionalBonus(AccountBalanceDecorator(decorated), AccountView(Savings, 100000.0)) == 1
    ensures AdditionalBonus(AccountBalanceDecorator(decorated), AccountView(Savings, 50000.0)) == 0
  {
  }

  /** The Savings decorator gives nothing to any other type, and never
      consults the calculator it decorates. */
  lemma SavingsOnlyForSavings(decorated: Bonus, other: Bonus, account: AccountView)
    ensures account.accountType != Savings ==> AdditionalBonus(AccountBalanceDecorator(decorated), account) == 0
    ensures AdditionalBonus(AccountBalanceDecorator(decorated), account) == AdditionalBonus(AccountBalanceDecorator(other), account)
  {
  }

  /** The Deposit decorator: exact thresholds, both strict. */
  lemma DepositThresholds(decorated: Bonus, balance: real)
    ensures var r := AdditionalBonus(DepositBalanceDecorator(decorated), AccountView(Deposit, balance));
      (balance > 500000.0 ==> r == 2) &&
      (250000.0 < balance <= 500000.0 ==> r == 1) &&
      (balance <= 250000.0 ==> r == 0)
    ensures AdditionalBonus(DepositBalanceDecorator(decorated), AccountView(Deposit, 500000.0)) == 1
    ensures AdditionalBonus(DepositBalanceDecorator(decorated), AccountView(Deposit, 250000.0)) == 0
  {
  }

  /** The Deposit decorator gives nothing to any other type, and never
      consults the calculator it decorates. */
  lemma DepositOnlyForDeposit(decorated: Bonus, other: Bonus, account: AccountView)
    ensures account.accountType != Deposit ==> AdditionalBonus(DepositBalanceDecorator(decorated), account) == 0
    ensures AdditionalBonus(DepositBalanceDecorator(decorated), account) == AdditionalBonus(DepositBalanceDecorator(other), account)
  {
  }

  /** A larger balance never earns a smaller bonus, from any calculator. */
  lemma {:induction false} BonusMonotone(calculator: Bonus, t: AccountType, low: real, high: real)
    requires low <= high
    ensures AdditionalBonus(calculator, AccountView(t, low)) <= AdditionalBonus(calculator, AccountView(t, high))
  {
    if calculator.PlainDecorator? {
      BonusMonotone(calculator.decorated, t, low, high);
    }
  }
}
