/** Interest strategies and the calculator that holds one (package
    `strategy`). A strategy computes interest; it does not credit it. */
module Strategy {
  import opened Exceptions
  import opened Model

  /** The three built-in strategies. */
  datatype InterestStrategy = SavingsInterest | VIPInterest | LoanInterest

  /** The fixed annual rate each strategy applies to the balance. */
  function AnnualRate(strategy: InterestStrategy): real {
    match strategy
    case SavingsInterest => 0.03
    case VIPInterest => 0.05
    case LoanInterest => 0.07
  }

  /** `strategy.calculateInterest(account)`: the rate times the current balance. */
  function CalculateInterest(strategy: InterestStrategy, account: Account): (interest: real)
    reads account
    ensures account.balance >= 0.0 ==> 0.0 <= interest <= account.balance / 10.0
    ensures account.balance > 0.0 ==> interest > 0.0
  {
    account.balance * AnnualRate(strategy)
  }

  /** Savings pays 3%, VIP 5%, Loan 7% of the balance. */
  lemma InterestRates(account: Account)
    ensures CalculateInterest(SavingsInterest, account) == account.balance * 3.0 / 100.0
    ensures CalculateInterest(VIPInterest, account) == account.balance * 5.0 / 100.0
    ensures CalculateInterest(LoanInterest, account) == account.balance * 7.0 / 100.0
  {
  }

  /** No balance, no interest; a non-negative balance earns a non-negative
      interest that never exceeds the balance itself. */
  lemma InterestBounds(strategy: InterestStrategy, account: Account)
    ensures account.balance == 0.0 ==> CalculateInterest(strategy, account) == 0.0
    ensures account.balance >= 0.0 ==> 0.0 <= CalculateInterest(strategy, account) <= account.balance
  {
  }

  /** Interest depends on the balance alone: not on the account's type, name,
      owner or bonus. */
  lemma InterestDependsOnlyOnBalance(strategy: InterestStrategy, a: Account, b: Account)
    requires a.balance == b.balance
    ensures CalculateInterest(strategy, a) == CalculateInterest(strategy, b)
  {
  }

  /** The ordering of the three strategies: on a positive balance Savings
      pays least and Loan most. */
  lemma StrategiesOrdered(account: Account)
    requires account.balance > 0.0
    ensures CalculateInterest(SavingsInterest, account) < CalculateInterest(VIPInterest, account) < CalculateInterest(LoanInterest, account)
  {
  }

  const STRATEGY_NOT_SET := "Interest strategy is not set!"

  /** The context object. A Java `null` strategy is `None`. */
  class InterestCalculator {
    var strategy: Option<InterestStrategy>

    constructor ()
      ensures strategy == None
    {
      strategy := None;
    }

    /** Replaces the strategy; setting `None` puts the calculator back in its
      failing state. */
    method SetStrategy(strategy: Option<InterestStrategy>)
      modifies this
      ensures this.strategy == strategy
    {
      this.strategy := strategy;
    }

    /** The current strategy's interest on the account, or an
      IllegalStateException when no strategy is set. Changes nothing. */
    method Execute(account: Account) returns (r: Result<real>)
      ensures strategy == None ==> r == Threw(IllegalStateException(STRATEGY_NOT_SET))
      ensures strategy != None ==> r == Returned(CalculateInterest(strategy.value, account))
    {
      if strategy == None {
        return Threw(IllegalStateException(STRATEGY_NOT_SET));
      }
      return Returned(CalculateInterest(strategy.value, account));
    }
  }

  /** The last strategy set is the one used, and executing leaves both the
      strategy and the account as they were. */
  method LastStrategyWins(account: Account, first: InterestStrategy, second: InterestStrategy)
    returns (unset: Result<real>, interest: Result<real>, cleared: Result<real>)
    ensures unset == Threw(IllegalStateException(STRATEGY_NOT_SET))
    ensures interest == Returned(account.balance * AnnualRate(second))
    ensures cleared == Threw(IllegalStateException(STRATEGY_NOT_SET))
  {
    var calculator := new InterestCalculator();
    unset := calculator.Execute(account);
    calculator.SetStrategy(Some(first));
    calculator.SetStrategy(Some(second));
    interest := calculator.Execute(account);
    calculator.SetStrategy(None);
    cleared := calculator.Execute(account);
  }
}
