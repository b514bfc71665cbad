/** The banking facade (`facade.BankingFacade`): one entry point that
    sequences calls into the accounts, the interest calculator, the loan
    builder, the report factory and the hub. */
module Facade {
  import opened Ints
  import opened Exceptions
  import opened Observer
  import opened Model
  import opened Strategy
  import opened LoanAgreements
  import opened Builder
  import opened ReportFactory

  const NOTIFICATION_PREFIX := "[BANK NOTIFICATION]: "

  // ----- transfer, as written and as intended -----

  /** The balances of two distinct accounts after `transfer` as written:
      the withdrawal and the deposit are applied independently. */
  function TransferredBalances(fromBalance: real, toBalance: real, amount: real): (real, real) {
    (WithdrawnBalance(fromBalance, amount), DepositedBalance(toBalance, amount))
  }

  /** As written, a transfer the source account cannot cover still credits
      the target: 100 moved from an empty account to another empty account
      leaves the first at 0 and the second at 100. */
  lemma TransferCreditsRefusedAmount()
    ensures TransferredBalances(0.0, 0.0, 100.0) == (0.0, 100.0)
  {
  }

  /** In general the as-written transfer creates exactly the amount the
      withdrawal refused: the total grows by `amount` when the amount is
      positive and more than the source balance, and is kept otherwise. */
  lemma TransferTotal(fromBalance: real, toBalance: real, amount: real)
    ensures var (f, t) := TransferredBalances(fromBalance, toBalance, amount);
      f + t == fromBalance + toBalance + (if 0.0 < amount && fromBalance < amount then amount else 0.0)
  {
  }

  /** The balances after the corrected transfer: the target is credited
      only when the withdrawal went through. */
  function CheckedTransferBalances(fromBalance: real, toBalance: real, amount: real): (real, real) {
    if 0.0 < amount <= fromBalance then (fromBalance - amount, toBalance + amount) else (fromBalance, toBalance)
  }

  /** The corrected transfer never changes the total, never overdraws the
      source, and moves exactly `amount` when it moves anything. */
  lemma CheckedTransferConserves(fromBalance: real, toBalance: real, amount: real)
    requires fromBalance >= 0.0 && toBalance >= 0.0
    ensures var (f, t) := CheckedTransferBalances(fromBalance, toBalance, amount);
      && f + t == fromBalance + toBalance
      && f >= 0.0 && t >= 0.0
      && (f != fromBalance <==> 0.0 < amount <= fromBalance)
      && (0.0 < amount <= fromBalance ==> f == fromBalance - amount && t == toBalance + amount)
  {
  }

  /** Where the withdrawal succeeds or the amount is not positive, both
      versions agree; they differ exactly on a refused withdrawal. */
  lemma TransfersAgreeUnlessRefused(fromBalance: real, toBalance: real, amount: real)
    ensures TransferredBalances(fromBalance, toBalance, amount) == CheckedTransferBalances(fromBalance, toBalance, amount)
        <==> !(0.0 < amount && fromBalance < amount)
  {
  }

  // ----- interest -----

  /** The balance after `applyInterest` with a strategy: the interest is
      deposited like any other amount, so it is credited only when positive. */
  function BalanceWithInterest(strategy: InterestStrategy, balance: real): real {
    DepositedBalance(balance, balance * AnnualRate(strategy))
  }

  /** A positive balance grows by the strategy's rate; a zero balance stays
      zero. */
  lemma InterestCredited(strategy: InterestStrategy, balance: real)
    requires balance >= 0.0
    ensures balance > 0.0 ==> BalanceWithInterest(strategy, balance) == balance * (1.0 + AnnualRate(strategy))
    ensures balance == 0.0 ==> BalanceWithInterest(strategy, balance) == 0.0
    ensures BalanceWithInterest(strategy, balance) >= balance
  {
  }

  class BankingFacade {
    const bankSystem: BankSystem

    /** The facade takes the hub from the process-wide slot, creating it if
      no hub exists yet. */
    constructor (slot: BankSystemInstance)
      modifies slot
      ensures old(slot.instance) != null ==> bankSystem == old(slot.instance)
      ensures old(slot.instance) == null ==> fresh(bankSystem) && bankSystem.devices == [] && bankSystem.log == []
      ensures slot.instance == bankSystem
    {
      var hub := slot.GetInstance();
      bankSystem := hub;
    }

    /** `transfer` as written: withdraw, then deposit, whatever the
      withdrawal did. Both accounts report to the one hub. */
    method Transfer(from: Account, to: Account, amount: real)
      requires from.Valid() && to.Valid()
      requires from.bank == bankSystem && to.bank == bankSystem
      modifies from, to, bankSystem
      ensures from.Valid() && to.Valid()
      ensures from != to ==> (from.balance, to.balance) == TransferredBalances(old(from.balance), old(to.balance), amount)
      ensures from == to ==> from.balance == DepositedBalance(WithdrawnBalance(old(from.balance), amount), amount)
      ensures bankSystem.devices == old(bankSystem.devices)
      ensures bankSystem.log == old(bankSystem.log)
        + WithdrawDeliveries(bankSystem.devices, from.clientName, from.accountName, old(from.balance), amount)
        + DepositDeliveries(bankSystem.devices, to.clientName, to.accountName,
                            if from == to then WithdrawnBalance(old(from.balance), amount) else old(to.balance), amount)
    {
      var _ := from.Withdraw(amount);
      to.Deposit(amount);
    }

    /** The corrected transfer: the deposit runs only when the withdrawal was
      applied, so a refused withdrawal moves nothing and is reported back.
      A transfer from an account to itself leaves its balance as it was. */
    method TransferChecked(from: Account, to: Account, amount: real) returns (outcome: Model.Outcome)
      requires from.Valid() && to.Valid()
      requires from.bank == bankSystem && to.bank == bankSystem
      modifies from, to, bankSystem
      ensures from.Valid() && to.Valid()
      ensures from != to ==> (from.balance, to.balance) == CheckedTransferBalances(old(from.balance), old(to.balance), amount)
      ensures from != to ==> from.balance + to.balance == old(from.balance) + old(to.balance)
      ensures from == to ==> from.balance == old(from.balance)
      ensures outcome == if amount <= 0.0 then Ignored
                         else if old(from.balance) >= amount then Applied
                         else Refused(WITHDRAW_REFUSAL)
      ensures bankSystem.devices == old(bankSystem.devices)
      ensures bankSystem.log == old(bankSystem.log)
        + WithdrawDeliveries(bankSystem.devices, from.clientName, from.accountName, old(from.balance), amount)
        + (if outcome == Applied
           then DepositDeliveries(bankSystem.devices, to.clientName, to.accountName,
                                  if from == to then old(from.balance) - amount else old(to.balance), amount)
           else [])
    {
      outcome := from.Withdraw(amount);
      if outcome == Applied {
        to.Deposit(amount);
      }
    }

    /** `applyInterest`: a new calculator with the given strategy computes the
      interest, which is then deposited. With no strategy the calculator's
      IllegalStateException propagates and nothing changes. */
    method ApplyInterest(account: Account, strategy: Option<InterestStrategy>) returns (c: Completion)
      requires account.Valid() && account.bank == bankSystem
      modifies account, bankSystem
      ensures account.Valid()
      ensures strategy == None ==>
        && c == Raised(IllegalStateException(STRATEGY_NOT_SET))
        && account.balance == old(account.balance)
        && bankSystem.log == old(bankSystem.log)
      ensures strategy != None ==>
        && c == Completed
        && account.balance == BalanceWithInterest(strategy.value, old(account.balance))
        && bankSystem.log == old(bankSystem.log)
             + DepositDeliveries(bankSystem.devices, account.clientName, account.accountName,
                                 old(account.balance), old(account.balance) * AnnualRate(strategy.value))
      ensures bankSystem.devices == old(bankSystem.devices)
    {
      var calculator := new InterestCalculator();
      calculator.SetStrategy(strategy);
      var interest := calculator.Execute(account);
      if interest.Threw? {
        return Raised(interest.error);
      }
      account.Deposit(interest.value);
      return Completed;
    }

    /** `createLoan`: a new builder (clock and draw passed in) with rate 7.5,
      60 months and purpose "Personal Loan"; insurance stays at the
      builder's default. */
    method CreateLoan(client: Client?, amount: real, numberDate: Date, draw: int, today: Date)
      returns (r: Result<LoanAgreement>)
      requires 0 <= draw < 9000
      ensures r == CustomChain(DefaultState(numberDate, draw, today), client, amount, 7.5, 60, "Personal Loan").Build()
      ensures client == null ==> r == Threw(IllegalArgumentException(CLIENT_IS_NULL))
      ensures client != null && amount <= 0.0 ==> r == Threw(IllegalArgumentException(AMOUNT_NOT_POSITIVE))
      ensures client != null && amount > 0.0 ==>
        && r.Returned?
        && r.value.client == client && r.value.amount == amount
        && r.value.interestRate == 7.5 && r.value.termMonths == 60
        && r.value.purpose == "Personal Loan" && !r.value.insuranceRequired
        && r.value.agreementNumber == AgreementNumber(numberDate, draw) && r.value.startDate == today
    {
      var builder := new LoanAgreementBuilder(numberDate, draw, today);
      var c := builder.SetClient(client);
      if c.Raised? {
        return Threw(c.error);
      }
      c := builder.SetAmount(amount);
      if c.Raised? {
        return Threw(c.error);
      }
      c := builder.SetInterestRate(7.5);
      c := builder.SetTermMonths(60);
      builder.SetPurpose("Personal Loan");
      r := builder.Build();
      CustomCarriesOver(DefaultState(numberDate, draw, today), client, amount, 7.5, 60, "Personal Loan");
    }

    /** `generateReport`: the report for the role, or the factory's
      IllegalArgumentException. */
    method GenerateReport(role: Option<string>) returns (r: Result<Report>)
      ensures r.Returned? <==> (role != None && KnownRole(Strings.ToLowerCase(role.value)))
      ensures r == CreateReport(role)
      ensures r.Threw? ==> r.error.IllegalArgumentException?
    {
      if role != None {
        RoleAcceptedIff(role.value);
      }
      r := CreateReport(role);
    }

    /** `notifyClients(m)`: one broadcast of the prefixed message. */
    method NotifyClients(message: string)
      modifies bankSystem`log
      ensures bankSystem.log == old(bankSystem.log) + Broadcast(bankSystem.devices, Notice(NOTIFICATION_PREFIX + message))
    {
      bankSystem.NotifyObservers(Notice(NOTIFICATION_PREFIX + message));
    }
  }
}
