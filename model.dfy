/** Accounts and clients (package `model`). Both classes live in one module
    because each refers to the other. The static id counters and the hub
    singleton are explicit objects given to the constructors. */
module Model {
  import opened Ints
  import opened AccountTypes
  import opened Bonuses
  import opened Observer
  import opened Sequences

  /** A class's static `nextId` counter, a Java `int`. */
  class IdCounter {
    var next: Int32

    constructor ()
      ensures next == 1
    {
      next := 1;
    }

    /** `nextId++`: hands out the current value and moves on by one. */
    method Take() returns (id: Int32)
      modifies this
      ensures id == old(next) && next == Increment(old(next))
    {
      id := next;
      next := Increment(next);
    }
  }

  /** What a balance operation did. `Refused` carries the line the account
      prints instead of changing anything. */
  datatype Outcome = Applied | Ignored | Refused(notice: string)

  const WITHDRAW_REFUSAL := "Insufficient funds for withdrawal."
  const PAYMENT_REFUSAL := "Insufficient funds for payment."
  const NO_ACCOUNT_TO_DELETE := "No account to delete."

  // ----- the balance operations, as functions of the old balance -----

  function DepositedBalance(balance: real, amount: real): real {
    if amount > 0.0 then balance + amount else balance
  }

  function WithdrawnBalance(balance: real, amount: real): real {
    if amount > 0.0 && balance >= amount then balance - amount else balance
  }

  /** The cash-back a payment earns: `amount * bonus / 100`. */
  function PaymentBonus(amount: real, bonus: real): real {
    amount * bonus / 100.0
  }

  function PaidBalance(balance: real, amount: real, bonus: real): real {
    if amount > 0.0 && balance >= amount then balance - amount + PaymentBonus(amount, bonus) else balance
  }

  /** The deliveries each operation causes on a hub with registry `devices`. */
  function DepositDeliveries(devices: seq<Device>, clientName: string, accountName: string, balance: real, amount: real): seq<Delivery> {
    if amount > 0.0 then Broadcast(devices, Transaction(clientName, accountName, "deposit", amount, balance + amount))
    else []
  }

  function WithdrawDeliveries(devices: seq<Device>, clientName: string, accountName: string, balance: real, amount: real): seq<Delivery> {
    if amount > 0.0 && balance >= amount then Broadcast(devices, Transaction(clientName, accountName, "withdraw", amount, balance - amount))
    else []
  }

  function PayDeliveries(devices: seq<Device>, clientName: string, accountName: string, balance: real, amount: real, bonus: real): seq<Delivery> {
    if amount > 0.0 && balance >= amount then
      Broadcast(devices, TransactionWithBonus(clientName, accountName, "payment", amount, PaymentBonus(amount, bonus), PaidBalance(balance, amount, bonus)))
    else []
  }

  /** A deposit of a positive amount adds exactly that amount and tells every
      device once; any other amount changes nothing and tells no one. */
  lemma DepositEffect(devices: seq<Device>, clientName: string, accountName: string, balance: real, amount: real)
    ensures amount > 0.0 ==>
      (DepositedBalance(balance, amount) == balance + amount &&
       DepositDeliveries(devices, clientName, accountName, balance, amount)
         == Broadcast(devices, Transaction(clientName, accountName, "deposit", amount, DepositedBalance(balance, amount))))
    ensures amount <= 0.0 ==>
      (DepositedBalance(balance, amount) == balance &&
       DepositDeliveries(devices, clientName, accountName, balance, amount) == [])
  {
  }

  /** A withdrawal changes the balance exactly when 0 < amount <= balance,
      and then by exactly `amount`; it notifies exactly when it changes. */
  lemma WithdrawEffect(devices: seq<Device>, clientName: string, accountName: string, balance: real, amount: real)
    ensures WithdrawnBalance(balance, amount) != balance <==> 0.0 < amount <= balance
    ensures 0.0 < amount <= balance ==> WithdrawnBalance(balance, amount) == balance - amount
    ensures (WithdrawDeliveries(devices, clientName, accountName, balance, amount) == []) <==> !(0.0 < amount <= balance) || devices == []
  {
  }

  /** A payment with 0 < amount <= balance takes the amount and gives back
      `amount * bonus / 100`; otherwise it changes nothing and tells no one. */
  lemma PayEffect(devices: seq<Device>, clientName: string, accountName: string, balance: real, amount: real, bonus: real)
    ensures 0.0 < amount <= balance ==> PaidBalance(balance, amount, bonus) == balance - amount + amount * bonus / 100.0
    ensures !(0.0 < amount <= balance) ==>
      (PaidBalance(balance, amount, bonus) == balance &&
       PayDeliveries(devices, clientName, accountName, balance, amount, bonus) == [])
  {
  }

  /** No operation takes a non-negative balance below zero, given a
      non-negative bonus. */
  lemma BalanceStaysNonNegative(balance: real, amount: real, bonus: real)
    requires balance >= 0.0 && bonus >= 0.0
    ensures DepositedBalance(balance, amount) >= 0.0
    ensures WithdrawnBalance(balance, amount) >= 0.0
    ensures PaidBalance(balance, amount, bonus) >= 0.0
  {
    if amount > 0.0 && balance >= amount {
      assert PaymentBonus(amount, bonus) >= 0.0;
    }
  }

  // ----- the bonus wiring of the Account constructor -----

  /** The calculator the constructor builds for an account type: the base
      calculator, wrapped in the decorator for that type if it has one. */
  function BonusChain(accountType: AccountType): (chain: Bonus)
    ensures AdditionalBonus(chain, AccountView(accountType, 0.0)) == 0
  {
    match accountType
    case Savings => AccountBalanceDecorator(AccountBonus)
    case Deposit => DepositBalanceDecorator(AccountBonus)
    case Credit => AccountBonus
  }

  /** The bonus the constructor computes: 1.0 plus the chain's answer for the
      account as it is at that point, with balance 0. */
  function InitialBonus(accountType: AccountType): (bonus: real)
    ensures 1.0 <= bonus <= 3.0
  {
    1.0 + AdditionalBonus(BonusChain(accountType), AccountView(accountType, 0.0)) as real
  }

  /** Because the chain is asked while the balance is still 0, no threshold
      is ever met: every account starts, and stays, at bonus 1.0. */
  lemma InitialBonusIsOne(accountType: AccountType)
    ensures InitialBonus(accountType) == 1.0
  {
  }

  /** What the wired chain would give at any balance: for Savings and Deposit
      1.0, 2.0 or 3.0 by the decorator's bands, for Credit always 1.0. The
      constructor asks only at balance 0, in the lowest band. */
  lemma BonusChainBands(balance: real)
    ensures balance > 100000.0 ==> 1.0 + AdditionalBonus(BonusChain(Savings), AccountView(Savings, balance)) as real == 3.0
    ensures 50000.0 < balance <= 100000.0 ==> 1.0 + AdditionalBonus(BonusChain(Savings), AccountView(Savings, balance)) as real == 2.0
    ensures balance <= 50000.0 ==> 1.0 + AdditionalBonus(BonusChain(Savings), AccountView(Savings, balance)) as real == 1.0
    ensures balance > 500000.0 ==> 1.0 + AdditionalBonus(BonusChain(Deposit), AccountView(Deposit, balance)) as real == 3.0
    ensures 250000.0 < balance <= 500000.0 ==> 1.0 + AdditionalBonus(BonusChain(Deposit), AccountView(Deposit, balance)) as real == 2.0
    ensures balance <= 250000.0 ==> 1.0 + AdditionalBonus(BonusChain(Deposit), AccountView(Deposit, balance)) as real == 1.0
    ensures 1.0 + AdditionalBonus(BonusChain(Credit), AccountView(Credit, balance)) as real == 1.0
  {
    SavingsThresholds(AccountBonus, balance);
    DepositThresholds(AccountBonus, balance);
  }

  class Account {
    const accountId: Int32
    const client: Client
    const clientName: string
    const accountType: AccountType
    const accountName: string
    var balance: real
    const bonus: real
    const bank: BankSystem

    /** The account invariant: the balance never goes negative; the bonus is
      the one computed at construction. */
    ghost predicate Valid()
      reads this
    {
      balance >= 0.0 && bonus == InitialBonus(accountType)
    }

    constructor (client: Client, accountType: AccountType, accountName: string, ids: IdCounter, bank: BankSystem)
      modifies ids
      ensures accountId == old(ids.next) && ids.next == Increment(old(ids.next))
      ensures this.client == client && clientName == client.name
      ensures this.accountType == accountType && this.accountName == accountName
      ensures balance == 0.0 && bonus == 1.0 && this.bank == bank
      ensures Valid()
    {
      var id := ids.Take();
      accountId := id;
      this.client := client;
      clientName := client.name;
      this.accountType := accountType;
      this.accountName := accountName;
      var initialBalance := 0.0;
      balance := initialBalance;
      var newBonus := AdditionalBonus(BonusChain(accountType), AccountView(accountType, initialBalance));
      bonus := 1.0 + newBonus as real;
      this.bank := bank;
      new;
      InitialBonusIsOne(accountType);
    }

    method Deposit(amount: real)
      requires Valid()
      modifies this, bank
      ensures Valid()
      ensures balance == DepositedBalance(old(balance), amount)
      ensures bank.devices == old(bank.devices)
      ensures bank.log == old(bank.log) + DepositDeliveries(bank.devices, clientName, accountName, old(balance), amount)
    {
      var operation := "deposit";
      if amount > 0.0 {
        balance := balance + amount;
        bank.BalanceChange(clientName, accountName, operation, amount, balance);
      }
    }

    method Withdraw(amount: real) returns (outcome: Outcome)
      requires Valid()
      modifies this, bank
      ensures Valid()
      ensures balance == WithdrawnBalance(old(balance), amount)
      ensures outcome == if amount <= 0.0 then Ignored
                         else if old(balance) >= amount then Applied
                         else Refused(WITHDRAW_REFUSAL)
      ensures bank.devices == old(bank.devices)
      ensures bank.log == old(bank.log) + WithdrawDeliveries(bank.devices, clientName, accountName, old(balance), amount)
    {
      var operation := "withdraw";
      outcome := Ignored;
      if amount > 0.0 {
        if balance >= amount {
          balance := balance - amount;
          bank.BalanceChange(clientName, accountName, operation, amount, balance);
          outcome := Applied;
        } else {
          outcome := Refused(WITHDRAW_REFUSAL);
        }
      }
    }

    method Pay(amount: real) returns (outcome: Outcome)
      requires Valid()
      modifies this, bank
      ensures Valid()
      ensures balance == PaidBalance(old(balance), amount, bonus)
      ensures outcome == if amount <= 0.0 then Ignored
                         else if old(balance) >= amount then Applied
                         else Refused(PAYMENT_REFUSAL)
      ensures bank.devices == old(bank.devices)
      ensures bank.log == old(bank.log) + PayDeliveries(bank.devices, clientName, accountName, old(balance), amount, bonus)
    {
      var operation := "payment";
      outcome := Ignored;
      if amount > 0.0 {
        if balance >= amount {
          var bonusAmount := amount * bonus / 100.0;
          BalanceStaysNonNegative(balance, amount, bonus);
          balance := balance - amount + bonusAmount;
          bank.BalanceChangeWithBonus(clientName, accountName, operation, amount, balance, bonusAmount);
          outcome := Applied;
        } else {
          outcome := Refused(PAYMENT_REFUSAL);
        }
      }
    }
  }

  class Client {
    const clientId: Int32
    const lastname: string
    const firstname: string
    const name: string
    const email: string
    const phone: string
    var accounts: seq<Account>
    const bank: BankSystem

    constructor (lastname: string, firstname: string, email: string, phone: string, ids: IdCounter, bank: BankSystem)
      modifies ids
      ensures clientId == old(ids.next) && ids.next == Increment(old(ids.next))
      ensures this.lastname == lastname && this.firstname == firstname
      ensures name == lastname + " " + firstname
      ensures this.email == email && this.phone == phone
      ensures accounts == [] && this.bank == bank
    {
      var id := ids.Take();
      clientId := id;
      this.lastname := lastname;
      this.firstname := firstname;
      name := lastname + " " + firstname;
      this.email := email;
      this.phone := phone;
      accounts := [];
      this.bank := bank;
    }

    /** Registers the device with the shared hub; the client keeps nothing. */
    method AddDevice(device: Device)
      modifies bank
      ensures bank.devices == old(bank.devices) + [device]
      ensures bank.log == old(bank.log)
    {
      bank.AddDevice(device);
    }

    /** Removes the device's first registration from the shared hub. */
    method DeleteDevice(device: Device)
      modifies bank
      ensures bank.devices == RemoveFirst(old(bank.devices), device)
      ensures bank.log == old(bank.log)
    {
      bank.DeleteDevice(device);
    }

    /** Appends the account, keeping the earlier ones in order. */
    method CreateAccount(account: Account)
      modifies this`accounts
      ensures accounts == old(accounts) + [account]
    {
      accounts := accounts + [account];
    }

    /** Removes the first occurrence of the account; with no accounts at all
      it prints a notice instead. */
    method DeleteAccount(account: Account) returns (outcome: Outcome)
      modifies this`accounts
      ensures old(accounts) == [] ==> accounts == [] && outcome == Refused(NO_ACCOUNT_TO_DELETE)
      ensures old(accounts) != [] ==> accounts == RemoveFirst(old(accounts), account) && outcome == Applied
      ensures account !in old(accounts) ==> accounts == old(accounts)
      ensures account in old(accounts) ==>
        accounts == old(accounts)[..FirstIndex(old(accounts), account)] + old(accounts)[FirstIndex(old(accounts), account) + 1..]
    {
      if accounts == [] {
        outcome := Refused(NO_ACCOUNT_TO_DELETE);
      } else {
        if account in accounts {
          RemoveFirstPresent(accounts, account);
        } else {
          RemoveFirstAbsent(accounts, account);
        }
        accounts := RemoveFirst(accounts, account);
        outcome := Applied;
      }
    }
  }

  /** Two accounts created one after the other (below the int limit) get
      consecutive ids, and keep the type, name and client name they were
      created with. */
  method ConsecutiveAccounts(client: Client, ids: IdCounter, bank: BankSystem, t: AccountType, u: AccountType)
    returns (first: Account, second: Account)
    requires ids.next as int < INT_MAX
    modifies ids
    ensures second.accountId as int == first.accountId as int + 1
    ensures first.accountType == t && second.accountType == u
    ensures first.clientName == client.name && second.clientName == client.name
    ensures first.bonus == 1.0 && second.bonus == 1.0
  {
    first := new Account(client, t, "first", ids, bank);
    IncrementWraps(first.accountId);
    second := new Account(client, u, "second", ids, bank);
  }
}
