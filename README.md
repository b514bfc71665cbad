# banking-system in Dafny

A Dafny model of the core of the `banking-system` Java application: bank
accounts and their clients, the per-type bonus decorators, the interest
strategies and their calculator, the notification hub that tells every
registered device about each transaction, the loan agreement builder with
its agreements and director, the banking facade, and the role-based report
factory.

Accounts, clients, the hub, the interest calculator, the loan builder and
the director change their fields in place, so each is a Dafny `class` whose
methods say in `ensures` what the new state is. The facade is a class too:
its only field is the hub, which never changes, and its methods change the
accounts and the hub it is given. The bonus
calculators, interest rates, loan payments, agreement numbers and the report
dispatch are pure, so they are datatypes and functions with lemmas.

Some choices hold across the whole model:

- Money, rates and payments are `real`. This is exact arithmetic standing
  in for Java `double`, with no rounding.
- Java `int` is the newtype `Ints.Int32` where its width matters: ids and
  loan terms. The id counters wrap around at `Integer.MAX_VALUE` as `nextId++` does.
- A thrown exception is `Exceptions.Result.Threw` (for a call that returns
  a value) or `Exceptions.Completion.Raised` (for a `void` or fluent call).
  Each carries the exception class and its message.
- A line a balance operation prints instead of acting ("Insufficient funds
  for withdrawal.") is returned as `Model.Outcome.Refused` with that text.
- The static id counters and the hub singleton are explicit objects:
  - `Model.IdCounter` for each counter;
  - `Observer.BankSystem` for the hub, handed to accounts and clients;
  - `Observer.BankSystemInstance` for the static `instance` slot.
- A device is a value with an identity, and the hub keeps a `log` of
  the deliveries made. The shipped devices only print what they receive, so
  the log is what they would print, in order. Balance-change messages are
  values holding their fields, not the formatted strings.
- The clock (`LocalDate.now()`) and the random draw (`new Random().nextInt(9000)`)
  are parameters of the builder constructor. The builder reads the clock
  twice, once for the agreement number and once for the start date, so
  these are two parameters.

`BonusDecorator.additionalBonus` delegates to the wrapped calculator
(src/decorator/BonusDecorator.java:16-19), but both concrete decorators
override it and never call it (src/decorator/AccountBalanceDecorator.java:15-26,
src/decorator/DepositBalanceDecorator.java:15-26).
`Bonuses.SavingsOnlyForSavings` and `Bonuses.DepositOnlyForDeposit` prove
that the wrapped calculator is never consulted. The program ships no
decorator that keeps the inherited method; `Bonuses.PlainDecorator` stands
for such a hypothetical subclass, and `Bonuses.PlainDelegates`,
`Bonuses.PlainChainIsZero` and the `PlainDecorator` case of
`Bonuses.BonusMonotone` are about it. Because the
constructor asks the chain while the balance is still 0, every account gets
bonus 1.0 (`Model.InitialBonusIsOne`).

## Model

| member | source | states |
|---|---|---|
| AccountTypes.ExactlyThreeTypes | src/model/AccountType.java:6-9 | every account type is SAVINGS, DEPOSIT or CREDIT, and the three are distinct |
| AccountTypes.DescriptionsIdentifyTypes | src/model/AccountType.java:7-19 | the descriptions are "Savings", "Deposit", "Credit"; two types have the same description exactly when they are the same type |
| AccountTypes.AccountType.Description | src/model/AccountType.java:17-19 | every description is a capitalised word of at least two letters |
| Ints.Increment | src/model/Account.java:25 | `nextId++` on a Java int: the result is the 32-bit int congruent to n + 1 modulo 2^32 |
| Ints.IncrementWraps | src/model/Account.java:25 | below `Integer.MAX_VALUE` the increment is plain n + 1; at it, the counter wraps to `Integer.MIN_VALUE` |
| Bonuses.AdditionalBonus | src/decorator/BonusDecorator.java:16-19 | any calculator, however deeply decorated, answers 0, 1 or 2 |
| Bonuses.BaseIsZero | src/decorator/AccountBonus.java:11-13 | the base calculator answers 0 for every account type and balance |
| Bonuses.PlainDelegates | src/decorator/BonusDecorator.java:16-19 | the inherited `additionalBonus` of a decorator is that of the calculator it wraps |
| Bonuses.PlainChainIsZero | src/decorator/BonusDecorator.java:12-19 | any number of delegating decorators around the base calculator still answers 0 |
| Bonuses.SavingsThresholds | src/decorator/AccountBalanceDecorator.java:17-25 | a Savings account gets 2 above 100000, 1 above 50000 up to 100000, and 0 at or below 50000; exactly 100000 gives 1 and exactly 50000 gives 0 |
| Bonuses.SavingsOnlyForSavings | src/decorator/AccountBalanceDecorator.java:16-26 | a non-Savings account gets 0 from the Savings decorator, and the answer does not depend on the decorated calculator |
| Bonuses.DepositThresholds | src/decorator/DepositBalanceDecorator.java:17-25 | a Deposit account gets 2 above 500000, 1 above 250000 up to 500000, and 0 at or below 250000 |
| Bonuses.DepositOnlyForDeposit | src/decorator/DepositBalanceDecorator.java:16-26 | a non-Deposit account gets 0 from the Deposit decorator, and the answer does not depend on the decorated calculator |
| Bonuses.BonusMonotone | src/decorator/AccountBalanceDecorator.java:17-25 | for every calculator and type, a larger balance never earns a smaller bonus |
| Sequences.RemoveFirstPresent | src/observer/BankSystem.java:27-29 | removing an element that is present drops exactly its first occurrence and keeps the order of the rest |
| Sequences.RemoveFirstAbsent | src/observer/BankSystem.java:27-29 | removing an absent element changes nothing |
| Sequences.RemoveFirstCounts | src/observer/BankSystem.java:27-29 | removal lowers the count of the removed element by one when it is present, leaves every other count alone, and shortens the sequence by one exactly when the element was present |
| Sequences.RemoveFirstMultiset | src/model/Client.java:55 | removal takes out one copy of the element and keeps every other element |
| Observer.Broadcast | src/observer/BankSystem.java:40-44 | a broadcast makes one delivery per registry entry, in registry order, each with the same message |
| Observer.BroadcastInbox | src/observer/BankSystem.java:40-44 | each device receives the message once for each time it is registered; a device registered twice receives it twice, an unregistered one not at all |
| Observer.DeleteDeviceEffect | src/observer/BankSystem.java:27-29 | after deleting a registered device, it receives one copy fewer of every later broadcast and every other device receives the same messages as before |
| Observer.BankSystem.constructor | src/observer/BankSystem.java:12 | a new hub has no devices and has delivered nothing |
| Observer.BankSystem.AddDevice | src/observer/BankSystem.java:22-24 | the device is appended at the end, with no duplicate check; nothing is delivered |
| Observer.BankSystem.DeleteDevice | src/observer/BankSystem.java:27-29 | the first registration of the device is removed and the rest keep their order; an absent device changes nothing |
| Observer.BankSystem.SeeDevices | src/observer/BankSystem.java:32-37 | the listing numbers the registered devices 1 to n in registry order, and changes nothing |
| Observer.BankSystem.NotifyObservers | src/observer/BankSystem.java:40-44 | the message is delivered to every registered device in registry order, and the registry is unchanged |
| Observer.NotifyExtendsInbox | src/observer/BankSystem.java:40-44 | after a broadcast each device has received what it had before, then the message once per time it is registered |
| Observer.BankSystem.BalanceChange | src/observer/BankSystem.java:49-55 | one broadcast of a message carrying client, account, operation, amount and balance |
| Observer.BankSystem.BalanceChangeWithBonus | src/observer/BankSystem.java:60-66 | one broadcast of a message carrying client, account, operation, amount, bonus amount and balance |
| Observer.BankSystemInstance.GetInstance | src/observer/BankSystem.java:14-19 | the first call creates an empty hub; every call returns the hub in the slot |
| Observer.GetInstanceTwice | src/observer/BankSystem.java:14-19 | two calls of `getInstance` return the same hub |
| Model.IdCounter.Take | src/model/Client.java:25 | hands out the current id and moves the counter on by one, wrapping as a Java int |
| Model.DepositEffect | src/model/Account.java:42-48 | a positive deposit adds exactly the amount and broadcasts one "deposit" message with the new balance; any other amount changes nothing and sends nothing |
| Model.WithdrawEffect | src/model/Account.java:50-60 | the balance changes exactly when 0 < amount <= balance, and then by exactly the amount; a message is sent exactly then (if any device is registered) |
| Model.PayEffect | src/model/Account.java:62-73 | a covered payment takes the amount and gives back amount * bonus / 100; otherwise nothing changes and nothing is sent |
| Model.BalanceStaysNonNegative | src/model/Account.java:42-73 | with a non-negative bonus, none of the three operations takes a non-negative balance below zero |
| Model.InitialBonusIsOne | src/model/Account.java:30-39 | the bonus chain is asked while the balance is 0, so every account type starts with bonus exactly 1.0 |
| Model.BonusChain | src/model/Account.java:32-36 | the calculator wired for the account type answers 0 for that type at a zero balance |
| Model.InitialBonus | src/model/Account.java:31-39 | the constructor's bonus, 1.0 plus the chain's answer, lies between 1.0 and 3.0 |
| Model.BonusChainBands | src/model/Account.java:30-39 | at every balance, the chain the constructor wires gives 1.0 + the bonus: for Savings 3.0 above 100000, 2.0 above 50000, 1.0 at or below 50000; for Deposit 3.0 above 500000, 2.0 above 250000, 1.0 at or below 250000; for Credit always 1.0. Every balance in the lowest band, 0 included, gives 1.0 |
| Model.Account.constructor | src/model/Account.java:24-40 | the account takes the next id, the client's name, its type and name, balance 0 and bonus 1.0 |
| Model.Account.Deposit | src/model/Account.java:42-48 | the balance and the hub's deliveries are those `DepositEffect` describes; the registry is unchanged and the invariant balance >= 0 is kept |
| Model.Account.Withdraw | src/model/Account.java:50-60 | applies a covered withdrawal, ignores a non-positive amount, refuses with "Insufficient funds for withdrawal." otherwise; notifies only when applied |
| Model.Account.Pay | src/model/Account.java:62-73 | applies a covered payment with its cash-back, ignores a non-positive amount, refuses with "Insufficient funds for payment." otherwise; notifies with the bonus amount only when applied |
| Model.Client.constructor | src/model/Client.java:24-32 | the client takes the next id, the name lastname + " " + firstname, and an empty account list |
| Model.Client.AddDevice | src/model/Client.java:34-36 | the device is appended to the shared hub's registry; the client keeps no device state |
| Model.Client.DeleteDevice | src/model/Client.java:38-40 | the device's first registration is removed from the shared hub's registry |
| Model.Client.CreateAccount | src/model/Client.java:47-49 | the account is appended at the end, after the earlier ones in their order |
| Model.Client.DeleteAccount | src/model/Client.java:51-57 | with no accounts it refuses with "No account to delete."; otherwise the first occurrence is removed, or nothing if the account is absent |
| Model.ConsecutiveAccounts | src/model/Account.java:14-29 | two accounts created one after the other get consecutive ids and bonus 1.0, and keep their type and client name |
| Strategy.InterestRates | src/strategy/SavingsInterest.java:12 | Savings interest is 3% of the balance; VIP (VIPInterest.java:12) 5% and Loan (LoanInterest.java:12) 7% |
| Strategy.CalculateInterest | src/strategy/SavingsInterest.java:11-13 | for every strategy (also VIPInterest.java:11-13, LoanInterest.java:11-13), a non-negative balance earns between 0 and a tenth of the balance, and a positive balance earns a positive amount |
| Strategy.InterestBounds | src/strategy/SavingsInterest.java:12 | a zero balance earns zero interest; a non-negative balance earns a non-negative interest no larger than the balance |
| Strategy.InterestDependsOnlyOnBalance | src/strategy/SavingsInterest.java:11-13 | two accounts with the same balance earn the same interest, whatever their type, name or owner |
| Strategy.StrategiesOrdered | src/strategy/VIPInterest.java:12 | on a positive balance Savings pays less than VIP, which pays less than Loan |
| Strategy.InterestCalculator.constructor | src/strategy/InterestCalculator.java:10 | a new calculator has no strategy |
| Strategy.InterestCalculator.SetStrategy | src/strategy/InterestCalculator.java:12-14 | the stored strategy is replaced; `null` clears it |
| Strategy.InterestCalculator.Execute | src/strategy/InterestCalculator.java:16-21 | with no strategy it throws IllegalStateException("Interest strategy is not set!"); otherwise it returns the strategy's interest; it changes nothing |
| Strategy.LastStrategyWins | src/strategy/InterestCalculator.java:12-21 | a calculator fails before any strategy is set, uses the last strategy set, and fails again once cleared |
| LoanAgreements.MonthlyPayment | src/builder/LoanAgreement.java:77-81 | the payment is undefined (NaN) exactly when the rate is 0, and positive otherwise |
| LoanAgreements.TotalPayment | src/builder/LoanAgreement.java:86-88 | the total is undefined exactly when the monthly payment is |
| LoanAgreements.TotalInterest | src/builder/LoanAgreement.java:110-111 | the total interest is undefined (NaN) exactly when the rate is 0 |
| LoanAgreements.YearsShown | src/builder/LoanAgreement.java:103 | the years shown are the whole years in the term: years * 12 <= term < (years + 1) * 12 |
| LoanAgreements.OutstandingClosedForm | src/builder/LoanAgreement.java:77-81 | the closed form of a month-by-month amortization schedule |
| LoanAgreements.PaymentRepaysLoan | src/builder/LoanAgreement.java:77-81 | paying the monthly payment each month, with the monthly rate interestRate/100/12 added each month, leaves exactly nothing owed after the term |
| LoanAgreements.TotalCoversAmount | src/builder/LoanAgreement.java:110-111 | at a positive rate the total payment is at least the amount, so the total interest shown is never negative |
| Builder.AgreementNumberFormat | src/builder/LoanAgreementBuilder.java:205-211 | for a four-digit year the number is "LOAN-", eight digits reading back as year, month and day, "-", and four digits between 1000 and 9999 |
| Builder.AgreementNumber | src/builder/LoanAgreementBuilder.java:205-211 | for every date the number starts with "LOAN-" and ends with "-" and four digits reading back as 1000 + draw |
| Builder.SetterRejections | src/builder/LoanAgreementBuilder.java:57-112 | a setter throws IllegalArgumentException exactly for a null client, an amount or term that is not positive, or a rate outside [0, 100] |
| Builder.Apply | src/builder/LoanAgreementBuilder.java:57-164 | a setter throws exactly for a rejected argument, always an IllegalArgumentException, and an accepted one keeps amount >= 0, 0 <= rate <= 100 and term >= 0 |
| Builder.SetterFrame | src/builder/LoanAgreementBuilder.java:57-164 | a setter that accepts its argument stores it in its own field and changes none of the other seven |
| Builder.Built | src/builder/LoanAgreementBuilder.java:174-197 | build succeeds exactly when validation finds nothing missing; failures are IllegalStateException; a built agreement copies all eight fields and is well formed |
| Builder.ValidateRequiredFields | src/builder/LoanAgreementBuilder.java:184-197 | validation passes exactly when the client is set, the amount and term are positive and the rate is not negative; a failure is an IllegalStateException |
| Builder.DefaultReachable | src/builder/LoanAgreementBuilder.java:28-48 | a new builder has amount, rate and term at zero, inside the range the setters keep |
| Builder.ThenKeepsReachable | src/builder/LoanAgreementBuilder.java:74-112 | every setter keeps amount >= 0, 0 <= rate <= 100 and term >= 0 |
| Builder.RateCheckUnreachable | src/builder/LoanAgreementBuilder.java:191-193 | in every reachable state the "Interest rate must be set before building" check cannot fire |
| Builder.BuildSucceedsIff | src/builder/LoanAgreementBuilder.java:184-197 | from a reachable state, build succeeds exactly when client, amount and term have been set |
| Builder.FreshBuilder | src/builder/LoanAgreementBuilder.java:42-48 | a new builder has purpose "General purpose", no insurance, the generated number and today's date, and refuses to build for want of a client |
| Builder.BuildWithoutRate | src/builder/LoanAgreementBuilder.java:28-31 | building without `setInterestRate` succeeds with rate 0, where the monthly payment is NaN |
| Builder.LoanAgreementBuilder.constructor | src/builder/LoanAgreementBuilder.java:42-48 | the new builder holds the default state |
| Builder.LoanAgreementBuilder.SetClient | src/builder/LoanAgreementBuilder.java:58-64 | a null client throws "Client cannot be null" and changes nothing; otherwise only the client is set |
| Builder.LoanAgreementBuilder.SetAmount | src/builder/LoanAgreementBuilder.java:74-80 | an amount <= 0 throws "Loan amount must be positive" and changes nothing; otherwise only the amount is set |
| Builder.LoanAgreementBuilder.SetInterestRate | src/builder/LoanAgreementBuilder.java:90-96 | a rate outside [0, 100] throws "Interest rate must be between 0 and 100" and changes nothing; otherwise only the rate is set |
| Builder.LoanAgreementBuilder.SetTermMonths | src/builder/LoanAgreementBuilder.java:106-112 | a term <= 0 throws "Term must be positive" and changes nothing; otherwise only the term is set |
| Builder.LoanAgreementBuilder.SetAgreementNumber | src/builder/LoanAgreementBuilder.java:122-125 | only the agreement number changes |
| Builder.LoanAgreementBuilder.SetStartDate | src/builder/LoanAgreementBuilder.java:135-138 | only the start date changes |
| Builder.LoanAgreementBuilder.SetPurpose | src/builder/LoanAgreementBuilder.java:148-151 | only the purpose changes |
| Builder.LoanAgreementBuilder.SetInsuranceRequired | src/builder/LoanAgreementBuilder.java:161-164 | only the insurance flag changes |
| Builder.LoanAgreementBuilder.Build | src/builder/LoanAgreementBuilder.java:174-177 | returns what `Built` gives for the builder's current fields and leaves the builder unchanged |
| Builder.BuildTwice | src/builder/LoanAgreementBuilder.java:174-177 | two builds from one builder give the same agreement, with the builder's agreement number, or the same failure |
| Builder.PresetTerms | src/builder/LoanAgreementDirector.java:39-105 | a preset builds exactly when the client is given and the amount is positive; the agreement has the preset's rate, term, purpose and insurance (7.5/60/"Personal loan"/no, 6.8/360/"Real Estate Purchase"/yes, 8.5/60/"Vehicle Purchase"/yes, 9.0/120/"Business Development"/no) and the builder's number and date |
| Builder.PresetFailures | src/builder/LoanAgreementDirector.java:40-42 | a null client raises the builder's IllegalArgumentException with the builder unchanged; a bad amount after a good client leaves that client assigned |
| Builder.CustomCarriesOver | src/builder/LoanAgreementDirector.java:118-128 | the custom preset keeps the builder's insurance flag, number and date, and builds exactly when all four required arguments are valid |
| Builder.MortgageThenCustom | src/builder/LoanAgreementDirector.java:58-128 | on one builder, a custom loan after a mortgage requires insurance, and both agreements share number and start date |
| Builder.LoanAgreementDirector.constructor | src/builder/LoanAgreementDirector.java:18-20 | the director holds the given builder |
| Builder.LoanAgreementDirector.SetBuilder | src/builder/LoanAgreementDirector.java:27-29 | later constructions use the new builder |
| Builder.LoanAgreementDirector.ConstructPreset | src/builder/LoanAgreementDirector.java:39-105 | runs the preset's setter chain on the stored builder, stopping at the first exception, then builds |
| Builder.LoanAgreementDirector.ConstructStandardLoan | src/builder/LoanAgreementDirector.java:39-48 | the standard chain on the stored builder: its new state and its result |
| Builder.LoanAgreementDirector.ConstructMortgageLoan | src/builder/LoanAgreementDirector.java:58-67 | the mortgage chain on the stored builder: its new state and its result |
| Builder.LoanAgreementDirector.ConstructCarLoan | src/builder/LoanAgreementDirector.java:77-86 | the car chain on the stored builder: its new state and its result |
| Builder.LoanAgreementDirector.ConstructBusinessLoan | src/builder/LoanAgreementDirector.java:96-105 | the business chain on the stored builder: its new state and its result |
| Builder.LoanAgreementDirector.ConstructCustomLoan | src/builder/LoanAgreementDirector.java:118-128 | the five-step custom chain, with no insurance step, on the stored builder: its new state and its result |
| ReportFactory.GetReportCreator | src/factory/ReportFactory.java:27-41 | a null role throws "User role cannot be null or empty"; every failure is an IllegalArgumentException; a creator is returned only for a role whose lower-case form is "client", "bank" or "audit" |
| ReportFactory.CreateReport | src/factory/ReportFactory.java:53-56 | the report of the creator the role selects, or exactly the same failure |
| ReportFactory.RoleAcceptedIff | src/factory/ReportFactory.java:32-40 | a role is accepted exactly when its lower-case form is "client", "bank" or "audit", which then picks the creator; every refusal is an IllegalArgumentException |
| ReportFactory.MissingOrBlankRole | src/factory/ReportFactory.java:28-30 | a null role and an all-whitespace role throw "User role cannot be null or empty" |
| ReportFactory.CaseInsensitive | src/factory/ReportFactory.java:32-33 | "Client" and "CLIENT" give the client creator, "Audit" the audit report |
| ReportFactory.PaddedRoleRejected | src/factory/ReportFactory.java:28-32 | " bank " passes the blank check but is rejected as an unknown role, since it is not trimmed before matching |
| Strings.FormatZeroPaddedDigits | src/builder/LoanAgreementBuilder.java:207-208 | `%0wd` of 0 <= n < 10^w is w digits that read back as n |
| Strings.NatToDecimalRoundTrip | src/builder/LoanAgreementBuilder.java:210 | the decimal text of a number reads back as that number |
| Strings.TrimEmptyIffBlank | src/factory/ReportFactory.java:28 | `trim()` is empty exactly when every character is at most U+0020 |
| Strings.ToLowerCase | src/factory/ReportFactory.java:32 | lower-casing keeps the length and maps each character on its own |
| Facade.TransferCreditsRefusedAmount | src/facade/BankingFacade.java:23-28 | as written, 100 transferred from an empty account to another empty one leaves 0 and 100 |
| Facade.TransferTotal | src/facade/BankingFacade.java:23-28 | as written, the total of the two balances grows by the amount exactly when the withdrawal was refused, and is kept otherwise |
| Facade.CheckedTransferConserves | src/facade/BankingFacade.java:25-26 | the corrected transfer keeps the total, never overdraws, and moves exactly the amount when 0 < amount <= the source balance |
| Facade.TransfersAgreeUnlessRefused | src/facade/BankingFacade.java:23-28 | the two versions agree exactly when the withdrawal is not refused |
| Facade.InterestCredited | src/facade/BankingFacade.java:41-47 | applied interest multiplies a positive balance by 1 + rate, leaves a zero balance at zero, and never lowers the balance |
| Facade.BankingFacade.constructor | src/facade/BankingFacade.java:18 | the facade uses the hub in the singleton slot; on an empty slot that hub is new, with no devices and nothing delivered |
| Facade.BankingFacade.Transfer | src/facade/BankingFacade.java:23-28 | withdraws from the source, then deposits into the target whatever the withdrawal did; the same account on both sides is handled |
| Facade.BankingFacade.TransferChecked | src/facade/BankingFacade.java:23-28 | the corrected transfer: deposits only after an applied withdrawal, keeping the total of two distinct accounts and the balance of one account transferring to itself; the hub receives the withdrawal's message and, only when it was applied, the deposit's |
| Facade.BankingFacade.ApplyInterest | src/facade/BankingFacade.java:41-47 | with no strategy it throws the calculator's IllegalStateException and changes nothing; otherwise it deposits the strategy's interest |
| Facade.BankingFacade.CreateLoan | src/facade/BankingFacade.java:52-61 | a new builder each call; null client or non-positive amount throw the builder's exceptions; otherwise rate 7.5, 60 months, "Personal Loan", no insurance, the new builder's number and date |
| Facade.BankingFacade.GenerateReport | src/facade/BankingFacade.java:33-36 | returns exactly what the factory's `createReport` gives, report or exception with its message; a report comes back exactly for a known role, and every failure is an IllegalArgumentException |
| Facade.BankingFacade.NotifyClients | src/facade/BankingFacade.java:66-68 | one broadcast of "[BANK NOTIFICATION]: " followed by the message |

## Left out

- IEEE doubles: money, rates and payments are exact reals, so rounding, overflow, NaN and infinite inputs are not modelled; `Math.pow` is exact repeated multiplication.
- LoanAgreements.MonthlyPayment: `None` stands for the NaN of 0/0 at rate 0, and "None exactly when the rate is 0" holds over exact reals only. In doubles, overflow and rounding also give NaN or Infinity at some positive rates the setters accept: at rate 100 and a term of 9000 months `Math.pow(1 + 1/12, 9000)` overflows, so the payment is Infinity/Infinity, which is NaN; at rate 1e-14, `1 + monthlyRate` rounds to 1.0, so the payment is a positive number over 0, which is +Infinity. The model gives a positive `Some` in both cases, and `TotalPayment` and `TotalInterest` inherit this.
- Strings.FormatZeroPadded: writes ASCII digits '0'-'9'. `String.format("%04d", ...)` writes the default locale's digits, so an agreement number in a locale with other digits is not modelled.
- Number formatting (`%.2f`, `%,.2f`, `%.1f`) and every display routine print text only, so they are left out: `showAccountInfo`, `showClientInfo`, `showAccounts`, `Client.seeDevices`, `displayAgreementInfo`, `LoanAgreement.toString`. The years and total interest that `displayAgreementInfo` shows are modelled.
- The text each device prints and the "Initiating transfer...", "Transfer completed successfully!" and "Interest of ... added" lines are left out; a device's receipt is a `Delivery` in the hub's log.
- The report bodies, the creators' `getCreatorInfo` and `Report.generateReport` print fixed text, so a report is a tag. `AuditReport` lacks the `getReportType` that the `Report` interface asks for; the model does not need it.
- The console drivers `BankingApp` and `Main` only sequence calls and print, so they are not modelled.
- No reference argument is null, except the builder's client, the factory's role and the interest strategy, which the model represents as `Option` or a nullable reference. So the model does not capture the NullPointerException a `null` client causes in the `Account` constructor, a `null` device that `addDevice` stores and `notifyObservers` then dereferences, `null` strings or dates that the optional builder setters store and `build` copies, a `null` builder given to the director, or `null` accounts given to `Client.createAccount` or to the facade.
- Strings.ToLowerCase: lower-cases only the characters whose lower-case form is an ASCII letter ('A'-'Z' and KELVIN SIGN). This is enough to decide `case "client"`, `"bank"` and `"audit"` in a locale other than Turkish or Azerbaijani. The length of other lower-cased text is not modelled.
- The balance-change messages keep their fields instead of the formatted string, so the exact `String.format` text is not modelled.
- The singleton and the static counters are explicit objects, and concurrency is absent in the source, so no thread-safety is modelled.
- Builder.AgreementNumberFormat: states the LOAN-YYYYMMDD-XXXX shape only for years 0 to 9999. `AgreementNumber` itself follows `%04d` for every year.

## Findings

| source | as written | input that shows it | evidently intended | confidence | as-written member | corrected member |
|---|---|---|---|---|---|---|
| src/facade/BankingFacade.java:23-28 | `transfer` calls `to.deposit(amount)` whether or not `from.withdraw(amount)` was refused, then reports success | from balance 0, to balance 0, amount 100: afterwards from has 0 and to has 100, so 100 was created | credit the target only when the withdrawal went through, so a transfer never changes the total | medium, not executed | Facade.TransferCreditsRefusedAmount | Facade.CheckedTransferConserves |

`Facade.BankingFacade.Transfer` models the code as written; its balances
are `Facade.TransferredBalances`, about which `Facade.TransferCreditsRefusedAmount`
and `Facade.TransferTotal` are proved. `Facade.BankingFacade.TransferChecked`
is the corrected method; its balances are `Facade.CheckedTransferBalances`,
which `Facade.CheckedTransferConserves` proves keeps the total.
