/** The loan agreement builder and the director that drives it (package
    `builder`). The one `LoanBuilder` implementation is the class
    `LoanAgreementBuilder`; its fluent setters return nothing here, since
    each returns the builder itself, and a thrown exception is a `Raised`
    completion. The clock and the random draw are parameters. */
module Builder {
  import opened Ints
  import opened Exceptions
  import opened Strings
  import opened LoanAgreements
  import Model

  /** The builder's eight fields. The required ones start at Java's field
      defaults: `null`, 0.0, 0.0 and 0. */
  datatype BuilderState = BuilderState(
    client: Model.Client?,
    amount: real,
    interestRate: real,
    termMonths: Int32,
    agreementNumber: string,
    startDate: Date,
    purpose: string,
    insuranceRequired: bool)

  const DEFAULT_PURPOSE := "General purpose"

  const CLIENT_IS_NULL := "Client cannot be null"
  const AMOUNT_NOT_POSITIVE := "Loan amount must be positive"
  const RATE_OUT_OF_RANGE := "Interest rate must be between 0 and 100"
  const TERM_NOT_POSITIVE := "Term must be positive"

  const CLIENT_NOT_SET := "Client must be set before building"
  const AMOUNT_NOT_SET := "Loan amount must be set before building"
  const RATE_NOT_SET := "Interest rate must be set before building"
  const TERM_NOT_SET := "Term months must be set before building"

  // ----- the agreement number -----

  /** `generateAgreementNumber()`: "LOAN-", the date as `%04d%02d%02d`, "-",
      and 1000 plus the draw of `nextInt(9000)`. `today` is the date the
      clock gives at that call. */
  function AgreementNumber(today: Date, draw: int): (number: string)
    requires 0 <= draw < 9000
    ensures |number| >= 10 && number[..5] == "LOAN-" && number[|number| - 5] == '-'
    ensures IsDigits(number[|number| - 4..]) && DecimalValue(number[|number| - 4..]) == 1000 + draw
  {
    assert Pow10(3) == 1000 && Pow10(4) == 10000;
    NatToDecimalLength(1000 + draw, 4);
    NatToDecimalRoundTrip(1000 + draw);
    var head := "LOAN-" + FormatZeroPadded(today.year, 4) + FormatZeroPadded(today.month, 2)
      + FormatZeroPadded(today.day, 2) + "-";
    var suffix := NatToDecimal(1000 + draw);
    assert (head + suffix)[|head + suffix| - 4..] == suffix;
    assert (head + suffix)[..5] == head[..5];
    "LOAN-" + FormatZeroPadded(today.year, 4) + FormatZeroPadded(today.month, 2)
      + FormatZeroPadded(today.day, 2) + "-" + NatToDecimal(1000 + draw)
  }

  /** For a four-digit year the number has the form LOAN-YYYYMMDD-XXXX: 18
      characters, the date's fields readable back from their digits, and a
      four-digit suffix between 1000 and 9999. */
  lemma AgreementNumberFormat(today: Date, draw: int)
    requires 0 <= draw < 9000
    requires 0 <= today.year <= 9999 && 1 <= today.month <= 12 && 1 <= today.day <= 31
    ensures var s := AgreementNumber(today, draw);
      && |s| == 18
      && s[..5] == "LOAN-" && s[13] == '-'
      && IsDigits(s[5..13]) && IsDigits(s[14..])
      && DecimalValue(s[5..9]) == today.year
      && DecimalValue(s[9..11]) == today.month
      && DecimalValue(s[11..13]) == today.day
      && DecimalValue(s[14..]) == 1000 + draw
      && 1000 <= DecimalValue(s[14..]) <= 9999
  {
    var year := FormatZeroPadded(today.year, 4);
    var month := FormatZeroPadded(today.month, 2);
    var day := FormatZeroPadded(today.day, 2);
    var suffix := NatToDecimal(1000 + draw);
    NumberFields(today, draw);
    NumberLayout(year, month, day, suffix);
    DigitsAppend(year, month);
    DigitsAppend(year + month, day);
  }

  /** The four fields of the number, each on its own: widths 4, 2, 2 and 4,
      all digits, reading back as year, month, day and 1000 + draw. */
  lemma NumberFields(today: Date, draw: int)
    requires 0 <= draw < 9000
    requires 0 <= today.year <= 9999 && 1 <= today.month <= 12 && 1 <= today.day <= 31
    ensures var year := FormatZeroPadded(today.year, 4);
      |year| == 4 && IsDigits(year) && DecimalValue(year) == today.year
    ensures var month := FormatZeroPadded(today.month, 2);
      |month| == 2 && IsDigits(month) && DecimalValue(month) == today.month
    ensures var day := FormatZeroPadded(today.day, 2);
      |day| == 2 && IsDigits(day) && DecimalValue(day) == today.day
    ensures var suffix := NatToDecimal(1000 + draw);
      |suffix| == 4 && DecimalValue(suffix) == 1000 + draw
  {
    assert Pow10(2) == 100 && Pow10(3) == 1000 && Pow10(4) == 10000;
    FormatZeroPaddedDigits(today.year, 4);
    FormatZeroPaddedDigits(today.month, 2);
    FormatZeroPaddedDigits(today.day, 2);
    NatToDecimalLength(1000 + draw, 4);
    NatToDecimalRoundTrip(1000 + draw);
  }

  /** Where each field sits in "LOAN-" + year + month + day + "-" + suffix. */
  lemma NumberLayout(year: string, month: string, day: string, suffix: string)
    requires |year| == 4 && |month| == 2 && |day| == 2 && |suffix| == 4
    ensures var s := "LOAN-" + year + month + day + "-" + suffix;
      && |s| == 18 && s[..5] == "LOAN-" && s[13] == '-'
      && s[5..13] == year + month + day
      && s[5..9] == year && s[9..11] == month && s[11..13] == day
      && s[14..] == suffix
  {
    var s := "LOAN-" + year + month + day + "-" + suffix;
    var date := year + month + day;
    assert s == "LOAN-" + date + "-" + suffix;
    assert s[5..13] == date;
    assert date[..4] == year && date[4..6] == month && date[6..] == day;
  }

  // ----- the builder's state and its setters -----

  /** The state of a new builder: no client, zero amount, rate and term, the
      generated number, today's date, the general purpose, no insurance.
      The constructor and `generateAgreementNumber` each read the clock, so
      `numberDate` and `today` are two parameters. */
  function DefaultState(numberDate: Date, draw: int, today: Date): BuilderState
    requires 0 <= draw < 9000
  {
    BuilderState(null, 0.0, 0.0, 0, AgreementNumber(numberDate, draw), today, DEFAULT_PURPOSE, false)
  }

  /** One setter call with its argument. */
  datatype Assignment =
    | AssignClient(client: Model.Client?)
    | AssignAmount(amount: real)
    | AssignInterestRate(interestRate: real)
    | AssignTermMonths(termMonths: Int32)
    | AssignAgreementNumber(agreementNumber: string)
    | AssignStartDate(startDate: Date)
    | AssignPurpose(purpose: string)
    | AssignInsuranceRequired(insuranceRequired: bool)

  /** What a setter does to the builder's state: the four required fields
      are validated as they are assigned; the optional ones are not. */
  function Apply(st: BuilderState, assignment: Assignment): (r: Result<BuilderState>)
    ensures r.Threw? <==> Rejected(assignment)
    ensures r.Threw? ==> r.error.IllegalArgumentException?
    ensures Reachable(st) && r.Returned? ==> Reachable(r.value)
  {
    match assignment
    case AssignClient(client) =>
      if client == null then Threw(IllegalArgumentException(CLIENT_IS_NULL)) else Returned(st.(client := client))
    case AssignAmount(amount) =>
      if amount <= 0.0 then Threw(IllegalArgumentException(AMOUNT_NOT_POSITIVE)) else Returned(st.(amount := amount))
    case AssignInterestRate(rate) =>
      if rate < 0.0 || rate > 100.0 then Threw(IllegalArgumentException(RATE_OUT_OF_RANGE))
      else Returned(st.(interestRate := rate))
    case AssignTermMonths(term) =>
      if term <= 0 then Threw(IllegalArgumentException(TERM_NOT_POSITIVE)) else Returned(st.(termMonths := term))
    case AssignAgreementNumber(number) => Returned(st.(agreementNumber := number))
    case AssignStartDate(date) => Returned(st.(startDate := date))
    case AssignPurpose(purpose) => Returned(st.(purpose := purpose))
    case AssignInsuranceRequired(required) => Returned(st.(insuranceRequired := required))
  }

  /** The arguments a setter rejects. */
  predicate Rejected(assignment: Assignment) {
    match assignment
    case AssignClient(client) => client == null
    case AssignAmount(amount) => amount <= 0.0
    case AssignInterestRate(rate) => !(0.0 <= rate <= 100.0)
    case AssignTermMonths(term) => term <= 0
    case _ => false
  }

  /** A setter throws an IllegalArgumentException exactly for the rejected
      arguments: a null client, an amount or term that is not positive, a
      rate outside [0, 100]. The optional setters never throw. */
  lemma SetterRejections(st: BuilderState, assignment: Assignment)
    ensures Apply(st, assignment).Threw? <==> Rejected(assignment)
    ensures Apply(st, assignment).Threw? ==> Apply(st, assignment).error.IllegalArgumentException?
  {
  }

  /** A setter that accepts its argument stores it in its own field and
      changes no other field. */
  lemma SetterFrame(st: BuilderState, assignment: Assignment)
    requires !Rejected(assignment)
    ensures var s := Apply(st, assignment).value;
      && (if assignment.AssignClient? then s.client == assignment.client else s.client == st.client)
      && (if assignment.AssignAmount? then s.amount == assignment.amount else s.amount == st.amount)
      && (if assignment.AssignInterestRate? then s.interestRate == assignment.interestRate else s.interestRate == st.interestRate)
      && (if assignment.AssignTermMonths? then s.termMonths == assignment.termMonths else s.termMonths == st.termMonths)
      && (if assignment.AssignAgreementNumber? then s.agreementNumber == assignment.agreementNumber else s.agreementNumber == st.agreementNumber)
      && (if assignment.AssignStartDate? then s.startDate == assignment.startDate else s.startDate == st.startDate)
      && (if assignment.AssignPurpose? then s.purpose == assignment.purpose else s.purpose == st.purpose)
      && (if assignment.AssignInsuranceRequired? then s.insuranceRequired == assignment.insuranceRequired else s.insuranceRequired == st.insuranceRequired)
  {
  }

  /** A fluent chain of setter calls on one builder: the state reached so far
      and the exception that stopped the chain, if one did. Once a setter has
      thrown, no later call of the chain runs. */
  datatype Chain = Chain(state: BuilderState, raised: Option<Exception>) {

    function Then(assignment: Assignment): Chain {
      if raised != None then this
      else match Apply(state, assignment)
        case Threw(e) => Chain(state, Some(e))
        case Returned(next) => Chain(next, None)
    }

    /** The chain's final `build()`, which runs only if no setter threw. */
    function Build(): Result<LoanAgreement> {
      if raised != None then Threw(raised.value) else Built(state)
    }
  }

  function Start(st: BuilderState): Chain {
    Chain(st, None)
  }

  // ----- build -----

  /** `validateRequiredFields()`: the first required field still at a value
      no setter would have stored. */
  function ValidateRequiredFields(st: BuilderState): (missing: Option<Exception>)
    ensures missing == None <==> st.client != null && st.amount > 0.0 && st.interestRate >= 0.0 && st.termMonths > 0
    ensures missing != None ==> missing.value.IllegalStateException?
  {
    if st.client == null then Some(IllegalStateException(CLIENT_NOT_SET))
    else if st.amount <= 0.0 then Some(IllegalStateException(AMOUNT_NOT_SET))
    else if st.interestRate < 0.0 then Some(IllegalStateException(RATE_NOT_SET))
    else if st.termMonths <= 0 then Some(IllegalStateException(TERM_NOT_SET))
    else None
  }

  /** `build()`: validate, then copy the eight fields into a new agreement.
      Every agreement it produces is well formed. */
  function Built(st: BuilderState): (r: Result<LoanAgreement>)
    ensures r.Returned? <==> ValidateRequiredFields(st) == None
    ensures r.Threw? ==> r.error.IllegalStateException?
    ensures r.Returned? ==> WellFormed(r.value)
    ensures r.Returned? ==>
      && r.value.client == st.client && r.value.amount == st.amount
      && r.value.interestRate == st.interestRate && r.value.termMonths == st.termMonths
      && r.value.agreementNumber == st.agreementNumber && r.value.startDate == st.startDate
      && r.value.purpose == st.purpose && r.value.insuranceRequired == st.insuranceRequired
  {
    match ValidateRequiredFields(st)
    case Some(e) => Threw(e)
    case None =>
      Returned(LoanAgreement(st.client, st.amount, st.interestRate, st.termMonths,
                             st.agreementNumber, st.startDate, st.purpose, st.insuranceRequired))
  }

  /** The states a builder can be in: those its constructor and setters
      produce. */
  predicate Reachable(st: BuilderState) {
    st.amount >= 0.0 && 0.0 <= st.interestRate <= 100.0 && st.termMonths >= 0
  }

  lemma DefaultReachable(numberDate: Date, draw: int, today: Date)
    requires 0 <= draw < 9000
    ensures Reachable(DefaultState(numberDate, draw, today))
  {
  }

  lemma ThenKeepsReachable(chain: Chain, assignment: Assignment)
    requires Reachable(chain.state)
    ensures Reachable(chain.Then(assignment).state)
  {
  }

  /** The rate check of `validateRequiredFields` never fires: the rate
      starts at 0 and its setter stores only rates in [0, 100]. */
  lemma RateCheckUnreachable(st: BuilderState)
    requires Reachable(st)
    ensures ValidateRequiredFields(st) != Some(IllegalStateException(RATE_NOT_SET))
  {
  }

  /** From a reachable state, `build` succeeds exactly when the client, the
      amount and the term have been set. */
  lemma BuildSucceedsIff(st: BuilderState)
    requires Reachable(st)
    ensures Built(st).Returned? <==> st.client != null && st.amount > 0.0 && st.termMonths > 0
  {
  }

  /** A new builder refuses to build until a client is set, and shows the
      defaults of its optional fields. */
  lemma FreshBuilder(numberDate: Date, draw: int, today: Date)
    requires 0 <= draw < 9000
    ensures var st := DefaultState(numberDate, draw, today);
      && st.purpose == "General purpose" && !st.insuranceRequired
      && st.agreementNumber == AgreementNumber(numberDate, draw) && st.startDate == today
      && Built(st) == Threw(IllegalStateException(CLIENT_NOT_SET))
  {
  }

  /** Never calling `setInterestRate` still builds, with rate 0. */
  lemma BuildWithoutRate(numberDate: Date, draw: int, today: Date, client: Model.Client, amount: real, term: Int32)
    requires 0 <= draw < 9000 && amount > 0.0 && term > 0
    ensures var r := Start(DefaultState(numberDate, draw, today))
                .Then(AssignClient(client)).Then(AssignAmount(amount)).Then(AssignTermMonths(term)).Build();
      r.Returned? && r.value.interestRate == 0.0 && MonthlyPayment(r.value) == None
  {
  }

  // ----- the builder object -----

  class LoanAgreementBuilder {
    var client: Model.Client?
    var amount: real
    var interestRate: real
    var termMonths: Int32
    var agreementNumber: string
    var startDate: Date
    var purpose: string
    var insuranceRequired: bool

    function State(): BuilderState
      reads this
    {
      BuilderState(client, amount, interestRate, termMonths, agreementNumber, startDate, purpose, insuranceRequired)
    }

    constructor (numberDate: Date, draw: int, today: Date)
      requires 0 <= draw < 9000
      ensures State() == DefaultState(numberDate, draw, today)
    {
      client := null;
      amount := 0.0;
      interestRate := 0.0;
      termMonths := 0;
      agreementNumber := AgreementNumber(numberDate, draw);
      startDate := today;
      purpose := DEFAULT_PURPOSE;
      insuranceRequired := false;
    }

    method SetClient(client: Model.Client?) returns (c: Completion)
      modifies this
      ensures Chain(State(), c.Raising()) == Start(old(State())).Then(AssignClient(client))
    {
      if client == null {
        return Raised(IllegalArgumentException(CLIENT_IS_NULL));
      }
      this.client := client;
      return Completed;
    }

    method SetAmount(amount: real) returns (c: Completion)
      modifies this
      ensures Chain(State(), c.Raising()) == Start(old(State())).Then(AssignAmount(amount))
    {
      if amount <= 0.0 {
        return Raised(IllegalArgumentException(AMOUNT_NOT_POSITIVE));
      }
      this.amount := amount;
      return Completed;
    }

    method SetInterestRate(interestRate: real) returns (c: Completion)
      modifies this
      ensures Chain(State(), c.Raising()) == Start(old(State())).Then(AssignInterestRate(interestRate))
    {
      if interestRate < 0.0 || interestRate > 100.0 {
        return Raised(IllegalArgumentException(RATE_OUT_OF_RANGE));
      }
      this.interestRate := interestRate;
      return Completed;
    }

    method SetTermMonths(termMonths: Int32) returns (c: Completion)
      modifies this
      ensures Chain(State(), c.Raising()) == Start(old(State())).Then(AssignTermMonths(termMonths))
    {
      if termMonths <= 0 {
        return Raised(IllegalArgumentException(TERM_NOT_POSITIVE));
      }
      this.termMonths := termMonths;
      return Completed;
    }

    method SetAgreementNumber(agreementNumber: string)
      modifies this
      ensures Start(State()) == Start(old(State())).Then(AssignAgreementNumber(agreementNumber))
    {
      this.agreementNumber := agreementNumber;
    }

    method SetStartDate(startDate: Date)
      modifies this
      ensures Start(State()) == Start(old(State())).Then(AssignStartDate(startDate))
    {
      this.startDate := startDate;
    }

    method SetPurpose(purpose: string)
      modifies this
      ensures Start(State()) == Start(old(State())).Then(AssignPurpose(purpose))
    {
      this.purpose := purpose;
    }

    method SetInsuranceRequired(insuranceRequired: bool)
      modifies this
      ensures Start(State()) == Start(old(State())).Then(AssignInsuranceRequired(insuranceRequired))
    {
      this.insuranceRequired := insuranceRequired;
    }

    /** Validates and copies; the builder itself is left as it was, so a
      second build gives an equal agreement. */
    method Build() returns (r: Result<LoanAgreement>)
      ensures r == Built(State())
    {
      var missing := ValidateRequiredFields(State());
      if missing != None {
        return Threw(missing.value);
      }
      return Returned(LoanAgreement(client, amount, interestRate, termMonths,
                                    agreementNumber, startDate, purpose, insuranceRequired));
    }
  }

  /** Building twice from one builder gives the same agreement, with the same
      agreement number, or the same failure. */
  method BuildTwice(builder: LoanAgreementBuilder) returns (first: Result<LoanAgreement>, second: Result<LoanAgreement>)
    ensures first == second
    ensures first.Returned? ==> first.value.agreementNumber == builder.agreementNumber
  {
    first := builder.Build();
    second := builder.Build();
  }

  // ----- the director -----

  /** The four fixed presets of the director. */
  datatype Preset = Standard | Mortgage | Car | Business {

    function Rate(): real {
      match this
      case Standard => 7.5
      case Mortgage => 6.8
      case Car => 8.5
      case Business => 9.0
    }

    function Term(): Int32 {
      match this
      case Standard => 60
      case Mortgage => 360
      case Car => 60
      case Business => 120
    }

    function Purpose(): string {
      match this
      case Standard => "Personal loan"
      case Mortgage => "Real Estate Purchase"
      case Car => "Vehicle Purchase"
      case Business => "Business Development"
    }

    function Insurance(): bool {
      match this
      case Standard => false
      case Mortgage => true
      case Car => true
      case Business => false
    }
  }

  /** The setter chain of a preset: client, amount, rate, term, purpose,
      insurance. */
  function PresetChain(st: BuilderState, preset: Preset, client: Model.Client?, amount: real): Chain {
    Start(st).Then(AssignClient(client)).Then(AssignAmount(amount))
      .Then(AssignInterestRate(preset.Rate())).Then(AssignTermMonths(preset.Term()))
      .Then(AssignPurpose(preset.Purpose())).Then(AssignInsuranceRequired(preset.Insurance()))
  }

  /** The setter chain of `constructCustomLoan`: no insurance step. */
  function CustomChain(st: BuilderState, client: Model.Client?, amount: real, rate: real, term: Int32, purpose: string): Chain {
    Start(st).Then(AssignClient(client)).Then(AssignAmount(amount))
      .Then(AssignInterestRate(rate)).Then(AssignTermMonths(term)).Then(AssignPurpose(purpose))
  }

  /** A preset builds exactly when the client is given and the amount is
      positive, and then with the preset's own terms; the agreement number
      and start date are the builder's, untouched. */
  lemma PresetTerms(st: BuilderState, preset: Preset, client: Model.Client?, amount: real)
    ensures var r := PresetChain(st, preset, client, amount).Build();
      && (r.Returned? <==> client != null && amount > 0.0)
      && (r.Returned? ==>
            && r.value.client == client && r.value.amount == amount
            && r.value.interestRate == preset.Rate() && r.value.termMonths == preset.Term()
            && r.value.purpose == preset.Purpose() && r.value.insuranceRequired == preset.Insurance()
            && r.value.agreementNumber == st.agreementNumber && r.value.startDate == st.startDate)
    ensures preset == Standard ==> (preset.Rate(), preset.Term(), preset.Purpose(), preset.Insurance()) == (7.5, 60, "Personal loan", false)
    ensures preset == Mortgage ==> (preset.Rate(), preset.Term(), preset.Purpose(), preset.Insurance()) == (6.8, 360, "Real Estate Purchase", true)
    ensures preset == Car ==> (preset.Rate(), preset.Term(), preset.Purpose(), preset.Insurance()) == (8.5, 60, "Vehicle Purchase", true)
    ensures preset == Business ==> (preset.Rate(), preset.Term(), preset.Purpose(), preset.Insurance()) == (9.0, 120, "Business Development", false)
  {
  }

  /** The presets add no validation of their own: a null client or a bad
      amount raises the builder's IllegalArgumentException, and a bad amount
      after a good client leaves the client assigned. */
  lemma PresetFailures(st: BuilderState, preset: Preset, client: Model.Client?, amount: real)
    ensures client == null ==>
      PresetChain(st, preset, client, amount) == Chain(st, Some(IllegalArgumentException(CLIENT_IS_NULL)))
    ensures client != null && amount <= 0.0 ==>
      PresetChain(st, preset, client, amount) == Chain(st.(client := client), Some(IllegalArgumentException(AMOUNT_NOT_POSITIVE)))
  {
  }

  /** The custom preset leaves insurance, agreement number and start date as
      the reused builder last had them, and fails exactly as its setters do. */
  lemma CustomCarriesOver(st: BuilderState, client: Model.Client?, amount: real, rate: real, term: Int32, purpose: string)
    ensures var c := CustomChain(st, client, amount, rate, term, purpose);
      && c.state.insuranceRequired == st.insuranceRequired
      && c.state.agreementNumber == st.agreementNumber
      && c.state.startDate == st.startDate
    ensures var r := CustomChain(st, client, amount, rate, term, purpose).Build();
      && (r.Returned? <==> client != null && amount > 0.0 && 0.0 <= rate <= 100.0 && term > 0)
      && (r.Returned? ==>
            && r.value.interestRate == rate && r.value.termMonths == term && r.value.purpose == purpose
            && r.value.insuranceRequired == st.insuranceRequired)
  {
  }

  /** One director, one builder: a mortgage followed by a custom loan gives a
      custom loan that requires insurance, and both agreements carry the same
      number and start date. */
  lemma MortgageThenCustom(st: BuilderState, client: Model.Client, amount: real, rate: real, term: Int32, purpose: string)
    requires amount > 0.0 && 0.0 <= rate <= 100.0 && term > 0
    ensures var mortgage := PresetChain(st, Mortgage, client, amount);
      var custom := CustomChain(mortgage.state, client, amount, rate, term, purpose);
      && mortgage.Build().Returned? && custom.Build().Returned?
      && custom.Build().value.insuranceRequired
      && custom.Build().value.agreementNumber == mortgage.Build().value.agreementNumber
      && custom.Build().value.startDate == mortgage.Build().value.startDate
  {
    PresetTerms(st, Mortgage, client, amount);
    var mortgage := PresetChain(st, Mortgage, client, amount);
    CustomCarriesOver(mortgage.state, client, amount, rate, term, purpose);
  }

  class LoanAgreementDirector {
    var builder: LoanAgreementBuilder

    constructor (builder: LoanAgreementBuilder)
      ensures this.builder == builder
    {
      this.builder := builder;
    }

    /** Replaces the builder every later construction uses. */
    method SetBuilder(builder: LoanAgreementBuilder)
      modifies this
      ensures this.builder == builder
    {
      this.builder := builder;
    }

    /** Runs one preset's setter chain on the stored builder and builds. */
    method ConstructPreset(preset: Preset, client: Model.Client?, amount: real) returns (r: Result<LoanAgreement>)
      modifies builder
      ensures builder.State() == PresetChain(old(builder.State()), preset, client, amount).state
      ensures r == PresetChain(old(builder.State()), preset, client, amount).Build()
    {
      var c := builder.SetClient(client);
      if c.Raised? {
        return Threw(c.error);
      }
      c := builder.SetAmount(amount);
      if c.Raised? {
        return Threw(c.error);
      }
      // A preset's rate and term are always in range: these two never throw.
      c := builder.SetInterestRate(preset.Rate());
      c := builder.SetTermMonths(preset.Term());
      builder.SetPurpose(preset.Purpose());
      builder.SetInsuranceRequired(preset.Insurance());
      r := builder.Build();
    }

    method ConstructStandardLoan(client: Model.Client?, amount: real) returns (r: Result<LoanAgreement>)
      modifies builder
      ensures builder.State() == PresetChain(old(builder.State()), Standard, client, amount).state
      ensures r == PresetChain(old(builder.State()), Standard, client, amount).Build()
    {
      r := ConstructPreset(Standard, client, amount);
    }

    method ConstructMortgageLoan(client: Model.Client?, amount: real) returns (r: Result<LoanAgreement>)
      modifies builder
      ensures builder.State() == PresetChain(old(builder.State()), Mortgage, client, amount).state
      ensures r == PresetChain(old(builder.State()), Mortgage, client, amount).Build()
    {
      r := ConstructPreset(Mortgage, client, amount);
    }

    method ConstructCarLoan(client: Model.Client?, amount: real) returns (r: Result<LoanAgreement>)
      modifies builder
      ensures builder.State() == PresetChain(old(builder.State()), Car, client, amount).state
      ensures r == PresetChain(old(builder.State()), Car, client, amount).Build()
    {
      r := ConstructPreset(Car, client, amount);
    }

    method ConstructBusinessLoan(client: Model.Client?, amount: real) returns (r: Result<LoanAgreement>)
      modifies builder
      ensures builder.State() == PresetChain(old(builder.State()), Business, client, amount).state
      ensures r == PresetChain(old(builder.State()), Business, client, amount).Build()
    {
      r := ConstructPreset(Business, client, amount);
    }

    method ConstructCustomLoan(client: Model.Client?, amount: real, interestRate: real, termMonths: Int32, purpose: string)
      returns (r: Result<LoanAgreement>)
      modifies builder
      ensures builder.State() == CustomChain(old(builder.State()), client, amount, interestRate, termMonths, purpose).state
      ensures r == CustomChain(old(builder.State()), client, amount, interestRate, termMonths, purpose).Build()
    {
      var c := builder.SetClient(client);
      if c.Raised? {
        return Threw(c.error);
      }
      c := builder.SetAmount(amount);
      if c.Raised? {
        return Threw(c.error);
      }
      c := builder.SetInterestRate(interestRate);
      if c.Raised? {
        return Threw(c.error);
      }
      c := builder.SetTermMonths(termMonths);
      if c.Raised? {
        return Threw(c.error);
      }
      builder.SetPurpose(purpose);
      r := builder.Build();
    }
  }
}
