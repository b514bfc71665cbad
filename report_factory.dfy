/** Role-based report dispatch (`factory.ReportFactory`). The creators and
    reports are tags; their printed bodies are not modelled. A Java `null`
    role is `None`. */
module ReportFactory {
  import opened Exceptions
  import opened Strings

  /** The three kinds of report. */
  datatype Report = ClientReport | BankReport | AuditReport

  /** The three creators; each makes its own kind of report. */
  datatype ReportCreator = ClientReportCreator | BankReportCreator | AuditReportCreator {

    function CreateReport(): Report {
      match this
      case ClientReportCreator => ClientReport
      case BankReportCreator => BankReport
      case AuditReportCreator => AuditReport
    }
  }

  const ROLE_MISSING := "User role cannot be null or empty"

  function UnknownRole(role: string): string {
    "Unknown user role: " + role + ". Supported roles: client, bank, audit"
  }

  /** The three role names, in lower case, that the switch accepts. */
  predicate KnownRole(lowered: string) {
    lowered == "client" || lowered == "bank" || lowered == "audit"
  }

  /** `getReportCreator(userRole)`: a missing or blank role is refused;
      otherwise the lower-cased role (not trimmed) picks the creator. */
  function GetReportCreator(role: Option<string>): (r: Result<ReportCreator>)
    ensures role == None ==> r == Threw(IllegalArgumentException(ROLE_MISSING))
    ensures r.Threw? ==> r.error.IllegalArgumentException?
    ensures r.Returned? ==> role != None && KnownRole(ToLowerCase(role.value))
  {
    if role == None || Trim(role.value) == [] then Threw(IllegalArgumentException(ROLE_MISSING))
    else
      var lowered := ToLowerCase(role.value);
      if lowered == "client" then Returned(ClientReportCreator)
      else if lowered == "bank" then Returned(BankReportCreator)
      else if lowered == "audit" then Returned(AuditReportCreator)
      else Threw(IllegalArgumentException(UnknownRole(role.value)))
  }

  /** `createReport(userRole)`: the chosen creator's report, or the same
      failure as `getReportCreator`. */
  function CreateReport(role: Option<string>): (r: Result<Report>)
    ensures r.Returned? <==> GetReportCreator(role).Returned?
    ensures r.Returned? ==> r.value == GetReportCreator(role).value.CreateReport()
    ensures r.Threw? ==> r.error == GetReportCreator(role).error
  {
    var creator :- GetReportCreator(role);
    Returned(creator.CreateReport())
  }

  /** A role is accepted exactly when its lower-case form is one of the three
      names, and then the name decides the creator. Every refusal is an
      IllegalArgumentException. */
  lemma RoleAcceptedIff(role: string)
    ensures GetReportCreator(Some(role)).Returned? <==> KnownRole(ToLowerCase(role))
    ensures ToLowerCase(role) == "client" ==> GetReportCreator(Some(role)) == Returned(ClientReportCreator)
    ensures ToLowerCase(role) == "bank" ==> GetReportCreator(Some(role)) == Returned(BankReportCreator)
    ensures ToLowerCase(role) == "audit" ==> GetReportCreator(Some(role)) == Returned(AuditReportCreator)
    ensures GetReportCreator(Some(role)).Threw? ==> GetReportCreator(Some(role)).error.IllegalArgumentException?
  {
    if KnownRole(ToLowerCase(role)) {
      assert !IsTrimmable(ToLowerCase(role)[0]);
      assert !IsTrimmable(role[0]);
      TrimEmptyIffBlank(role);
    }
  }

  /** A missing role and a blank one are refused before any matching. */
  lemma MissingOrBlankRole(role: string)
    requires IsBlank(role)
    ensures GetReportCreator(None) == Threw(IllegalArgumentException(ROLE_MISSING))
    ensures GetReportCreator(Some(role)) == Threw(IllegalArgumentException(ROLE_MISSING))
  {
    TrimEmptyIffBlank(role);
  }

  /** Matching ignores case: "Client" and "CLIENT" both pick the client
      creator. */
  lemma CaseInsensitive()
    ensures GetReportCreator(Some("Client")) == Returned(ClientReportCreator)
    ensures GetReportCreator(Some("CLIENT")) == Returned(ClientReportCreator)
    ensures CreateReport(Some("Audit")) == Returned(AuditReport)
  {
    assert ToLowerCase("Client") == "client";
    assert ToLowerCase("CLIENT") == "client";
    assert ToLowerCase("Audit") == "audit";
    RoleAcceptedIff("Client");
    RoleAcceptedIff("CLIENT");
    RoleAcceptedIff("Audit");
  }

  /** The role is not trimmed before matching: " bank " passes the blank
      check and is then refused as unknown. */
  lemma PaddedRoleRejected()
    ensures GetReportCreator(Some(" bank ")) == Threw(IllegalArgumentException(UnknownRole(" bank ")))
  {
    var role := " bank ";
    assert !IsTrimmable(role[1]);
    TrimEmptyIffBlank(role);
    assert ToLowerCase(role)[0] == ' ';
  }
}
