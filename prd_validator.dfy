/** The decision logic of the PRD-ATT evidence validator: how per-check outcomes
    combine into one requirement status, how each check's result record is
    built, how records are routed into the four result buckets, and the two
    text builders of the report. The browser is replaced by a `Page` value that
    says what the browser would have observed. */
module PrdValidator {
  import opened Wrappers
  import opened Strings

  /** A requirement's status; `Name()` is the string the source stores. */
  datatype Status = Validated | Partial | Failed | Blocked {
    function Name(): string {
      match this
      case Validated => "validated"
      case Partial => "partial"
      case Failed => "failed"
      case Blocked => "blocked"
    }
  }

  /** A check record's `result` field, `'pass'` or `'fail'`. */
  datatype Outcome = Pass | Fail

  /** The maximum load time used when the configuration gives none (or gives 0, which JavaScript's `||` also replaces). */
  const DEFAULT_MAX_LOAD_TIME_MS := 2000

  /** The fixed locators of the compliance checks. */
  const PRIVACY_POLICY := "text=Política de Privacidade"
  const COOKIE_CONSENT := "[data-cookie-consent], .cookie-consent"
  const MEDICAL_DISCLAIMER := "text=Este conteúdo não substitui"
  const PROFESSIONAL_INFO := "[data-crm], .crm-info"
  const ETHICAL_GUIDELINES := ".ethical-guidelines, [data-ethics]"

  datatype ElementSpec = ElementSpec(selector: string, description: string, critical: bool)

  /** One step of a functional flow; only the action decides how it is
      dispatched. The selector is carried for the configuration's shape only:
      what the browser does with it is the page's `stepErrors`. */
  datatype FlowStep = FlowStep(action: string, selector: string)

  /** The page to time is carried for the configuration's shape only: the
      measured time is the page's `loadTimeMs`. */
  datatype PerformanceConfig = PerformanceConfig(url: Option<string>, maxLoadTime: Option<int>)

  datatype ComplianceConfig = ComplianceConfig(lgpd: bool, anvisaRdc657: bool, cfmEthics: bool)

  /** A requirement's test configuration; `None` stands for an absent key.
      The url is carried for the configuration's shape only: the page it
      opens is the `Page` value every check is given. */
  datatype TestConfig = TestConfig(
    url: Option<string>,
    elements: Option<seq<ElementSpec>>,
    flow: Option<seq<FlowStep>>,
    performance: Option<PerformanceConfig>,
    compliance: Option<ComplianceConfig>,
    complianceNotes: Option<seq<string>>,
    stakeholderImpact: Option<string>)

  /** What the browser observes on the page under test: the locators that match
      at least one element, the error message the browser raises on the i-th
      step of the flow (no entry: the step succeeds), and the measured load time. */
  datatype Page = Page(found: set<string>, stepErrors: map<nat, string>, loadTimeMs: int)

  /** The result records pushed by the checks, one constructor per record shape. */
  datatype TestResult =
    | ElementExistence(selector: string, expected: string, result: Outcome, critical: bool)
    | FlowPassed(result: Outcome, stepsCompleted: nat)
    | FlowFailed(result: Outcome, error: string)
    | Performance(loadTimeMs: int, maxAllowedMs: int, result: Outcome, passed: bool)
    | LgpdCompliance(privacyPolicy: bool, cookieConsent: bool, result: Outcome, critical: bool)
    | AnvisaRdc657(medicalDisclaimers: bool, professionalCredentials: bool, result: Outcome, critical: bool)
    | CfmEthics(ethicalCompliance: bool, result: Outcome, critical: bool)
  {
    /** The record's `test` field. */
    function Test(): string {
      match this
      case ElementExistence(_, _, _, _) => "element_existence"
      case FlowPassed(_, _) => "functional_flow"
      case FlowFailed(_, _) => "functional_flow"
      case Performance(_, _, _, _) => "performance"
      case LgpdCompliance(_, _, _, _) => "lgpd_compliance"
      case AnvisaRdc657(_, _, _, _) => "anvisa_rdc657"
      case CfmEthics(_, _, _) => "cfm_ethics"
    }

    /** Truthiness of the record's `critical` field (absent on flow and performance records). */
    predicate IsCritical() {
      match this
      case ElementExistence(_, _, _, c) => c
      case LgpdCompliance(_, _, _, c) => c
      case AnvisaRdc657(_, _, _, c) => c
      case CfmEthics(_, _, c) => c
      case _ => false
    }
  }

  datatype ValidationResult = ValidationResult(
    status: Status, results: seq<TestResult>, compliance: seq<string>, stakeholderImpact: string)

  /** An evidence record as stored in the buckets; `None` stands for an absent field. */
  datatype Evidence = Evidence(
    id: string,
    description: string,
    timestamp: string,
    status: Status,
    evidenceFiles: seq<string>,
    testResults: Option<seq<TestResult>>,
    complianceNotes: Option<seq<string>>,
    stakeholderImpact: Option<string>,
    error: Option<string>)

  function PassOrFail(ok: bool): (r: Outcome)
    ensures r.Pass? <==> ok
  {
    if ok then Pass else Fail
  }

  /** JavaScript's `s || d` on a possibly absent string: absent and "" both give `d`. */
  function StringOr(s: Option<string>, d: string): (r: string)
    ensures s.Some? && s.value != "" ==> r == s.value
    ensures s.None? || s.value == "" ==> r == d
  {
    if s.Some? && s.value != "" then s.value else d
  }

  // ---------------------------------------------------------------------------
  // Single checks
  // ---------------------------------------------------------------------------

  /** The element-existence record for one element. */
  function ElementResult(page: Page, e: ElementSpec): (r: TestResult)
    ensures r.ElementExistence? && r.selector == e.selector && r.expected == e.description
    ensures r.critical == e.critical
    ensures r.result == Pass <==> e.selector in page.found
  {
    ElementExistence(e.selector, e.description, PassOrFail(e.selector in page.found), e.critical)
  }

  /** `executeFlowStep`: the error a step raises, or `None` when it completes.
      The four known actions hand the step to the browser, any other action
      fails with `Unknown flow action: <action>` without touching the page. */
  function ExecuteFlowStep(page: Page, index: nat, step: FlowStep): (r: Option<string>)
    ensures step.action !in {"click", "fill", "wait", "navigate"} ==>
              r == Some("Unknown flow action: " + step.action)
    ensures step.action in {"click", "fill", "wait", "navigate"} ==>
              (r.Some? <==> index in page.stepErrors) &&
              (r.Some? ==> r.value == page.stepErrors[index])
  {
    match step.action
    case "click" => BrowserStep(page, index)
    case "fill" => BrowserStep(page, index)
    case "wait" => BrowserStep(page, index)
    case "navigate" => BrowserStep(page, index)
    case _ => Some("Unknown flow action: " + step.action)
  }

  function BrowserStep(page: Page, index: nat): Option<string> {
    if index in page.stepErrors then Some(page.stepErrors[index]) else None
  }

  /** `config.maxLoadTime || 2000`. */
  function MaxLoadTime(config: PerformanceConfig): int {
    if config.maxLoadTime.Some? && config.maxLoadTime.value != 0 then config.maxLoadTime.value
    else DEFAULT_MAX_LOAD_TIME_MS
  }

  /** `validatePerformance`: passes exactly when the load time is within the allowed maximum. */
  function ValidatePerformance(page: Page, config: PerformanceConfig): (r: TestResult)
    ensures r.Performance? && r.loadTimeMs == page.loadTimeMs
    ensures config.maxLoadTime.Some? && config.maxLoadTime.value != 0 ==>
              r.maxAllowedMs == config.maxLoadTime.value
    ensures config.maxLoadTime.None? || config.maxLoadTime.value == 0 ==>
              r.maxAllowedMs == DEFAULT_MAX_LOAD_TIME_MS
    ensures r.passed <==> page.loadTimeMs <= r.maxAllowedMs
    ensures r.result == Pass <==> r.passed
    ensures r.result == Fail <==> !r.passed
  {
    var maxLoad := MaxLoadTime(config);
    Performance(page.loadTimeMs, maxLoad, PassOrFail(page.loadTimeMs <= maxLoad), page.loadTimeMs <= maxLoad)
  }

  /** The LGPD record: whether the privacy policy and the cookie consent are
      on the page; it passes exactly when both are. */
  function LgpdResult(page: Page): (r: TestResult)
    ensures r.LgpdCompliance? && r.critical
    ensures r.privacyPolicy <==> PRIVACY_POLICY in page.found
    ensures r.cookieConsent <==> COOKIE_CONSENT in page.found
    ensures r.result == Pass <==> r.privacyPolicy && r.cookieConsent
  {
    var privacy := PRIVACY_POLICY in page.found;
    var cookies := COOKIE_CONSENT in page.found;
    LgpdCompliance(privacy, cookies, PassOrFail(privacy && cookies), true)
  }

  /** The ANVISA RDC 657 record: whether the medical disclaimer and the
      professional credentials are on the page; it passes exactly when both are. */
  function AnvisaResult(page: Page): (r: TestResult)
    ensures r.AnvisaRdc657? && r.critical
    ensures r.medicalDisclaimers <==> MEDICAL_DISCLAIMER in page.found
    ensures r.professionalCredentials <==> PROFESSIONAL_INFO in page.found
    ensures r.result == Pass <==> r.medicalDisclaimers && r.professionalCredentials
  {
    var disclaimers := MEDICAL_DISCLAIMER in page.found;
    var credentials := PROFESSIONAL_INFO in page.found;
    AnvisaRdc657(disclaimers, credentials, PassOrFail(disclaimers && credentials), true)
  }

  /** The CFM ethics record: whether the ethical guidelines are on the page;
      it passes exactly when they are. */
  function CfmResult(page: Page): (r: TestResult)
    ensures r.CfmEthics? && r.critical
    ensures r.ethicalCompliance <==> ETHICAL_GUIDELINES in page.found
    ensures r.result == Pass <==> r.ethicalCompliance
  {
    var ethics := ETHICAL_GUIDELINES in page.found;
    CfmEthics(ethics, PassOrFail(ethics), true)
  }

  /** How many compliance records a configuration asks for. */
  function ComplianceCount(config: ComplianceConfig): nat {
    (if config.lgpd then 1 else 0) + (if config.anvisaRdc657 then 1 else 0) + (if config.cfmEthics then 1 else 0)
  }

  /** The position of a compliance record in the fixed order lgpd, anvisa, cfm. */
  function ComplianceRank(r: TestResult): nat {
    match r
    case LgpdCompliance(_, _, _, _) => 0
    case AnvisaRdc657(_, _, _, _) => 1
    case CfmEthics(_, _, _) => 2
    case _ => 3
  }

  /** Some enabled compliance rule is not met by the page: LGPD needs both the
      privacy policy and the cookie consent, ANVISA both the disclaimer and the
      professional credentials, CFM the ethical guidelines. */
  predicate ComplianceFails(page: Page, config: ComplianceConfig) {
    || (config.lgpd && !(PRIVACY_POLICY in page.found && COOKIE_CONSENT in page.found))
    || (config.anvisaRdc657 && !(MEDICAL_DISCLAIMER in page.found && PROFESSIONAL_INFO in page.found))
    || (config.cfmEthics && ETHICAL_GUIDELINES !in page.found)
  }

  /** `validateCompliance`: one record per enabled flag; some critical record
      fails exactly when some enabled rule is not met. */
  function ValidateCompliance(page: Page, config: ComplianceConfig): (r: seq<TestResult>)
    ensures |r| == ComplianceCount(config)
    ensures AnyCriticalFailure(r) <==> ComplianceFails(page, config)
    ensures forall i :: 0 <= i < |r| ==>
              && (r[i].LgpdCompliance? ==> r[i] == LgpdResult(page))
              && (r[i].AnvisaRdc657? ==> r[i] == AnvisaResult(page))
              && (r[i].CfmEthics? ==> r[i] == CfmResult(page))
  {
    var lgpd := if config.lgpd then [LgpdResult(page)] else [];
    var anvisa := if config.anvisaRdc657 then [AnvisaResult(page)] else [];
    var cfm := if config.cfmEthics then [CfmResult(page)] else [];
    ComplianceRecordsFacts(page, config, lgpd, anvisa, cfm);
    ComplianceRecordsExact(page, config, lgpd, anvisa, cfm);
    lgpd + anvisa + cfm
  }

  /** Each compliance record is its rule's record for the page. */
  lemma ComplianceRecordsExact(page: Page, config: ComplianceConfig,
                               lgpd: seq<TestResult>, anvisa: seq<TestResult>, cfm: seq<TestResult>)
    requires lgpd == if config.lgpd then [LgpdResult(page)] else []
    requires anvisa == if config.anvisaRdc657 then [AnvisaResult(page)] else []
    requires cfm == if config.cfmEthics then [CfmResult(page)] else []
    ensures var r := lgpd + anvisa + cfm;
            forall i :: 0 <= i < |r| ==>
              && (r[i].LgpdCompliance? ==> r[i] == LgpdResult(page))
              && (r[i].AnvisaRdc657? ==> r[i] == AnvisaResult(page))
              && (r[i].CfmEthics? ==> r[i] == CfmResult(page))
  {
    var r := lgpd + anvisa + cfm;
    forall i | 0 <= i < |r|
      ensures && (r[i].LgpdCompliance? ==> r[i] == LgpdResult(page))
              && (r[i].AnvisaRdc657? ==> r[i] == AnvisaResult(page))
              && (r[i].CfmEthics? ==> r[i] == CfmResult(page))
    {
      if i < |lgpd| {
        assert r[i] == lgpd[i];
      } else if i < |lgpd| + |anvisa| {
        assert r[i] == anvisa[i - |lgpd|];
      } else {
        assert r[i] == cfm[i - |lgpd| - |anvisa|];
      }
    }
  }

  /** The compliance records are all critical, come in the order lgpd, anvisa,
      cfm, one for each enabled flag and none for a disabled one, and each is a
      pass or a fail. */
  lemma ValidateComplianceShape(page: Page, config: ComplianceConfig)
    ensures var r := ValidateCompliance(page, config);
      && (forall i :: 0 <= i < |r| ==> r[i].IsCritical() && ComplianceRank(r[i]) < 3)
      && (forall i, j :: 0 <= i < j < |r| ==> ComplianceRank(r[i]) < ComplianceRank(r[j]))
      && (config.lgpd <==> exists i :: 0 <= i < |r| && r[i].LgpdCompliance?)
      && (config.anvisaRdc657 <==> exists i :: 0 <= i < |r| && r[i].AnvisaRdc657?)
      && (config.cfmEthics <==> exists i :: 0 <= i < |r| && r[i].CfmEthics?)
  {
    var lgpd := if config.lgpd then [LgpdResult(page)] else [];
    var anvisa := if config.anvisaRdc657 then [AnvisaResult(page)] else [];
    var cfm := if config.cfmEthics then [CfmResult(page)] else [];
    ComplianceRecordsFacts(page, config, lgpd, anvisa, cfm);
  }

  lemma ComplianceRecordsFacts(page: Page, config: ComplianceConfig,
                               lgpd: seq<TestResult>, anvisa: seq<TestResult>, cfm: seq<TestResult>)
    requires lgpd == if config.lgpd then [LgpdResult(page)] else []
    requires anvisa == if config.anvisaRdc657 then [AnvisaResult(page)] else []
    requires cfm == if config.cfmEthics then [CfmResult(page)] else []
    ensures var r := lgpd + anvisa + cfm;
      && |r| == ComplianceCount(config)
      && (forall i :: 0 <= i < |r| ==> r[i].IsCritical() && ComplianceRank(r[i]) < 3)
      && (forall i, j :: 0 <= i < j < |r| ==> ComplianceRank(r[i]) < ComplianceRank(r[j]))
      && (config.lgpd <==> exists i :: 0 <= i < |r| && r[i].LgpdCompliance?)
      && (config.anvisaRdc657 <==> exists i :: 0 <= i < |r| && r[i].AnvisaRdc657?)
      && (config.cfmEthics <==> exists i :: 0 <= i < |r| && r[i].CfmEthics?)
      && (AnyCriticalFailure(r) <==> ComplianceFails(page, config))
  {
    var r := lgpd + anvisa + cfm;
    assert forall i :: 0 <= i < |r| ==> r[i] in lgpd || r[i] in anvisa || r[i] in cfm;
    if config.lgpd {
      assert r[0] == LgpdResult(page);
    }
    if config.anvisaRdc657 {
      assert r[|lgpd|] == AnvisaResult(page);
    }
    if config.cfmEthics {
      assert r[|lgpd| + |anvisa|] == CfmResult(page);
    }
  }

  predicate AnyCriticalFailure(rs: seq<TestResult>) {
    exists i :: 0 <= i < |rs| && rs[i].IsCritical() && rs[i].result == Fail
  }

  // ---------------------------------------------------------------------------
  // The whole run, stated declaratively
  // ---------------------------------------------------------------------------

  /** The first error raised by the flow from step `from` on (`None`: every step completes). */
  function FlowError(page: Page, steps: seq<FlowStep>, from: nat): Option<string>
    requires from <= |steps|
    decreases |steps| - from
  {
    if from == |steps| then None
    else match ExecuteFlowStep(page, from, steps[from])
      case Some(e) => Some(e)
      case None => FlowError(page, steps, from + 1)
  }

  /** The flow from step `from` on completes exactly when none of its steps raises an error. */
  lemma {:induction false} FlowErrorNone(page: Page, steps: seq<FlowStep>, from: nat)
    requires from <= |steps|
    ensures FlowError(page, steps, from).None? <==>
              forall k :: from <= k < |steps| ==> ExecuteFlowStep(page, k, steps[k]).None?
    decreases |steps| - from
  {
    if from < |steps| {
      FlowErrorNone(page, steps, from + 1);
    }
  }

  /** The single record of the functional-flow check. */
  function FlowResult(page: Page, steps: seq<FlowStep>): TestResult {
    match FlowError(page, steps, 0)
    case None => FlowPassed(Pass, |steps|)
    case Some(e) => FlowFailed(Fail, e)
  }

  function ElementResults(page: Page, elements: seq<ElementSpec>): (r: seq<TestResult>)
    ensures |r| == |elements|
    ensures forall i :: 0 <= i < |elements| ==> r[i] == ElementResult(page, elements[i])
  {
    seq(|elements|, i requires 0 <= i < |elements| => ElementResult(page, elements[i]))
  }

  function ElementPart(page: Page, config: TestConfig): (r: seq<TestResult>)
    ensures |r| == ElementCount(config)
  {
    if config.elements.Some? then ElementResults(page, config.elements.value) else []
  }

  function FlowPart(page: Page, config: TestConfig): (r: seq<TestResult>)
    ensures |r| == if config.flow.Some? then 1 else 0
  {
    if config.flow.Some? then [FlowResult(page, config.flow.value)] else []
  }

  function PerformancePart(page: Page, config: TestConfig): (r: seq<TestResult>)
    ensures |r| == if config.performance.Some? then 1 else 0
  {
    if config.performance.Some? then [ValidatePerformance(page, config.performance.value)] else []
  }

  function CompliancePart(page: Page, config: TestConfig): (r: seq<TestResult>)
    ensures |r| == if config.compliance.Some? then ComplianceCount(config.compliance.value) else 0
  {
    if config.compliance.Some? then ValidateCompliance(page, config.compliance.value) else []
  }

  /** Every record of a run, in the order the checks push them. */
  function ExpectedResults(page: Page, config: TestConfig): seq<TestResult> {
    ElementPart(page, config) + FlowPart(page, config) + PerformancePart(page, config) + CompliancePart(page, config)
  }

  predicate CriticalElementMissing(page: Page, config: TestConfig) {
    config.elements.Some? &&
    exists i :: 0 <= i < |config.elements.value| &&
      config.elements.value[i].critical && config.elements.value[i].selector !in page.found
  }

  predicate FlowBroken(page: Page, config: TestConfig) {
    config.flow.Some? &&
    exists i :: 0 <= i < |config.flow.value| && ExecuteFlowStep(page, i, config.flow.value[i]).Some?
  }

  predicate PerformanceMissed(page: Page, config: TestConfig) {
    config.performance.Some? && page.loadTimeMs > MaxLoadTime(config.performance.value)
  }

  predicate ComplianceViolated(page: Page, config: TestConfig) {
    config.compliance.Some? && ComplianceFails(page, config.compliance.value)
  }

  /** The status of a run: a missing critical element, a broken flow or a
      violated compliance rule make it `failed` whatever else happens; otherwise
      a missed load time makes it `partial`; otherwise it is `validated`. */
  function ExpectedStatus(page: Page, config: TestConfig): Status {
    if CriticalElementMissing(page, config) || FlowBroken(page, config) || ComplianceViolated(page, config) then Failed
    else if PerformanceMissed(page, config) then Partial
    else Validated
  }

  function ElementCount(config: TestConfig): nat {
    if config.elements.Some? then |config.elements.value| else 0
  }

  // ---------------------------------------------------------------------------
  // runValidationTests
  // ---------------------------------------------------------------------------

  /** Test 1 of `runValidationTests`: one element-existence record per element,
      in order; a missing critical element makes the status `failed`, a missing
      non-critical one leaves it `validated`. */
  method ElementTest(page: Page, config: TestConfig) returns (records: seq<TestResult>, status: Status)
    ensures records == ElementPart(page, config)
    ensures status == if CriticalElementMissing(page, config) then Failed else Validated
  {
    records := [];
    status := Validated;
    if config.elements.Some? {
      var elements := config.elements.value;
      var i := 0;
      while i < |elements|
        invariant 0 <= i <= |elements|
        invariant records == ElementResults(page, elements[..i])
        invariant status == if exists k :: 0 <= k < i && elements[k].critical && elements[k].selector !in page.found
                            then Failed else Validated
      {
        var present := elements[i].selector in page.found;
        records := records + [ElementExistence(elements[i].selector, elements[i].description,
                                               if present then Pass else Fail, elements[i].critical)];
        if !present && elements[i].critical {
          status := Failed;
        }
        i := i + 1;
      }
      assert elements[..i] == elements;
    }
  }

  /** Test 2: executes the flow's steps in order, stopping at the first one that
      raises an error; records one pass with the number of steps, or one fail
      with the error message, which also makes the status `failed`. */
  method FlowTest(page: Page, config: TestConfig, status: Status) returns (records: seq<TestResult>, status': Status)
    ensures records == FlowPart(page, config)
    ensures status' == if FlowBroken(page, config) then Failed else status
  {
    records, status' := [], status;
    if config.flow.Some? {
      var steps := config.flow.value;
      var flowError: Option<string> := None;
      var i := 0;
      while i < |steps| && flowError.None?
        invariant 0 <= i <= |steps|
        invariant FlowError(page, steps, 0) == if flowError.Some? then flowError else FlowError(page, steps, i)
      {
        flowError := ExecuteFlowStep(page, i, steps[i]);
        i := i + 1;
      }
      FlowErrorNone(page, steps, 0);
      if flowError.None? {
        records := [FlowPassed(Pass, |steps|)];
      } else {
        records := [FlowFailed(Fail, flowError.value)];
        status' := Failed;
      }
    }
  }

  /** Test 3: records the performance result; a missed load time turns
      `validated` into `partial` and any other status into `failed`. */
  method PerformanceTest(page: Page, config: TestConfig, status: Status) returns (records: seq<TestResult>, status': Status)
    ensures records == PerformancePart(page, config)
    ensures status' == if !PerformanceMissed(page, config) then status
                       else if status == Validated then Partial else Failed
  {
    records, status' := [], status;
    if config.performance.Some? {
      var performanceResult := ValidatePerformance(page, config.performance.value);
      records := [performanceResult];
      if !performanceResult.passed {
        status' := if status == Validated then Partial else Failed;
      }
    }
  }

  /** Test 4: records the compliance results; a failing critical one makes the status `failed`. */
  method ComplianceTest(page: Page, config: TestConfig, status: Status) returns (records: seq<TestResult>, status': Status)
    ensures records == CompliancePart(page, config)
    ensures status' == if ComplianceViolated(page, config) then Failed else status
  {
    records, status' := [], status;
    if config.compliance.Some? {
      records := ValidateCompliance(page, config.compliance.value);
      if AnyCriticalFailure(records) {
        status' := Failed;
      }
    }
  }

  /** `runValidationTests`: runs the four tests in order, pushing their records
      and updating the overall status as it goes. */
  method RunValidationTests(page: Page, config: TestConfig) returns (v: ValidationResult)
    ensures v.status == ExpectedStatus(page, config)
    ensures v.results == ExpectedResults(page, config)
    ensures |v.results| == ElementCount(config) + (if config.flow.Some? then 1 else 0)
                           + (if config.performance.Some? then 1 else 0)
                           + (if config.compliance.Some? then ComplianceCount(config.compliance.value) else 0)
    ensures v.compliance == (if config.complianceNotes.Some? then config.complianceNotes.value else [])
    ensures v.stakeholderImpact == StringOr(config.stakeholderImpact, "low")
  {
    var results: seq<TestResult> := [];
    var overallStatus := Validated;
    var records;
    records, overallStatus := ElementTest(page, config);
    results := results + records;
    records, overallStatus := FlowTest(page, config, overallStatus);
    results := results + records;
    records, overallStatus := PerformanceTest(page, config, overallStatus);
    results := results + records;
    records, overallStatus := ComplianceTest(page, config, overallStatus);
    results := results + records;
    var notes := if config.complianceNotes.Some? then config.complianceNotes.value else [];
    v := ValidationResult(overallStatus, results, notes, StringOr(config.stakeholderImpact, "low"));
  }

  // ---------------------------------------------------------------------------
  // Properties of a run
  // ---------------------------------------------------------------------------

  /** `partial` arises exactly when no hard check failed and the load time was missed. */
  lemma PartialMeansOnlyPerformanceMissed(page: Page, config: TestConfig)
    ensures ExpectedStatus(page, config) == Partial <==>
              !CriticalElementMissing(page, config) && !FlowBroken(page, config) &&
              !ComplianceViolated(page, config) && PerformanceMissed(page, config)
    ensures ExpectedStatus(page, config) in {Validated, Partial, Failed}
  {
  }

  /** A configuration without checks validates, and its result list is empty. */
  lemma NoChecksValidates(page: Page, config: TestConfig)
    requires config.elements.None? && config.flow.None? && config.performance.None? && config.compliance.None?
    ensures ExpectedStatus(page, config) == Validated && ExpectedResults(page, config) == []
  {
  }

  /** When every step of the flow completes, the run records exactly one
      `functional_flow` result, a pass whose `steps_completed` is the flow's length. */
  lemma {:induction false} FlowAllStepsPass(page: Page, config: TestConfig)
    requires config.flow.Some?
    requires forall k :: 0 <= k < |config.flow.value| ==> ExecuteFlowStep(page, k, config.flow.value[k]).None?
    ensures ExpectedResults(page, config)[ElementCount(config)] == FlowPassed(Pass, |config.flow.value|)
    ensures forall i :: 0 <= i < |ExpectedResults(page, config)| && i != ElementCount(config) ==>
              ExpectedResults(page, config)[i].Test() != "functional_flow"
  {
    FlowErrorNone(page, config.flow.value, 0);
    var rs := ExpectedResults(page, config);
    var n := ElementCount(config);
    var e, p, c := ElementPart(page, config), PerformancePart(page, config), CompliancePart(page, config);
    assert rs == e + [FlowResult(page, config.flow.value)] + p + c;
    if config.compliance.Some? {
      ValidateComplianceShape(page, config.compliance.value);
    }
    forall i | 0 <= i < |rs| && i != n ensures rs[i].Test() != "functional_flow" {
      if i < n {
        assert rs[i] == e[i];
        assert e[i] == ElementResult(page, config.elements.value[i]);
      } else if i - n - 1 < |p| {
        assert rs[i] == p[i - n - 1];
      } else {
        assert rs[i] == c[i - n - 1 - |p|];
        assert ComplianceRank(rs[i]) < 3;
      }
    }
  }

  /** A step that raises an error, an unknown action in particular, makes the
      flow record a failure with that step's message (when no earlier step
      failed) and the whole run `failed`. */
  lemma {:induction false} FlowErrorFails(page: Page, config: TestConfig, k: nat)
    requires config.flow.Some? && k < |config.flow.value|
    requires ExecuteFlowStep(page, k, config.flow.value[k]).Some?
    ensures ExpectedStatus(page, config) == Failed
    ensures ExpectedResults(page, config)[ElementCount(config)].FlowFailed?
    ensures (forall j :: 0 <= j < k ==> ExecuteFlowStep(page, j, config.flow.value[j]).None?) ==>
              ExpectedResults(page, config)[ElementCount(config)].error ==
              ExecuteFlowStep(page, k, config.flow.value[k]).value
  {
    var steps := config.flow.value;
    FlowErrorNone(page, steps, 0);
    if forall j :: 0 <= j < k ==> ExecuteFlowStep(page, j, steps[j]).None? {
      FlowErrorFrom(page, steps, 0, k);
    }
  }

  lemma {:induction false} FlowErrorFrom(page: Page, steps: seq<FlowStep>, from: nat, k: nat)
    requires from <= k < |steps|
    requires forall j :: from <= j < k ==> ExecuteFlowStep(page, j, steps[j]).None?
    requires ExecuteFlowStep(page, k, steps[k]).Some?
    ensures FlowError(page, steps, from) == ExecuteFlowStep(page, k, steps[k])
    decreases k - from
  {
    if from < k {
      FlowErrorFrom(page, steps, from + 1, k);
    }
  }

  /** An unknown action fails the run whatever the page does. */
  lemma UnknownActionFails(page: Page, config: TestConfig, k: nat)
    requires config.flow.Some? && k < |config.flow.value|
    requires config.flow.value[k].action !in {"click", "fill", "wait", "navigate"}
    ensures ExpectedStatus(page, config) == Failed
  {
    FlowErrorFails(page, config, k);
  }

  /** A non-critical element never influences the status: the run with it
      and the run without it end in the same status. */
  lemma NonCriticalElementIrrelevant(page: Page, config: TestConfig, k: nat)
    requires config.elements.Some? && k < |config.elements.value|
    requires !config.elements.value[k].critical
    ensures ExpectedStatus(page, config) ==
              ExpectedStatus(page, config.(elements := Some(config.elements.value[..k] + config.elements.value[k + 1..])))
  {
    var els := config.elements.value;
    var rest := els[..k] + els[k + 1..];
    var smaller := config.(elements := Some(rest));
    if CriticalElementMissing(page, config) {
      var i :| 0 <= i < |els| && els[i].critical && els[i].selector !in page.found;
      var j := if i < k then i else i - 1;
      assert rest[j] == els[i];
    }
    if CriticalElementMissing(page, smaller) {
      var j :| 0 <= j < |rest| && rest[j].critical && rest[j].selector !in page.found;
      var i := if j < k then j else j + 1;
      assert rest[j] == els[i];
    }
  }

  // ---------------------------------------------------------------------------
  // Report text
  // ---------------------------------------------------------------------------

  const NO_ITEMS := "*No items in this category*\n"

  const STEP_CRITICAL := "🚨 **CRITICAL**: Address failed requirements immediately"
  const STEP_URGENT := "⚠️ **URGENT**: Resolve blocked requirements"
  const STEP_PLAN := "📝 **PLAN**: Complete partial implementations"
  const STEP_CONTINUOUS := "🔄 **CONTINUOUS**: Re-run validation weekly during active development"
  const STEP_SEPARATOR := "\n- "

  /** The report block of one evidence record. An absent stakeholder impact
      prints as JavaScript's `undefined`; the test-results line is empty unless
      the record has test results, the error line unless its error message is
      non-empty. */
  function FormatItem(item: Evidence): string {
    HeadLine(item) + StatusLine(item) + EvidenceLine(item) + ImpactLine(item)
    + TestsText(item) + "\n" + ErrorText(item) + "\n"
  }

  /** A block starts with the heading naming the requirement and shows, line
      after line in this order, its status, evidence files and stakeholder
      impact, then the number of tests run when the record has test results,
      then the error message when it has a non-empty one (otherwise its last
      line is empty); nothing else is in the block. */
  lemma FormatItemShape(item: Evidence)
    ensures var r := FormatItem(item);
            var head := HEADING + item.id + ": " + item.description + "\n";
            && |r| > |head| && r[..|head|] == head && r[|r| - 1] == '\n'
            && Contains(r, STATUS_LABEL + item.status.Name() + "\n")
            && Contains(r, EVIDENCE_LABEL + Join(item.evidenceFiles, ", ") + "\n")
            && Contains(r, IMPACT_LABEL + (if item.stakeholderImpact.Some? then item.stakeholderImpact.value else "undefined") + "\n")
            && (item.testResults.Some? ==> Contains(r, TESTS_LABEL + NatToString(|item.testResults.value|) + " tests run"))
            && (item.error.Some? && item.error.value != "" ==> Contains(r, ERROR_LABEL + item.error.value))
            && (!(item.error.Some? && item.error.value != "") ==> r[|r| - 2] == '\n')
    ensures var r := FormatItem(item);
            var s := |HeadLine(item)|;
            var e := s + |StatusLine(item)|;
            var i := e + |EvidenceLine(item)|;
            var t := i + |ImpactLine(item)|;
            var n := t + |TestsText(item)|;
            && |r| == n + 1 + |ErrorText(item)| + 1
            && OccursAt(r, StatusLine(item), s)
            && OccursAt(r, EvidenceLine(item), e)
            && OccursAt(r, ImpactLine(item), i)
            && OccursAt(r, TestsText(item), t)
            && r[n] == '\n'
            && OccursAt(r, ErrorText(item), n + 1)
  {
    BlockShape(HeadLine(item), StatusLine(item), EvidenceLine(item), ImpactLine(item), TestsText(item), ErrorText(item));
  }

  /** Where each piece of a block lies. */
  lemma BlockShape(head: string, status: string, evidence: string, impact: string, tests: string, error: string)
    ensures var r := head + status + evidence + impact + tests + "\n" + error + "\n";
            && |r| > |head| && r[..|head|] == head && r[|r| - 1] == '\n'
            && Contains(r, status) && Contains(r, evidence) && Contains(r, impact)
            && Contains(r, tests) && Contains(r, error)
            && (error == "" ==> r[|r| - 2] == '\n')
    ensures var r := head + status + evidence + impact + tests + "\n" + error + "\n";
            var n := |head| + |status| + |evidence| + |impact| + |tests|;
            && |r| == n + 1 + |error| + 1
            && OccursAt(r, status, |head|)
            && OccursAt(r, evidence, |head| + |status|)
            && OccursAt(r, impact, |head| + |status| + |evidence|)
            && OccursAt(r, tests, |head| + |status| + |evidence| + |impact|)
            && r[n] == '\n'
            && OccursAt(r, error, n + 1)
  {
    var r1 := head + status;
    var r2 := r1 + evidence;
    var r3 := r2 + impact;
    var r4 := r3 + tests;
    var r5 := r4 + "\n";
    var r6 := r5 + error;
    var r := r6 + "\n";
    PrefixOfConcat(head, status);
    PrefixAppend(r1, head, evidence);
    PrefixAppend(r2, head, impact);
    PrefixAppend(r3, head, tests);
    PrefixAppend(r4, head, "\n");
    PrefixAppend(r5, head, error);
    PrefixAppend(r6, head, "\n");
    OccursAtEnd(head, status);
    OccursAtAppend(r1, status, |head|, evidence);
    OccursAtAppend(r2, status, |head|, impact);
    OccursAtAppend(r3, status, |head|, tests);
    OccursAtAppend(r4, status, |head|, "\n");
    OccursAtAppend(r5, status, |head|, error);
    OccursAtAppend(r6, status, |head|, "\n");
    OccursAtEnd(r1, evidence);
    OccursAtAppend(r2, evidence, |r1|, impact);
    OccursAtAppend(r3, evidence, |r1|, tests);
    OccursAtAppend(r4, evidence, |r1|, "\n");
    OccursAtAppend(r5, evidence, |r1|, error);
    OccursAtAppend(r6, evidence, |r1|, "\n");
    OccursAtEnd(r2, impact);
    OccursAtAppend(r3, impact, |r2|, tests);
    OccursAtAppend(r4, impact, |r2|, "\n");
    OccursAtAppend(r5, impact, |r2|, error);
    OccursAtAppend(r6, impact, |r2|, "\n");
    OccursAtEnd(r3, tests);
    OccursAtAppend(r4, tests, |r3|, "\n");
    OccursAtAppend(r5, tests, |r3|, error);
    OccursAtAppend(r6, tests, |r3|, "\n");
    OccursAtEnd(r5, error);
    OccursAtAppend(r6, error, |r5|, "\n");
    assert r5[|r4|] == '\n';
    assert r[|r4|] == r5[|r4|];
  }

  const HEADING := "#### "
  const STATUS_LABEL := "- **Status**: "
  const EVIDENCE_LABEL := "- **Evidence**: "
  const IMPACT_LABEL := "- **Stakeholder Impact**: "
  const TESTS_LABEL := "- **Test Results**: "
  const ERROR_LABEL := "- **Error**: "

  /** The heading line of a report block: the requirement's id and description. */
  function HeadLine(item: Evidence): string {
    HEADING + item.id + ": " + item.description + "\n"
  }

  function StatusLine(item: Evidence): string {
    STATUS_LABEL + item.status.Name() + "\n"
  }

  function EvidenceLine(item: Evidence): string {
    EVIDENCE_LABEL + Join(item.evidenceFiles, ", ") + "\n"
  }

  function ImpactLine(item: Evidence): string {
    IMPACT_LABEL + (if item.stakeholderImpact.Some? then item.stakeholderImpact.value else "undefined") + "\n"
  }

  /** The test count, or nothing when the record has no test results. */
  function TestsText(item: Evidence): string {
    if item.testResults.Some? then TESTS_LABEL + NatToString(|item.testResults.value|) + " tests run" else ""
  }

  /** The error text, empty unless the record carries a non-empty error. */
  function ErrorText(item: Evidence): string {
    if item.error.Some? && item.error.value != "" then ERROR_LABEL + item.error.value else ""
  }

  /** The blocks of a section, one per record, in order. */
  function Blocks(results: seq<Evidence>): (blocks: seq<string>)
    ensures |blocks| == |results|
    ensures forall i :: 0 <= i < |results| ==> blocks[i] == FormatItem(results[i])
  {
    seq(|results|, i requires 0 <= i < |results| => FormatItem(results[i]))
  }

  /** `formatResultsSection`: the placeholder line for an empty bucket, otherwise
      the records' blocks separated by blank lines. */
  function FormatResultsSection(results: seq<Evidence>): (r: string)
    ensures |results| == 0 <==> r == NO_ITEMS
  {
    if |results| == 0 then NO_ITEMS
    else
      JoinEnds(Blocks(results), "\n");
      Join(Blocks(results), "\n")
  }

  /** Every record's block appears in a non-empty section, in record order:
      block `i` starts at its offset, and block `i + 1` starts just after
      block `i` and one separator character (`FormatResultsSectionNewlines`
      says that character is a newline). */
  lemma FormatResultsSectionBlocks(results: seq<Evidence>)
    requires |results| > 0
    ensures forall i :: 0 <= i < |results| ==>
              OccursAt(FormatResultsSection(results), FormatItem(results[i]), JoinOffset(Blocks(results), "\n", i))
    ensures forall i :: 0 <= i < |results| - 1 ==>
              JoinOffset(Blocks(results), "\n", i + 1) ==
                JoinOffset(Blocks(results), "\n", i) + |FormatItem(results[i])| + 1
  {
    forall i | 0 <= i < |results|
      ensures OccursAt(FormatResultsSection(results), FormatItem(results[i]), JoinOffset(Blocks(results), "\n", i))
      ensures i < |results| - 1 ==>
                JoinOffset(Blocks(results), "\n", i + 1) ==
                  JoinOffset(Blocks(results), "\n", i) + |FormatItem(results[i])| + 1
    {
      JoinOccurs(Blocks(results), "\n", i);
    }
  }

  /** Between the blocks of a non-empty section there is exactly a newline:
      one follows every block but the last, and the section ends where the
      last block ends. */
  lemma FormatResultsSectionNewlines(results: seq<Evidence>)
    requires |results| > 0
    ensures forall i :: 0 <= i < |results| - 1 ==>
              JoinOffset(Blocks(results), "\n", i) + |FormatItem(results[i])| < |FormatResultsSection(results)| &&
              FormatResultsSection(results)[JoinOffset(Blocks(results), "\n", i) + |FormatItem(results[i])|] == '\n'
    ensures |FormatResultsSection(results)| ==
              JoinOffset(Blocks(results), "\n", |results| - 1) + |FormatItem(results[|results| - 1])|
  {
    var blocks := Blocks(results);
    assert FormatResultsSection(results) == Join(blocks, "\n");
    JoinSeparatorChars(blocks, "\n");
    JoinLength(blocks, "\n");
  }

  /** A non-empty section begins with the first record's block and ends with the last record's block. */
  lemma FormatResultsSectionEnds(results: seq<Evidence>)
    requires |results| > 0
    ensures var r := FormatResultsSection(results);
            var first := FormatItem(results[0]);
            var last := FormatItem(results[|results| - 1]);
            |first| <= |r| && r[..|first|] == first &&
            |last| <= |r| && r[|r| - |last|..] == last
  {
    JoinEnds(Blocks(results), "\n");
  }

  /** The "next steps" lines for given bucket emptiness: the failed, blocked and
      partial lines in that order, each present exactly when its bucket is
      non-empty, and always the continuous line last. */
  function NextSteps(anyFailed: bool, anyBlocked: bool, anyPartial: bool): (r: seq<string>)
    ensures |r| == 1 + (if anyFailed then 1 else 0) + (if anyBlocked then 1 else 0) + (if anyPartial then 1 else 0)
    ensures r[|r| - 1] == STEP_CONTINUOUS
    ensures STEP_CRITICAL in r <==> anyFailed
    ensures STEP_URGENT in r <==> anyBlocked
    ensures STEP_PLAN in r <==> anyPartial
    ensures forall i, j :: 0 <= i < j < |r| ==> StepRank(r[i]) < StepRank(r[j])
  {
    (if anyFailed then [STEP_CRITICAL] else [])
    + (if anyBlocked then [STEP_URGENT] else [])
    + (if anyPartial then [STEP_PLAN] else [])
    + [STEP_CONTINUOUS]
  }

  /** The position of a next-steps line in the order critical, urgent, plan, continuous. */
  function StepRank(line: string): nat {
    if line == STEP_CRITICAL then 0
    else if line == STEP_URGENT then 1
    else if line == STEP_PLAN then 2
    else 3
  }

  /** The joined next-steps text always ends with the continuous line. */
  lemma NextStepsText(anyFailed: bool, anyBlocked: bool, anyPartial: bool)
    ensures var text := Join(NextSteps(anyFailed, anyBlocked, anyPartial), STEP_SEPARATOR);
            |STEP_CONTINUOUS| <= |text| && text[|text| - |STEP_CONTINUOUS|..] == STEP_CONTINUOUS
  {
    JoinEndsWith(NextSteps(anyFailed, anyBlocked, anyPartial), STEP_SEPARATOR, STEP_CONTINUOUS);
  }

  /** When no bucket needs attention the joined next-steps text is exactly the continuous line. */
  lemma NextStepsTextAllClear()
    ensures Join(NextSteps(false, false, false), STEP_SEPARATOR) == STEP_CONTINUOUS
  {
    JoinSingle(NextSteps(false, false, false), STEP_SEPARATOR);
  }

  // ---------------------------------------------------------------------------
  // The validator object and its four buckets
  // ---------------------------------------------------------------------------

  class Validator {
    /** The run's timestamp, fixed at construction, used in evidence file names. */
    const timestamp: string
    var validated: seq<Evidence>
    var failed: seq<Evidence>
    var partial: seq<Evidence>
    var blocked: seq<Evidence>

    /** Every record sits in the bucket its status names; the blocked bucket holds every other status. */
    ghost predicate Valid()
      reads this
    {
      && (forall i :: 0 <= i < |validated| ==> validated[i].status == Validated)
      && (forall i :: 0 <= i < |failed| ==> failed[i].status == Failed)
      && (forall i :: 0 <= i < |partial| ==> partial[i].status == Partial)
      && (forall i :: 0 <= i < |blocked| ==> blocked[i].status !in {Validated, Failed, Partial})
    }

    /** The number of records over all buckets. */
    function Total(): nat
      reads this
    {
      |validated| + |failed| + |partial| + |blocked|
    }

    constructor (timestamp: string)
      ensures Valid()
      ensures this.timestamp == timestamp
      ensures validated == [] && failed == [] && partial == [] && blocked == []
    {
      this.timestamp := timestamp;
      validated, failed, partial, blocked := [], [], [], [];
    }

    /** `categorizeResult`: appends the record to the bucket of its status, to
        `blocked` for any other status, and to no other bucket. */
    method CategorizeResult(evidence: Evidence)
      requires Valid()
      modifies this
      ensures Valid()
      ensures validated == old(validated) + (if evidence.status == Validated then [evidence] else [])
      ensures failed == old(failed) + (if evidence.status == Failed then [evidence] else [])
      ensures partial == old(partial) + (if evidence.status == Partial then [evidence] else [])
      ensures blocked == old(blocked) + (if evidence.status !in {Validated, Failed, Partial} then [evidence] else [])
      ensures Total() == old(Total()) + 1
    {
      match evidence.status
      case Validated => validated := validated + [evidence];
      case Failed => failed := failed + [evidence];
      case Partial => partial := partial + [evidence];
      case _ => blocked := blocked + [evidence];
    }

    /** `validateRequirement`. `thrown` is the message of an exception raised by
        a browser call inside the try block (navigation, screenshot, a locator
        query), or `None` when none is raised. Without an exception the run's
        record is categorised by its status; with one, a `blocked` record
        carrying the message is pushed onto `blocked`. */
    method ValidateRequirement(id: string, description: string, config: TestConfig, page: Page,
                               now: string, thrown: Option<string>) returns (evidence: Evidence)
      requires Valid()
      modifies this
      ensures Valid()
      ensures evidence.id == id && evidence.description == description && evidence.timestamp == now
      ensures Total() == old(Total()) + 1
      ensures thrown.Some? ==>
                && evidence.status == Blocked
                && evidence.error == thrown
                && evidence.evidenceFiles == [id + "-" + timestamp + "-error.png"]
                && evidence.testResults.None?
                && evidence.complianceNotes.None?
                && evidence.stakeholderImpact.None?
                && blocked == old(blocked) + [evidence]
                && validated == old(validated) && failed == old(failed) && partial == old(partial)
      ensures thrown.None? ==>
                && evidence.status == ExpectedStatus(page, config)
                && evidence.testResults == Some(ExpectedResults(page, config))
                && evidence.evidenceFiles == [id + "-" + timestamp + ".png"]
                && evidence.error.None?
                && evidence.complianceNotes ==
                     Some(if config.complianceNotes.Some? then config.complianceNotes.value else [])
                && evidence.stakeholderImpact == Some(StringOr(config.stakeholderImpact, "low"))
                && validated == old(validated) + (if evidence.status == Validated then [evidence] else [])
                && failed == old(failed) + (if evidence.status == Failed then [evidence] else [])
                && partial == old(partial) + (if evidence.status == Partial then [evidence] else [])
                && blocked == old(blocked)
    {
      var evidenceFile := id + "-" + timestamp;
      if thrown.Some? {
        evidence := Evidence(id, description, now, Blocked, [evidenceFile + "-error.png"],
                             None, None, None, thrown);
        blocked := blocked + [evidence];
      } else {
        var validationResult := RunValidationTests(page, config);
        evidence := Evidence(id, description, now, validationResult.status, [evidenceFile + ".png"],
                             Some(validationResult.results), Some(validationResult.compliance),
                             Some(validationResult.stakeholderImpact), None);
        CategorizeResult(evidence);
      }
    }

    /** `generateNextSteps`: the next-steps lines for the current buckets, joined by `\n- `. */
    method GenerateNextSteps() returns (text: string)
      ensures text == Join(NextSteps(|failed| > 0, |blocked| > 0, |partial| > 0), STEP_SEPARATOR)
    {
      var steps: seq<string> := [];
      if |failed| > 0 {
        steps := steps + [STEP_CRITICAL];
      }
      if |blocked| > 0 {
        steps := steps + [STEP_URGENT];
      }
      if |partial| > 0 {
        steps := steps + [STEP_PLAN];
      }
      steps := steps + [STEP_CONTINUOUS];
      assert steps == NextSteps(|failed| > 0, |blocked| > 0, |partial| > 0);
      text := Join(steps, STEP_SEPARATOR);
    }
  }
}
