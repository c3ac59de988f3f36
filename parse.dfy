/**
 * The fact-mapping engine of financials/parse.go: resolve the document period
 * end date, dispatch every valid fact on its concept name into the statement,
 * then fill the derived balance-sheet metrics.
 *
 * The functions below are the specification; `ParseXBRL` is the engine itself,
 * written with the source's two loops and proved equal to `ParseResult`.
 */
module Parse {
  import opened Wrappers
  import opened Xbrl
  import opened Financials

  /** The failure of the numeric conversion of a fact that passed the period filter. */
  datatype ParseError = NumericValueError(concept: string)

  /** Concepts copied straight into the statement, whatever their context. */
  datatype IdentityConcept =
    | EntityRegistrantName
    | SecurityExchangeName
    | TradingSymbol
    | DocumentType

  /** Balance-sheet concepts, assigned only when their context is the period end instant. */
  datatype BalanceConcept =
    | Assets
    | Liabilities
    | CashAndCashEquivalentsAtCarryingValue
    | InvestmentsInAffiliatesSubsidiariesAssociatesAndJointVentures
    | ReceivablesFromBrokersDealersAndClearingOrganizations
    | ReceivablesFromCustomers
    | FeesInterestAndOther
    | FinancialInstrumentsOwnedAtFairValue
    | CashAndSecuritiesSegregatedUnderFederalAndOtherRegulations
    | SecuritiesReceivedAsCollateral

  /** The closed dispatch table: two kinds of handled concept, and everything else. */
  datatype Concept = Identity(id: IdentityConcept) | Balance(b: BalanceConcept) | Unrecognised

  /** The concept whose value is the document period end date. */
  const DocumentPeriodEndDate: string := "DocumentPeriodEndDate"

  /** The label of a concept's case in the switch; the default case has none. */
  function ConceptName(c: Concept): string {
    match c
    case Unrecognised => ""
    case Identity(EntityRegistrantName) => "EntityRegistrantName"
    case Identity(SecurityExchangeName) => "SecurityExchangeName"
    case Identity(TradingSymbol) => "TradingSymbol"
    case Identity(DocumentType) => "DocumentType"
    case Balance(Assets) => "Assets"
    case Balance(Liabilities) => "Liabilities"
    case Balance(CashAndCashEquivalentsAtCarryingValue) => "CashAndCashEquivalentsAtCarryingValue"
    case Balance(InvestmentsInAffiliatesSubsidiariesAssociatesAndJointVentures) =>
      "InvestmentsInAffiliatesSubsidiariesAssociatesAndJointVentures"
    case Balance(ReceivablesFromBrokersDealersAndClearingOrganizations) =>
      "ReceivablesFromBrokersDealersAndClearingOrganizations"
    case Balance(ReceivablesFromCustomers) => "ReceivablesFromCustomers"
    case Balance(FeesInterestAndOther) => "FeesInterestAndOther"
    case Balance(FinancialInstrumentsOwnedAtFairValue) => "FinancialInstrumentsOwnedAtFairValue"
    case Balance(CashAndSecuritiesSegregatedUnderFederalAndOtherRegulations) =>
      "CashAndSecuritiesSegregatedUnderFederalAndOtherRegulations"
    case Balance(SecuritiesReceivedAsCollateral) => "SecuritiesReceivedAsCollateral"
  }

  /** The cases of the switch, in source order. */
  const Cases: seq<Concept> := [
    Identity(EntityRegistrantName), Identity(SecurityExchangeName),
    Identity(TradingSymbol), Identity(DocumentType),
    Balance(Assets), Balance(Liabilities), Balance(CashAndCashEquivalentsAtCarryingValue),
    Balance(InvestmentsInAffiliatesSubsidiariesAssociatesAndJointVentures),
    Balance(ReceivablesFromBrokersDealersAndClearingOrganizations),
    Balance(ReceivablesFromCustomers), Balance(FeesInterestAndOther),
    Balance(FinancialInstrumentsOwnedAtFairValue),
    Balance(CashAndSecuritiesSegregatedUnderFederalAndOtherRegulations),
    Balance(SecuritiesReceivedAsCollateral)]

  /** The first of `cases` whose label is `name`, or Unrecognised when there is none. */
  function FirstCase(cases: seq<Concept>, name: string): Concept {
    if cases == [] then Unrecognised
    else if ConceptName(cases[0]) == name then cases[0]
    else FirstCase(cases[1..], name)
  }

  /** The switch on a fact's concept name: the first case, in source order, whose label is the name. */
  function Classify(name: string): Concept {
    FirstCase(Cases, name)
  }

  /** The balance-sheet field a balance concept is written to. */
  function Field(bs: BalanceSheet, b: BalanceConcept): real {
    match b
    case Assets => bs.totalAssets
    case Liabilities => bs.totalLiabilities
    case CashAndCashEquivalentsAtCarryingValue => bs.cashAndEquiv
    case InvestmentsInAffiliatesSubsidiariesAssociatesAndJointVentures => bs.currentLoansReceivable
    case ReceivablesFromBrokersDealersAndClearingOrganizations => bs.receivablesFromBrokers
    case ReceivablesFromCustomers => bs.receivablesFromCustomers
    case FeesInterestAndOther => bs.receivablesFromOther
    case FinancialInstrumentsOwnedAtFairValue => bs.financialInstrumentsOwnedAtFairValue
    case CashAndSecuritiesSegregatedUnderFederalAndOtherRegulations => bs.segregatedCash
    case SecuritiesReceivedAsCollateral => bs.securitiesReceivedAsCollateral
  }

  /** The balance sheet with every field a balance concept can write reset to zero. */
  function ClearDispatched(bs: BalanceSheet): (r: BalanceSheet)
    ensures forall b :: Field(r, b) == 0.0
  {
    bs.(totalAssets := 0.0, totalLiabilities := 0.0, cashAndEquiv := 0.0,
        currentLoansReceivable := 0.0, receivablesFromBrokers := 0.0,
        receivablesFromCustomers := 0.0, receivablesFromOther := 0.0,
        financialInstrumentsOwnedAtFairValue := 0.0, segregatedCash := 0.0,
        securitiesReceivedAsCollateral := 0.0)
  }

  /** Writes `v` to the field of `b`: that field reads `v`, and no other field changes. */
  function SetField(bs: BalanceSheet, b: BalanceConcept, v: real): (r: BalanceSheet)
    ensures Field(r, b) == v
    ensures forall b' :: b' != b ==> Field(r, b') == Field(bs, b')
    ensures ClearDispatched(r) == ClearDispatched(bs)
  {
    match b
    case Assets => bs.(totalAssets := v)
    case Liabilities => bs.(totalLiabilities := v)
    case CashAndCashEquivalentsAtCarryingValue => bs.(cashAndEquiv := v)
    case InvestmentsInAffiliatesSubsidiariesAssociatesAndJointVentures => bs.(currentLoansReceivable := v)
    case ReceivablesFromBrokersDealersAndClearingOrganizations => bs.(receivablesFromBrokers := v)
    case ReceivablesFromCustomers => bs.(receivablesFromCustomers := v)
    case FeesInterestAndOther => bs.(receivablesFromOther := v)
    case FinancialInstrumentsOwnedAtFairValue => bs.(financialInstrumentsOwnedAtFairValue := v)
    case CashAndSecuritiesSegregatedUnderFederalAndOtherRegulations => bs.(segregatedCash := v)
    case SecuritiesReceivedAsCollateral => bs.(securitiesReceivedAsCollateral := v)
  }

  // ---------------------------------------------------------------------------
  // Period resolution
  // ---------------------------------------------------------------------------

  predicate IsEndDateFact(f: Fact) {
    f.valid && f.name == DocumentPeriodEndDate
  }

  /** The end date the first pass leaves behind: the value of the last valid end-date fact, or "". */
  function EndDate(facts: seq<Fact>): string {
    if facts == [] then ""
    else if IsEndDateFact(facts[|facts| - 1]) then facts[|facts| - 1].valueStr
    else EndDate(facts[..|facts| - 1])
  }

  // ---------------------------------------------------------------------------
  // Dispatch
  // ---------------------------------------------------------------------------

  /** The instant of a fact's context, None when the context is missing or has no instant. */
  function ContextInstant(contexts: map<string, Context>, ref: string): Option<string> {
    if ref in contexts then contexts[ref].instant else None
  }

  /** A fact whose context is an instant period at the end date. */
  predicate InPeriod(f: Fact, contexts: map<string, Context>, endDate: string) {
    ContextInstant(contexts, f.contextRef) == Some(endDate)
  }

  /** A valid balance-sheet fact that passes the period filter but has no numeric value: the call fails there. */
  predicate Aborts(f: Fact, contexts: map<string, Context>, endDate: string) {
    f.valid && Classify(f.name).Balance? && InPeriod(f, contexts, endDate) && f.numeric.None?
  }

  /** The effect of one fact on the statement being built. */
  function Step(s: Statement, f: Fact, contexts: map<string, Context>, endDate: string)
    : Result<Statement, ParseError>
  {
    if !f.valid then Ok(s)
    else match Classify(f.name)
      case Identity(EntityRegistrantName) =>
        Ok(s.(companyProfile := s.companyProfile.(name := f.valueStr)))
      case Identity(SecurityExchangeName) =>
        Ok(s.(companyProfile := s.companyProfile.(primaryExchange := f.valueStr)))
      case Identity(TradingSymbol) =>
        if ' ' !in f.valueStr && s.companyProfile.primaryTicker == "" then
          Ok(s.(companyProfile := s.companyProfile.(primaryTicker := f.valueStr)))
        else
          Ok(s)
      case Identity(DocumentType) =>
        Ok(s.(formType := f.valueStr))
      case Balance(b) =>
        if !InPeriod(f, contexts, endDate) then Ok(s)
        else (match f.numeric
          case None => Err(NumericValueError(f.name))
          case Some(v) => Ok(s.(balanceSheet := SetField(s.balanceSheet, b, v))))
      case Unrecognised =>
        Ok(s)
  }

  /** The statement the processing of a call starts from: all zero, stamped with `now`. */
  function Initial(now: Time): Statement {
    Statement(processingDate := now)
  }

  /** The outcome of the dispatch pass over `facts`, stopping at the first error. */
  function Mapped(facts: seq<Fact>, contexts: map<string, Context>, endDate: string, now: Time)
    : Result<Statement, ParseError>
  {
    if facts == [] then Ok(Initial(now))
    else match Mapped(facts[..|facts| - 1], contexts, endDate, now)
      case Err(e) => Err(e)
      case Ok(s) => Step(s, facts[|facts| - 1], contexts, endDate)
  }

  /** One more fact: the pass over `facts[..n + 1]` is the pass over `facts[..n]` followed by one step. */
  lemma {:induction false} MappedExtend(facts: seq<Fact>, n: nat, contexts: map<string, Context>, endDate: string, now: Time)
    requires n < |facts|
    ensures Mapped(facts[..n + 1], contexts, endDate, now)
         == match Mapped(facts[..n], contexts, endDate, now)
            case Err(e) => Err(e)
            case Ok(s) => Step(s, facts[n], contexts, endDate)
  {
    assert facts[..n + 1][..n] == facts[..n];
  }

  /** Once the dispatch pass has failed on a prefix, it fails with the same error on the whole list. */
  lemma {:induction false} MappedStopsAtError(
    facts: seq<Fact>, n: nat, contexts: map<string, Context>, endDate: string, now: Time)
    requires n <= |facts|
    requires Mapped(facts[..n], contexts, endDate, now).Err?
    ensures Mapped(facts, contexts, endDate, now) == Mapped(facts[..n], contexts, endDate, now)
    decreases |facts| - n
  {
    if n == |facts| {
      assert facts[..n] == facts;
    } else {
      assert facts[..n + 1][..n] == facts[..n];
      MappedStopsAtError(facts, n + 1, contexts, endDate, now);
    }
  }

  /** While the dispatch pass is still going after `n` facts, none of them failed. */
  lemma {:induction false} MappedOkReachesNoAbort(
    facts: seq<Fact>, n: nat, contexts: map<string, Context>, endDate: string, now: Time)
    requires n <= |facts|
    requires Mapped(facts[..n], contexts, endDate, now).Ok?
    ensures forall j :: 0 <= j < n ==> !Aborts(facts[j], contexts, endDate)
  {
    if n > 0 {
      assert facts[..n][..n - 1] == facts[..n - 1];
      MappedOkReachesNoAbort(facts, n - 1, contexts, endDate, now);
    }
  }

  // ---------------------------------------------------------------------------
  // Derivation
  // ---------------------------------------------------------------------------

  /** The eight components the current-assets fallback adds up. */
  function ComponentSum(bs: BalanceSheet): real {
    bs.cashAndEquiv + bs.currentLoansReceivable + bs.receivablesFromBrokers
    + bs.receivablesFromCustomers + bs.receivablesFromOther
    + bs.financialInstrumentsOwnedAtFairValue + bs.segregatedCash
    + bs.securitiesReceivedAsCollateral
  }

  /**
   * The derived metrics: an unset (zero) current assets is filled from its
   * components, an unset current liabilities from total liabilities, and working
   * capital is always recomputed. Nothing else changes.
   */
  function Derive(s: Statement): (d: Statement)
    ensures d.balanceSheet.workingCapital
         == d.balanceSheet.currentAssets - d.balanceSheet.currentLiabilities
    ensures s.balanceSheet.currentAssets != 0.0
         ==> d.balanceSheet.currentAssets == s.balanceSheet.currentAssets
    ensures s.balanceSheet.currentAssets == 0.0
         ==> d.balanceSheet.currentAssets == ComponentSum(s.balanceSheet)
    ensures s.balanceSheet.currentLiabilities != 0.0
         ==> d.balanceSheet.currentLiabilities == s.balanceSheet.currentLiabilities
    ensures s.balanceSheet.currentLiabilities == 0.0
         ==> d.balanceSheet.currentLiabilities == s.balanceSheet.totalLiabilities
    ensures d.(balanceSheet := d.balanceSheet.(currentAssets := 0.0, currentLiabilities := 0.0, workingCapital := 0.0))
         == s.(balanceSheet := s.balanceSheet.(currentAssets := 0.0, currentLiabilities := 0.0, workingCapital := 0.0))
  {
    var bs := s.balanceSheet;
    var currentAssets := if bs.currentAssets == 0.0 then ComponentSum(bs) else bs.currentAssets;
    var currentLiabilities := if bs.currentLiabilities == 0.0 then bs.totalLiabilities else bs.currentLiabilities;
    s.(balanceSheet := bs.(currentAssets := currentAssets,
                           currentLiabilities := currentLiabilities,
                           workingCapital := currentAssets - currentLiabilities))
  }

  /** What a call returns for a decoded document: the mapped and derived statement, or the first error. */
  function ParseResult(facts: seq<Fact>, contexts: map<string, Context>, now: Time)
    : Result<Statement, ParseError>
  {
    match Mapped(facts, contexts, EndDate(facts), now)
    case Err(e) => Err(e)
    case Ok(s) => Ok(Derive(s))
  }

  // ---------------------------------------------------------------------------
  // The engine
  // ---------------------------------------------------------------------------

  /** A fact whose handler looks up its context. */
  predicate NeedsContext(f: Fact) {
    f.valid && Classify(f.name).Balance?
  }

  /** The context id is in the table and its period has an instant. */
  predicate HasInstant(contexts: map<string, Context>, ref: string) {
    ref in contexts && contexts[ref].instant.Some?
  }

  /** No fact before position `n` makes the dispatch pass fail. */
  predicate NoAbortBefore(facts: seq<Fact>, contexts: map<string, Context>, endDate: string, n: int) {
    forall j :: 0 <= j < n && j < |facts| ==> !Aborts(facts[j], contexts, endDate)
  }

  /**
   * Every context the dispatch pass dereferences exists and has an instant: the
   * facts it reaches before it stops are those up to and including the first
   * failing one.
   */
  predicate NoNilDereference(facts: seq<Fact>, contexts: map<string, Context>, endDate: string) {
    forall i :: 0 <= i < |facts| && NeedsContext(facts[i]) && NoAbortBefore(facts, contexts, endDate, i)
      ==> HasInstant(contexts, facts[i].contextRef)
  }

  /** The first pass: the period end date of the document. */
  method ResolveEndDate(facts: seq<Fact>) returns (endDate: string)
    ensures endDate == EndDate(facts)
  {
    endDate := "";
    for i := 0 to |facts|
      invariant endDate == EndDate(facts[..i])
    {
      assert facts[..i + 1][..i] == facts[..i];
      if facts[i].valid && facts[i].name == DocumentPeriodEndDate {
        endDate := facts[i].valueStr;
      }
    }
    assert facts[..|facts|] == facts;
  }

  /** The second pass: every valid fact dispatched on its concept name, stopping at the first numeric failure. */
  method MapFacts(facts: seq<Fact>, contexts: map<string, Context>, endDate: string, now: Time)
    returns (r: Result<Statement, ParseError>)
    requires NoNilDereference(facts, contexts, endDate)
    ensures r == Mapped(facts, contexts, endDate, now)
  {
    var statement := Initial(now);
    for i := 0 to |facts|
      invariant Mapped(facts[..i], contexts, endDate, now) == Ok(statement)
    {
      var fact := facts[i];
      MappedExtend(facts, i, contexts, endDate, now);
      if fact.valid {
        match Classify(fact.name) {
          case Identity(EntityRegistrantName) =>
            statement := statement.(companyProfile := statement.companyProfile.(name := fact.valueStr));
          case Identity(SecurityExchangeName) =>
            statement := statement.(companyProfile := statement.companyProfile.(primaryExchange := fact.valueStr));
          case Identity(TradingSymbol) =>
            var symbol := fact.valueStr;
            if ' ' !in symbol && statement.companyProfile.primaryTicker == "" {
              statement := statement.(companyProfile := statement.companyProfile.(primaryTicker := symbol));
            }
          case Identity(DocumentType) =>
            statement := statement.(formType := fact.valueStr);
          case Balance(b) =>
            MappedOkReachesNoAbort(facts, i, contexts, endDate, now);
            var factContext := contexts[fact.contextRef];
            if factContext.instant.value == endDate {
              if fact.numeric.None? {
                MappedStopsAtError(facts, i + 1, contexts, endDate, now);
                return Err(NumericValueError(fact.name));
              }
              statement := statement.(balanceSheet := SetField(statement.balanceSheet, b, fact.numeric.value));
            }
          case Unrecognised =>
        }
      }
    }
    assert facts[..|facts|] == facts;
    return Ok(statement);
  }

  /** The derived metrics, filled in place on the mapped statement. */
  method DeriveMetrics(s: Statement) returns (statement: Statement)
    ensures statement == Derive(s)
  {
    statement := s;
    if statement.balanceSheet.currentAssets == 0.0 {
      var bs := statement.balanceSheet;
      statement := statement.(balanceSheet := bs.(currentAssets :=
        bs.cashAndEquiv
        + bs.currentLoansReceivable
        + bs.receivablesFromBrokers
        + bs.receivablesFromCustomers
        + bs.receivablesFromOther
        + bs.financialInstrumentsOwnedAtFairValue
        + bs.segregatedCash
        + bs.securitiesReceivedAsCollateral));
    }

    if statement.balanceSheet.currentLiabilities == 0.0 {
      statement := statement.(balanceSheet :=
        statement.balanceSheet.(currentLiabilities := statement.balanceSheet.totalLiabilities));
    }

    statement := statement.(balanceSheet := statement.balanceSheet.(workingCapital :=
      statement.balanceSheet.currentAssets - statement.balanceSheet.currentLiabilities));
  }

  /** ParseXBRL after the document has been read and decoded into `facts` and `contexts`. */
  method ParseXBRL(facts: seq<Fact>, contexts: map<string, Context>, now: Time)
    returns (r: Result<Statement, ParseError>)
    requires NoNilDereference(facts, contexts, EndDate(facts))
    ensures r == ParseResult(facts, contexts, now)
  {
    var endDate := ResolveEndDate(facts);
    var mapped := MapFacts(facts, contexts, endDate, now);
    if mapped.Err? {
      return Err(mapped.error);
    }
    var statement := DeriveMetrics(mapped.value);
    return Ok(statement);
  }
}
