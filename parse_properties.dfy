/**
 * What a call of the engine promises, proved about the specification in
 * module Parse. Lemmas named `...Loop` speak of the dispatch pass alone, for
 * any end date and any prefix of the facts; the others speak of the whole call.
 */
module ParseProperties {
  import opened Wrappers
  import opened Xbrl
  import opened Financials
  import opened Parse

  // ---------------------------------------------------------------------------
  // Period resolution
  // ---------------------------------------------------------------------------

  /** The end date is the value of the last valid DocumentPeriodEndDate fact. */
  lemma {:induction false} EndDateIsLastValid(facts: seq<Fact>, k: nat)
    requires k < |facts| && IsEndDateFact(facts[k])
    requires forall j :: k < j < |facts| ==> !IsEndDateFact(facts[j])
    ensures EndDate(facts) == facts[k].valueStr
  {
    if k < |facts| - 1 {
      EndDateIsLastValid(facts[..|facts| - 1], k);
    }
  }

  /** Without a valid DocumentPeriodEndDate fact the end date is the empty string. */
  lemma {:induction false} EndDateEmptyWhenAbsent(facts: seq<Fact>)
    requires forall j :: 0 <= j < |facts| ==> !IsEndDateFact(facts[j])
    ensures EndDate(facts) == ""
  {
    if facts != [] {
      EndDateEmptyWhenAbsent(facts[..|facts| - 1]);
    }
  }

  // ---------------------------------------------------------------------------
  // The switch on concept names
  // ---------------------------------------------------------------------------

  /** A search of a case list returns either the default or a case whose label is the name. */
  lemma {:induction false} FirstCaseMatchesLabel(cases: seq<Concept>, name: string)
    ensures FirstCase(cases, name) == Unrecognised || ConceptName(FirstCase(cases, name)) == name
  {
    if cases != [] && ConceptName(cases[0]) != name {
      FirstCaseMatchesLabel(cases[1..], name);
    }
  }

  /** A search of a case list returns the default only when no listed label is the name. */
  lemma {:induction false} FirstCaseMissesOnlyUnlabelled(cases: seq<Concept>, name: string)
    requires FirstCase(cases, name) == Unrecognised
    ensures forall i :: 0 <= i < |cases| && cases[i] != Unrecognised ==> ConceptName(cases[i]) != name
  {
    if cases != [] && ConceptName(cases[0]) != name {
      FirstCaseMissesOnlyUnlabelled(cases[1..], name);
    }
  }

  /** Every handled concept is a case of the switch. */
  lemma CasesCoverConcepts(c: Concept)
    requires c != Unrecognised
    ensures c in Cases
  {
    match c
    case Identity(EntityRegistrantName) => assert Cases[0] == c;
    case Identity(SecurityExchangeName) => assert Cases[1] == c;
    case Identity(TradingSymbol) => assert Cases[2] == c;
    case Identity(DocumentType) => assert Cases[3] == c;
    case Balance(Assets) => assert Cases[4] == c;
    case Balance(Liabilities) => assert Cases[5] == c;
    case Balance(CashAndCashEquivalentsAtCarryingValue) => assert Cases[6] == c;
    case Balance(InvestmentsInAffiliatesSubsidiariesAssociatesAndJointVentures) => assert Cases[7] == c;
    case Balance(ReceivablesFromBrokersDealersAndClearingOrganizations) => assert Cases[8] == c;
    case Balance(ReceivablesFromCustomers) => assert Cases[9] == c;
    case Balance(FeesInterestAndOther) => assert Cases[10] == c;
    case Balance(FinancialInstrumentsOwnedAtFairValue) => assert Cases[11] == c;
    case Balance(CashAndSecuritiesSegregatedUnderFederalAndOtherRegulations) => assert Cases[12] == c;
    case Balance(SecuritiesReceivedAsCollateral) => assert Cases[13] == c;
  }

  /**
   * The switch selects a handled concept only by that concept's own label, and
   * falls to the default only when the name is the label of no handled concept.
   */
  lemma {:induction false} ClassifyByLabel(name: string)
    ensures Classify(name) != Unrecognised ==> ConceptName(Classify(name)) == name
    ensures Classify(name) == Unrecognised ==> forall c :: c != Unrecognised ==> ConceptName(c) != name
  {
    FirstCaseMatchesLabel(Cases, name);
    if Classify(name) == Unrecognised {
      FirstCaseMissesOnlyUnlabelled(Cases, name);
      forall c | c != Unrecognised
        ensures ConceptName(c) != name
      {
        CasesCoverConcepts(c);
      }
    }
  }

  // ---------------------------------------------------------------------------
  // Ignored facts
  // ---------------------------------------------------------------------------

  /** A fact the dispatch pass skips: it is invalid, or its concept is not in the switch. */
  predicate Skipped(f: Fact) {
    !f.valid || Classify(f.name).Unrecognised?
  }

  lemma {:induction false} EndDateSkipsFact(a: seq<Fact>, f: Fact, b: seq<Fact>)
    requires !IsEndDateFact(f)
    ensures EndDate(a + [f] + b) == EndDate(a + b)
    decreases |b|
  {
    if b == [] {
      assert a + [f] + b == a + [f] && (a + [f])[..|a|] == a && a + b == a;
    } else {
      var b' := b[..|b| - 1];
      assert (a + [f] + b)[..|a + [f] + b| - 1] == a + [f] + b';
      assert (a + b)[..|a + b| - 1] == a + b';
      EndDateSkipsFact(a, f, b');
    }
  }

  lemma {:induction false} MappedSkipsFact(
    a: seq<Fact>, f: Fact, b: seq<Fact>, contexts: map<string, Context>, endDate: string, now: Time)
    requires Skipped(f)
    ensures Mapped(a + [f] + b, contexts, endDate, now) == Mapped(a + b, contexts, endDate, now)
    decreases |b|
  {
    if b == [] {
      assert a + [f] + b == a + [f] && (a + [f])[..|a|] == a && a + b == a;
    } else {
      var b' := b[..|b| - 1];
      assert (a + [f] + b)[..|a + [f] + b| - 1] == a + [f] + b';
      assert (a + b)[..|a + b| - 1] == a + b';
      MappedSkipsFact(a, f, b', contexts, endDate, now);
    }
  }

  /**
   * An invalid fact, or a valid one whose concept is neither in the switch nor
   * the period end date, changes neither pass wherever it stands: the call
   * returns the same as without it.
   */
  lemma {:induction false} IgnoredFactChangesNothing(
    a: seq<Fact>, f: Fact, b: seq<Fact>, contexts: map<string, Context>, now: Time)
    requires !f.valid || (Classify(f.name).Unrecognised? && f.name != DocumentPeriodEndDate)
    ensures ParseResult(a + [f] + b, contexts, now) == ParseResult(a + b, contexts, now)
  {
    EndDateSkipsFact(a, f, b);
    MappedSkipsFact(a, f, b, contexts, EndDate(a + b), now);
  }

  // ---------------------------------------------------------------------------
  // Identity concepts
  // ---------------------------------------------------------------------------

  predicate IdentityFact(f: Fact, c: IdentityConcept) {
    f.valid && Classify(f.name) == Identity(c)
  }

  /** The statement field an identity concept is written to. */
  function IdentityField(s: Statement, c: IdentityConcept): string {
    match c
    case EntityRegistrantName => s.companyProfile.name
    case SecurityExchangeName => s.companyProfile.primaryExchange
    case TradingSymbol => s.companyProfile.primaryTicker
    case DocumentType => s.formType
  }

  lemma {:induction false} IdentityLastWinsLoop(
    facts: seq<Fact>, contexts: map<string, Context>, endDate: string, now: Time, c: IdentityConcept, k: nat)
    requires c != TradingSymbol
    requires k < |facts| && IdentityFact(facts[k], c)
    requires forall j :: k < j < |facts| ==> !IdentityFact(facts[j], c)
    requires Mapped(facts, contexts, endDate, now).Ok?
    ensures IdentityField(Mapped(facts, contexts, endDate, now).value, c) == facts[k].valueStr
  {
    if k < |facts| - 1 {
      IdentityLastWinsLoop(facts[..|facts| - 1], contexts, endDate, now, c, k);
    }
  }

  lemma {:induction false} IdentityUnsetLoop(
    facts: seq<Fact>, contexts: map<string, Context>, endDate: string, now: Time, c: IdentityConcept)
    requires forall j :: 0 <= j < |facts| ==> !IdentityFact(facts[j], c)
    requires Mapped(facts, contexts, endDate, now).Ok?
    ensures IdentityField(Mapped(facts, contexts, endDate, now).value, c) == ""
  {
    if facts != [] {
      IdentityUnsetLoop(facts[..|facts| - 1], contexts, endDate, now, c);
    }
  }

  /**
   * Name, primary exchange and form type hold the value of the last valid fact
   * of their concept, whatever its context.
   */
  lemma {:induction false} IdentityLastWins(facts: seq<Fact>, contexts: map<string, Context>, now: Time, c: IdentityConcept, k: nat)
    requires c != TradingSymbol
    requires k < |facts| && IdentityFact(facts[k], c)
    requires forall j :: k < j < |facts| ==> !IdentityFact(facts[j], c)
    requires ParseResult(facts, contexts, now).Ok?
    ensures IdentityField(ParseResult(facts, contexts, now).value, c) == facts[k].valueStr
  {
    IdentityLastWinsLoop(facts, contexts, EndDate(facts), now, c, k);
  }

  /** An identity field with no valid fact of its concept stays empty. */
  lemma {:induction false} IdentityUnsetWhenAbsent(facts: seq<Fact>, contexts: map<string, Context>, now: Time, c: IdentityConcept)
    requires forall j :: 0 <= j < |facts| ==> !IdentityFact(facts[j], c)
    requires ParseResult(facts, contexts, now).Ok?
    ensures IdentityField(ParseResult(facts, contexts, now).value, c) == ""
  {
    IdentityUnsetLoop(facts, contexts, EndDate(facts), now, c);
  }

  // ---------------------------------------------------------------------------
  // The trading symbol
  // ---------------------------------------------------------------------------

  /** A trading symbol that sets the ticker when it is still empty: space-free and not itself empty. */
  predicate AcceptedSymbol(f: Fact) {
    IdentityFact(f, TradingSymbol) && ' ' !in f.valueStr && f.valueStr != ""
  }

  lemma {:induction false} TickerUnsetLoop(
    facts: seq<Fact>, contexts: map<string, Context>, endDate: string, now: Time)
    requires forall j :: 0 <= j < |facts| ==> !AcceptedSymbol(facts[j])
    requires Mapped(facts, contexts, endDate, now).Ok?
    ensures Mapped(facts, contexts, endDate, now).value.companyProfile.primaryTicker == ""
  {
    if facts != [] {
      TickerUnsetLoop(facts[..|facts| - 1], contexts, endDate, now);
    }
  }

  lemma {:induction false} TickerFirstAcceptedLoop(
    facts: seq<Fact>, contexts: map<string, Context>, endDate: string, now: Time, k: nat)
    requires k < |facts| && AcceptedSymbol(facts[k])
    requires forall j :: 0 <= j < k ==> !AcceptedSymbol(facts[j])
    requires Mapped(facts, contexts, endDate, now).Ok?
    ensures Mapped(facts, contexts, endDate, now).value.companyProfile.primaryTicker == facts[k].valueStr
  {
    var p := facts[..|facts| - 1];
    if k == |facts| - 1 {
      TickerUnsetLoop(p, contexts, endDate, now);
    } else {
      TickerFirstAcceptedLoop(p, contexts, endDate, now, k);
    }
  }

  lemma {:induction false} TickerNoSpaceLoop(
    facts: seq<Fact>, contexts: map<string, Context>, endDate: string, now: Time)
    requires Mapped(facts, contexts, endDate, now).Ok?
    ensures ' ' !in Mapped(facts, contexts, endDate, now).value.companyProfile.primaryTicker
  {
    if facts != [] {
      TickerNoSpaceLoop(facts[..|facts| - 1], contexts, endDate, now);
    }
  }

  /** The ticker is the first accepted trading symbol; later symbols never replace it. */
  lemma {:induction false} TickerFirstAccepted(facts: seq<Fact>, contexts: map<string, Context>, now: Time, k: nat)
    requires k < |facts| && AcceptedSymbol(facts[k])
    requires forall j :: 0 <= j < k ==> !AcceptedSymbol(facts[j])
    requires ParseResult(facts, contexts, now).Ok?
    ensures ParseResult(facts, contexts, now).value.companyProfile.primaryTicker == facts[k].valueStr
  {
    TickerFirstAcceptedLoop(facts, contexts, EndDate(facts), now, k);
  }

  /** Without an accepted trading symbol the ticker stays empty. */
  lemma {:induction false} TickerUnsetWhenNoneAccepted(facts: seq<Fact>, contexts: map<string, Context>, now: Time)
    requires forall j :: 0 <= j < |facts| ==> !AcceptedSymbol(facts[j])
    requires ParseResult(facts, contexts, now).Ok?
    ensures ParseResult(facts, contexts, now).value.companyProfile.primaryTicker == ""
  {
    TickerUnsetLoop(facts, contexts, EndDate(facts), now);
  }

  /** The ticker never contains a space. */
  lemma {:induction false} TickerHasNoSpace(facts: seq<Fact>, contexts: map<string, Context>, now: Time)
    requires ParseResult(facts, contexts, now).Ok?
    ensures ' ' !in ParseResult(facts, contexts, now).value.companyProfile.primaryTicker
  {
    TickerNoSpaceLoop(facts, contexts, EndDate(facts), now);
  }

  // ---------------------------------------------------------------------------
  // Balance-sheet concepts
  // ---------------------------------------------------------------------------

  /** A valid fact of concept `b` whose context is an instant at the end date. */
  predicate Matches(f: Fact, b: BalanceConcept, contexts: map<string, Context>, endDate: string) {
    f.valid && Classify(f.name) == Balance(b) && InPeriod(f, contexts, endDate)
  }

  lemma {:induction false} BalanceLastWinsLoop(
    facts: seq<Fact>, contexts: map<string, Context>, endDate: string, now: Time, b: BalanceConcept, k: nat)
    requires k < |facts| && Matches(facts[k], b, contexts, endDate)
    requires forall j :: k < j < |facts| ==> !Matches(facts[j], b, contexts, endDate)
    requires Mapped(facts, contexts, endDate, now).Ok?
    ensures facts[k].numeric == Some(Field(Mapped(facts, contexts, endDate, now).value.balanceSheet, b))
  {
    if k < |facts| - 1 {
      BalanceLastWinsLoop(facts[..|facts| - 1], contexts, endDate, now, b, k);
    }
  }

  lemma {:induction false} BalanceUnsetLoop(
    facts: seq<Fact>, contexts: map<string, Context>, endDate: string, now: Time, b: BalanceConcept)
    requires forall j :: 0 <= j < |facts| ==> !Matches(facts[j], b, contexts, endDate)
    requires Mapped(facts, contexts, endDate, now).Ok?
    ensures Field(Mapped(facts, contexts, endDate, now).value.balanceSheet, b) == 0.0
  {
    if facts != [] {
      BalanceUnsetLoop(facts[..|facts| - 1], contexts, endDate, now, b);
    }
  }

  /**
   * Each mapped balance-sheet field holds the numeric value of the last valid
   * fact of its concept whose context instant is the end date.
   */
  lemma {:induction false} BalanceLastWins(facts: seq<Fact>, contexts: map<string, Context>, now: Time, b: BalanceConcept, k: nat)
    requires k < |facts| && Matches(facts[k], b, contexts, EndDate(facts))
    requires forall j :: k < j < |facts| ==> !Matches(facts[j], b, contexts, EndDate(facts))
    requires ParseResult(facts, contexts, now).Ok?
    ensures facts[k].numeric == Some(Field(ParseResult(facts, contexts, now).value.balanceSheet, b))
  {
    BalanceLastWinsLoop(facts, contexts, EndDate(facts), now, b, k);
  }

  /** A mapped balance-sheet field with no such fact stays zero. */
  lemma {:induction false} BalanceUnsetWhenAbsent(facts: seq<Fact>, contexts: map<string, Context>, now: Time, b: BalanceConcept)
    requires forall j :: 0 <= j < |facts| ==> !Matches(facts[j], b, contexts, EndDate(facts))
    requires ParseResult(facts, contexts, now).Ok?
    ensures Field(ParseResult(facts, contexts, now).value.balanceSheet, b) == 0.0
  {
    BalanceUnsetLoop(facts, contexts, EndDate(facts), now, b);
  }

  // ---------------------------------------------------------------------------
  // Failure
  // ---------------------------------------------------------------------------

  lemma {:induction false} AbortFailsLoop(
    facts: seq<Fact>, contexts: map<string, Context>, endDate: string, now: Time, k: nat)
    requires k < |facts| && Aborts(facts[k], contexts, endDate)
    ensures Mapped(facts, contexts, endDate, now).Err?
  {
    if k < |facts| - 1 {
      AbortFailsLoop(facts[..|facts| - 1], contexts, endDate, now, k);
    }
  }

  lemma {:induction false} NoAbortSucceedsLoop(
    facts: seq<Fact>, contexts: map<string, Context>, endDate: string, now: Time)
    requires forall j :: 0 <= j < |facts| ==> !Aborts(facts[j], contexts, endDate)
    ensures Mapped(facts, contexts, endDate, now).Ok?
  {
    if facts != [] {
      NoAbortSucceedsLoop(facts[..|facts| - 1], contexts, endDate, now);
    }
  }

  /** The call fails exactly when some valid balance-sheet fact at the end date has no numeric value. */
  lemma {:induction false} ParseFailsIffAbort(facts: seq<Fact>, contexts: map<string, Context>, now: Time)
    ensures ParseResult(facts, contexts, now).Err?
        <==> exists k :: 0 <= k < |facts| && Aborts(facts[k], contexts, EndDate(facts))
  {
    if exists k :: 0 <= k < |facts| && Aborts(facts[k], contexts, EndDate(facts)) {
      var k :| 0 <= k < |facts| && Aborts(facts[k], contexts, EndDate(facts));
      AbortFailsLoop(facts, contexts, EndDate(facts), now, k);
    } else {
      NoAbortSucceedsLoop(facts, contexts, EndDate(facts), now);
    }
  }

  /** The error reported is that of the first failing fact. */
  lemma {:induction false} FirstAbortReported(facts: seq<Fact>, contexts: map<string, Context>, now: Time, k: nat)
    requires k < |facts| && Aborts(facts[k], contexts, EndDate(facts))
    requires forall j :: 0 <= j < k ==> !Aborts(facts[j], contexts, EndDate(facts))
    ensures ParseResult(facts, contexts, now) == Err(NumericValueError(facts[k].name))
  {
    var endDate := EndDate(facts);
    var prefix := facts[..k];
    assert forall j :: 0 <= j < |prefix| ==> prefix[j] == facts[j];
    NoAbortSucceedsLoop(prefix, contexts, endDate, now);
    assert facts[..k + 1][..k] == prefix;
    assert Mapped(facts[..k + 1], contexts, endDate, now)
        == Step(Mapped(prefix, contexts, endDate, now).value, facts[k], contexts, endDate);
    MappedStopsAtError(facts, k + 1, contexts, endDate, now);
  }

  // ---------------------------------------------------------------------------
  // Fields outside the dispatch table, and the derived metrics
  // ---------------------------------------------------------------------------

  /** A statement with every field the dispatch pass can write reset to its zero value. */
  function Residue(s: Statement): Statement {
    s.(formType := "",
       companyProfile := s.companyProfile.(name := "", primaryExchange := "", primaryTicker := ""),
       balanceSheet := ClearDispatched(s.balanceSheet))
  }

  lemma {:induction false} ResidueLoop(
    facts: seq<Fact>, contexts: map<string, Context>, endDate: string, now: Time)
    requires Mapped(facts, contexts, endDate, now).Ok?
    ensures Residue(Mapped(facts, contexts, endDate, now).value) == Initial(now)
  {
    if facts != [] {
      ResidueLoop(facts[..|facts| - 1], contexts, endDate, now);
    }
  }

  /**
   * On success, current assets is the sum of its eight components, current
   * liabilities equals total liabilities, and working capital is their difference.
   */
  lemma {:induction false} DerivedMetrics(facts: seq<Fact>, contexts: map<string, Context>, now: Time)
    requires ParseResult(facts, contexts, now).Ok?
    ensures var bs := ParseResult(facts, contexts, now).value.balanceSheet;
      && bs.currentAssets == ComponentSum(bs)
      && bs.currentLiabilities == bs.totalLiabilities
      && bs.workingCapital == bs.currentAssets - bs.currentLiabilities
  {
    ResidueLoop(facts, contexts, EndDate(facts), now);
  }

  /**
   * On success, every field that neither the dispatch table nor the derivation
   * writes keeps its zero value, and the processing date is the time of the call.
   */
  lemma {:induction false} UntouchedFields(facts: seq<Fact>, contexts: map<string, Context>, now: Time)
    requires ParseResult(facts, contexts, now).Ok?
    ensures var s := ParseResult(facts, contexts, now).value;
      && s.filingDate == Time() && s.calendarDate == Time() && s.processingDate == now
      && s.incomeStatement == IncomeStatement() && s.cashFlow == CashFlow()
      && s.companyProfile.(name := "", primaryExchange := "", primaryTicker := "") == CompanyProfile()
      && ClearDispatched(s.balanceSheet).(currentAssets := 0.0, currentLiabilities := 0.0, workingCapital := 0.0)
         == BalanceSheet()
  {
    ResidueLoop(facts, contexts, EndDate(facts), now);
  }

  /**
   * Without a period end date, and with no context whose instant is the empty
   * string, the call succeeds and the whole balance sheet, derived metrics
   * included, keeps its zero value.
   */
  lemma {:induction false} MissingPeriod(facts: seq<Fact>, contexts: map<string, Context>, now: Time)
    requires forall j :: 0 <= j < |facts| ==> !IsEndDateFact(facts[j])
    requires forall j :: 0 <= j < |facts| ==> ContextInstant(contexts, facts[j].contextRef) != Some("")
    ensures ParseResult(facts, contexts, now).Ok?
    ensures ParseResult(facts, contexts, now).value.balanceSheet == BalanceSheet()
  {
    EndDateEmptyWhenAbsent(facts);
    NoAbortSucceedsLoop(facts, contexts, "", now);
    forall b ensures Field(ParseResult(facts, contexts, now).value.balanceSheet, b) == 0.0 {
      BalanceUnsetLoop(facts, contexts, "", now, b);
    }
    UntouchedFields(facts, contexts, now);
    DerivedMetrics(facts, contexts, now);
    ZeroSheet(ParseResult(facts, contexts, now).value.balanceSheet);
  }

  /**
   * A derived balance sheet whose dispatched fields are zero and whose other
   * fields are untouched is the zero balance sheet.
   */
  lemma ZeroSheet(bs: BalanceSheet)
    requires forall b :: Field(bs, b) == 0.0
    requires ClearDispatched(bs).(currentAssets := 0.0, currentLiabilities := 0.0, workingCapital := 0.0)
      == BalanceSheet()
    requires bs.currentAssets == ComponentSum(bs) && bs.currentLiabilities == bs.totalLiabilities
    requires bs.workingCapital == bs.currentAssets - bs.currentLiabilities
    ensures bs == BalanceSheet()
  {
    assert Field(bs, Assets) == 0.0;
    assert Field(bs, Liabilities) == 0.0;
    assert Field(bs, CashAndCashEquivalentsAtCarryingValue) == 0.0;
    assert Field(bs, InvestmentsInAffiliatesSubsidiariesAssociatesAndJointVentures) == 0.0;
    assert Field(bs, ReceivablesFromBrokersDealersAndClearingOrganizations) == 0.0;
    assert Field(bs, ReceivablesFromCustomers) == 0.0;
    assert Field(bs, FeesInterestAndOther) == 0.0;
    assert Field(bs, FinancialInstrumentsOwnedAtFairValue) == 0.0;
    assert Field(bs, CashAndSecuritiesSegregatedUnderFederalAndOtherRegulations) == 0.0;
    assert Field(bs, SecuritiesReceivedAsCollateral) == 0.0;
  }
}
