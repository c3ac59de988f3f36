/**
 * The normalized statement record. Every field defaults to Go's zero value
 * (0.0, "", an empty list, the zero time), so `BalanceSheet()` is the zero
 * balance sheet and `Statement()` the zero statement.
 */
module Financials {

  /** A point in time, as ticks since Go's zero time; `Time()` is the zero time. */
  datatype Time = Time(ticks: int := 0)

  datatype CompanyProfile = CompanyProfile(
    cik: string := "",
    cusips: seq<string> := [],
    primaryTicker: string := "",
    primaryExchange: string := "",
    figi: string := "",
    compositeFigi: string := "",
    shareClassFigi: string := "",
    name: string := "")

  datatype IncomeStatement = IncomeStatement(
    revenue: real := 0.0,
    costOfRevenue: real := 0.0,
    sellingAndGeneralAdminExp: real := 0.0,
    researchAndDevelExp: real := 0.0,
    opex: real := 0.0,
    interestExp: real := 0.0,
    taxExp: real := 0.0,
    netIncomeDiscontinuedOperations: real := 0.0,
    consolidatedIncome: real := 0.0,
    netIncomeNci: real := 0.0,
    preferredDividend: real := 0.0,
    netIncomeCommonStock: real := 0.0,
    eps: real := 0.0,
    epsDiluted: real := 0.0,
    sharesWeightedAvg: real := 0.0,
    sharesWeightedAvgDiluted: real := 0.0)

  /**
   * The last three fields are written by the parser but are not declared in
   * the record definition of financials.go; they are added here.
   */
  datatype BalanceSheet = BalanceSheet(
    cashAndEquiv: real := 0.0,
    totalInvestments: real := 0.0,
    currentInvestments: real := 0.0,
    nonCurrentInvestments: real := 0.0,
    totalAssets: real := 0.0,
    currentAssets: real := 0.0,
    nonCurrentAssets: real := 0.0,
    totalLiabilities: real := 0.0,
    currentLiabilities: real := 0.0,
    nonCurrentLiabilities: real := 0.0,
    totalDebt: real := 0.0,
    currentDebt: real := 0.0,
    nonCurrentDebt: real := 0.0,
    workingCapital: real := 0.0,
    deferredRevenue: real := 0.0,
    totalDeposits: real := 0.0,
    netPropertyPlantAndEquip: real := 0.0,
    inventoryShortTerm: real := 0.0,
    taxAssets: real := 0.0,
    taxLiabilities: real := 0.0,
    currentLoansReceivable: real := 0.0,
    receivablesFromBrokers: real := 0.0,
    receivablesFromCustomers: real := 0.0,
    receivablesFromOther: real := 0.0,
    totalReceivables: real := 0.0,
    totalPayables: real := 0.0,
    intangibles: real := 0.0,
    equity: real := 0.0,
    retainedEarnings: real := 0.0,
    accumulatedOtherComprehensiveIncome: real := 0.0,
    financialInstrumentsOwnedAtFairValue: real := 0.0,
    segregatedCash: real := 0.0,
    securitiesReceivedAsCollateral: real := 0.0)

  datatype CashFlow = CashFlow(
    capex: real := 0.0,
    netBusinessAcqDivestures: real := 0.0,
    netInvestmentAcqDivestures: real := 0.0,
    freeCashFlowPerShare: real := 0.0,
    netCashFlowFromFinancing: real := 0.0,
    totalIssuanceRepaymentDebt: real := 0.0,
    totalIssuanceRepaymentEquity: real := 0.0,
    commonDividend: real := 0.0,
    netCashFlowFromInvestments: real := 0.0,
    netCashFlowFromOperations: real := 0.0,
    effectOfForeignExchangeRateOnCash: real := 0.0,
    netCashFlow: real := 0.0,
    stockBasedCompensation: real := 0.0,
    depreciationAmortization: real := 0.0)

  datatype Statement = Statement(
    filingDate: Time := Time(),
    calendarDate: Time := Time(),
    processingDate: Time := Time(),
    formType: string := "",
    companyProfile: CompanyProfile := CompanyProfile(),
    incomeStatement: IncomeStatement := IncomeStatement(),
    balanceSheet: BalanceSheet := BalanceSheet(),
    cashFlow: CashFlow := CashFlow())
}
