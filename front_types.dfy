/**
 * The shapes the front end keeps in its store (types/kyc.ts and
 * types/user.ts), reduced to the fields the modelled logic reads, and the
 * JavaScript `||` fallback its reducers use for error messages.
 */
module FrontTypes {
  import opened Wrappers
  import opened Common
  import opened KycEntity

  /** `KYCData`: a record as the client receives it from the `/kyc` routes. */
  datatype KycData = KycData(
    id: Option<Uuid>,
    userId: Option<Uuid>,
    incomes: seq<Entry<IncomeType>>,
    assets: seq<Entry<AssetType>>,
    liabilities: seq<Entry<LiabilityType>>,
    wealthSources: seq<Entry<WealthSourceType>>,
    investmentExperience: InvestmentExperience,
    riskTolerance: RiskTolerance,
    netWorth: int,
    status: KycStatus,
    reviewedAt: Option<Timestamp>,
    reviewedBy: Option<Uuid>)

  /** `User.kyc`: the summary of a user's record that comes with the user. */
  datatype KycSummary = KycSummary(id: Uuid, status: KycStatus)

  /** `User`, with the fields the route guard and the KYC page read. */
  datatype UserView = UserView(id: Uuid, username: string, role: Role, kyc: Option<KycSummary>)

  /**
   * `message || fallback`: the empty string is falsy, so an empty message
   * gives way to the fallback as a missing one does.
   */
  function OrElse(message: Option<string>, fallback: string): (r: string)
    ensures message.Some? && message.value != "" ==> r == message.value
    ensures message.None? || message.value == "" ==> r == fallback
    ensures fallback != "" ==> r != ""
  {
    if message.Some? && message.value != "" then message.value else fallback
  }
}
