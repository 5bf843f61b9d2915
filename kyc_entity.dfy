/**
 * The KYC record as stored (kyc.entity.ts): its enumerations, the typed
 * disclosure entries, and the hook that recomputes the net worth before
 * every insert and update.
 */
module KycEntity {
  import opened Wrappers
  import opened Common

  datatype InvestmentExperience = LessThan5Years | Between5And10Years | MoreThan10Years {
    function Name(): string {
      match this
      case LessThan5Years => "LESS_THAN_5_YEARS"
      case Between5And10Years => "BETWEEN_5_AND_10_YEARS"
      case MoreThan10Years => "MORE_THAN_10_YEARS"
    }
  }

  datatype RiskTolerance = TenPercent | ThirtyPercent | AllIn {
    function Name(): string {
      match this
      case TenPercent => "TEN_PERCENT"
      case ThirtyPercent => "THIRTY_PERCENT"
      case AllIn => "ALL_IN"
    }
  }

  datatype KycStatus = Pending | Approved | Rejected {
    function Name(): string {
      match this
      case Pending => "PENDING"
      case Approved => "APPROVED"
      case Rejected => "REJECTED"
    }
  }

  datatype IncomeType = Salary | Investment | OtherIncome {
    function Name(): string {
      match this
      case Salary => "SALARY"
      case Investment => "INVESTMENT"
      case OtherIncome => "OTHERS"
    }
  }

  datatype AssetType = Bond | Liquidity | RealEstate | OtherAsset {
    function Name(): string {
      match this
      case Bond => "BOND"
      case Liquidity => "LIQUIDITY"
      case RealEstate => "REAL_ESTATE"
      case OtherAsset => "OTHERS"
    }
  }

  datatype LiabilityType = Loan | RealEstateLoan | OtherLiability {
    function Name(): string {
      match this
      case Loan => "LOAN"
      case RealEstateLoan => "REAL_ESTATE_LOAN"
      case OtherLiability => "OTHERS"
    }
  }

  datatype WealthSourceType = Inheritance | Donation {
    function Name(): string {
      match this
      case Inheritance => "INHERITANCE"
      case Donation => "DONATION"
    }
  }

  /** The enumeration members each string denotes (the check `IsEnum` makes). */
  function ParseInvestmentExperience(s: string): (r: Option<InvestmentExperience>)
    ensures forall x: InvestmentExperience :: r == Some(x) <==> x.Name() == s
  {
    if s == "LESS_THAN_5_YEARS" then Some(LessThan5Years)
    else if s == "BETWEEN_5_AND_10_YEARS" then Some(Between5And10Years)
    else if s == "MORE_THAN_10_YEARS" then Some(MoreThan10Years)
    else None
  }

  function ParseRiskTolerance(s: string): (r: Option<RiskTolerance>)
    ensures forall x: RiskTolerance :: r == Some(x) <==> x.Name() == s
  {
    if s == "TEN_PERCENT" then Some(TenPercent)
    else if s == "THIRTY_PERCENT" then Some(ThirtyPercent)
    else if s == "ALL_IN" then Some(AllIn)
    else None
  }

  function ParseKycStatus(s: string): (r: Option<KycStatus>)
    ensures forall x: KycStatus :: r == Some(x) <==> x.Name() == s
  {
    if s == "PENDING" then Some(Pending)
    else if s == "APPROVED" then Some(Approved)
    else if s == "REJECTED" then Some(Rejected)
    else None
  }

  function ParseIncomeType(s: string): (r: Option<IncomeType>)
    ensures forall x: IncomeType :: r == Some(x) <==> x.Name() == s
  {
    if s == "SALARY" then Some(Salary)
    else if s == "INVESTMENT" then Some(Investment)
    else if s == "OTHERS" then Some(OtherIncome)
    else None
  }

  function ParseAssetType(s: string): (r: Option<AssetType>)
    ensures forall x: AssetType :: r == Some(x) <==> x.Name() == s
  {
    if s == "BOND" then Some(Bond)
    else if s == "LIQUIDITY" then Some(Liquidity)
    else if s == "REAL_ESTATE" then Some(RealEstate)
    else if s == "OTHERS" then Some(OtherAsset)
    else None
  }

  function ParseLiabilityType(s: string): (r: Option<LiabilityType>)
    ensures forall x: LiabilityType :: r == Some(x) <==> x.Name() == s
  {
    if s == "LOAN" then Some(Loan)
    else if s == "REAL_ESTATE_LOAN" then Some(RealEstateLoan)
    else if s == "OTHERS" then Some(OtherLiability)
    else None
  }

  function ParseWealthSourceType(s: string): (r: Option<WealthSourceType>)
    ensures forall x: WealthSourceType :: r == Some(x) <==> x.Name() == s
  {
    if s == "INHERITANCE" then Some(Inheritance)
    else if s == "DONATION" then Some(Donation)
    else None
  }

  /** Column defaults of the `kyc` table. */
  const DefaultInvestmentExperience: InvestmentExperience := LessThan5Years
  const DefaultRiskTolerance: RiskTolerance := TenPercent
  const DefaultStatus: KycStatus := Pending

  /** One income, asset, liability or wealth source; amounts are in cents. */
  datatype Entry<K> = Entry(kind: K, amount: int, description: Option<string>)

  /** `entries.reduce((sum, e) => sum + e.amount, 0)`, folded from the left. */
  function Total<K>(entries: seq<Entry<K>>): int {
    if entries == [] then 0
    else Total(entries[..|entries| - 1]) + entries[|entries| - 1].amount
  }

  lemma {:induction false} TotalAppend<K>(a: seq<Entry<K>>, b: seq<Entry<K>>)
    ensures Total(a + b) == Total(a) + Total(b)
  {
    if b == [] {
      assert a + b == a;
    } else {
      assert (a + b)[..|a + b| - 1] == a + b[..|b| - 1];
      TotalAppend(a, b[..|b| - 1]);
    }
  }

  /** A row of the `kyc` table. */
  datatype KycRecord = KycRecord(
    id: Uuid,
    owner: Uuid,
    incomes: seq<Entry<IncomeType>>,
    assets: seq<Entry<AssetType>>,
    liabilities: seq<Entry<LiabilityType>>,
    wealthSources: seq<Entry<WealthSourceType>>,
    investmentExperience: InvestmentExperience,
    riskTolerance: RiskTolerance,
    netWorth: int,
    status: KycStatus,
    reviewedAt: Option<Timestamp>,
    reviewedBy: Option<Uuid>,
    rejectReason: Option<string>)

  /** The net worth the hook derives: total assets less total liabilities. */
  function NetWorthOf(k: KycRecord): int {
    Total(k.assets) - Total(k.liabilities)
  }

  /**
   * `calculateNetWorth`, run before every insert and update: it overwrites
   * `netWorth` and leaves every other column as it was.
   */
  function CalculateNetWorth(k: KycRecord): (r: KycRecord)
    ensures r.netWorth == Total(k.assets) - Total(k.liabilities)
    ensures r.(netWorth := k.netWorth) == k
  {
    k.(netWorth := NetWorthOf(k))
  }

  /** Incomes, wealth sources and any supplied net worth never influence the result. */
  lemma NetWorthDependsOnlyOnAssetsAndLiabilities(k: KycRecord, k': KycRecord)
    requires k.assets == k'.assets && k.liabilities == k'.liabilities
    ensures CalculateNetWorth(k).netWorth == CalculateNetWorth(k').netWorth
  {
  }

  /** Whatever net worth the caller put on the record is replaced. */
  lemma SuppliedNetWorthOverwritten(k: KycRecord, supplied: int)
    ensures CalculateNetWorth(k.(netWorth := supplied)) == CalculateNetWorth(k)
    ensures CalculateNetWorth(CalculateNetWorth(k)) == CalculateNetWorth(k)
  {
  }

  /** Declaring one more asset raises the net worth by its amount. */
  lemma NetWorthOfAddedAsset(k: KycRecord, a: Entry<AssetType>)
    ensures NetWorthOf(k.(assets := k.assets + [a])) == NetWorthOf(k) + a.amount
  {
    TotalAppend(k.assets, [a]);
    assert Total([a]) == Total([a][..0]) + a.amount;
  }

  /** Declaring one more liability lowers the net worth by its amount. */
  lemma NetWorthOfAddedLiability(k: KycRecord, l: Entry<LiabilityType>)
    ensures NetWorthOf(k.(liabilities := k.liabilities + [l])) == NetWorthOf(k) - l.amount
  {
    TotalAppend(k.liabilities, [l]);
    assert Total([l]) == Total([l][..0]) + l.amount;
  }

  /** `netWorth` is a `numeric(15,2)` column: at most 15 digits of cents. */
  const NetWorthPrecision: nat := 15

  function Pow10(n: nat): (r: nat)
    ensures r >= 1
  {
    if n == 0 then 1 else 10 * Pow10(n - 1)
  }

  predicate FitsNetWorthColumn(cents: int) {
    0 - Pow10(NetWorthPrecision) as int < cents < Pow10(NetWorthPrecision)
  }

  /** The record the seed script stores for its first user, amounts in cents. */
  function SeededRecord(owner: Uuid): KycRecord {
    KycRecord(
      0, owner,
      [Entry(Salary, 9500000, Some("Annual salary from Tech Corp")),
       Entry(Investment, 1500000, Some("Stock market returns"))],
      [Entry(Bond, 5000000, Some("Government bonds")),
       Entry(RealEstate, 30000000, Some("Primary residence"))],
      [Entry(RealEstateLoan, 20000000, Some("Mortgage"))],
      [Entry(Inheritance, 10000000, Some("Family inheritance"))],
      Between5And10Years, ThirtyPercent, 0, Pending, None, None, None)
  }

  /** Assets 50000 + 300000 less liabilities 200000 store a net worth of 150000. */
  lemma SeededNetWorth(owner: Uuid)
    ensures CalculateNetWorth(SeededRecord(owner)).netWorth == 15000000
    ensures FitsNetWorthColumn(CalculateNetWorth(SeededRecord(owner)).netWorth)
  {
    var k := SeededRecord(owner);
    assert Total(k.assets) == 35000000 by {
      assert k.assets[..1][..0] == [];
      assert Total(k.assets[..1]) == 5000000;
    }
    assert Total(k.liabilities) == 20000000 by {
      assert k.liabilities[..0] == [];
    }
  }
}
