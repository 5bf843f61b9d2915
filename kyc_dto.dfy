/**
 * The request bodies of the KYC routes (create-kyc.dto.ts, reject-kyc.dto.ts):
 * the validation rules as a predicate over the JSON body, and the typed
 * value the service receives once validation passed.
 */
module KycDto {
  import opened Wrappers
  import opened KycEntity

  /** A JSON value as it arrives in a request body; numbers are in cents. */
  datatype Json =
    | JNull
    | JBool(b: bool)
    | JNumber(n: int)
    | JString(s: string)
    | JArray(items: seq<Json>)
    | JObject(fields: map<string, Json>)

  /** `obj[key]`, where a missing key reads as `undefined`. */
  function Get(obj: map<string, Json>, key: string): Option<Json> {
    if key in obj then Some(obj[key]) else None
  }

  /** `IsOptional`: the property is `undefined` or `null`, so its other rules are skipped. */
  predicate Omitted(v: Option<Json>) {
    v.None? || v.value.JNull?
  }

  /** `IsEnum([...])` on a string-valued union: `v` is one of the listed names. */
  predicate IsEnumMember<K>(v: Option<Json>, parse: string -> Option<K>) {
    v.Some? && v.value.JString? && parse(v.value.s).Some?
  }

  /**
   * The rules of IncomeDto, AssetDto, LiabilityDto and WealthSourceDto:
   * `type` in its enumeration, `amount` any number (no sign or range check),
   * `description` absent or a string.
   */
  predicate ValidEntry<K>(v: Json, parse: string -> Option<K>) {
    && v.JObject?
    && IsEnumMember(Get(v.fields, "type"), parse)
    && Get(v.fields, "amount").Some? && Get(v.fields, "amount").value.JNumber?
    && (Omitted(Get(v.fields, "description")) || Get(v.fields, "description").value.JString?)
  }

  /** `IsArray`, `ValidateNested({ each: true })` and, when `minSize > 0`, `ArrayMinSize(minSize)`. */
  predicate ValidEntryList<K>(v: Option<Json>, parse: string -> Option<K>, minSize: nat) {
    && v.Some? && v.value.JArray?
    && |v.value.items| >= minSize
    && forall i :: 0 <= i < |v.value.items| ==> ValidEntry(v.value.items[i], parse)
  }

  /** Every rule of CreateKycDto. */
  predicate ValidCreateKycDto(body: map<string, Json>) {
    && ValidEntryList(Get(body, "incomes"), ParseIncomeType, 1)
    && ValidEntryList(Get(body, "assets"), ParseAssetType, 1)
    && ValidEntryList(Get(body, "liabilities"), ParseLiabilityType, 0)
    && ValidEntryList(Get(body, "wealthSources"), ParseWealthSourceType, 0)
    && IsEnumMember(Get(body, "investmentExperience"), ParseInvestmentExperience)
    && IsEnumMember(Get(body, "riskTolerance"), ParseRiskTolerance)
  }

  /** A validated disclosure, restricted to the keys CreateKycDto declares. */
  datatype CreateKycDto = CreateKycDto(
    incomes: seq<Entry<IncomeType>>,
    assets: seq<Entry<AssetType>>,
    liabilities: seq<Entry<LiabilityType>>,
    wealthSources: seq<Entry<WealthSourceType>>,
    investmentExperience: InvestmentExperience,
    riskTolerance: RiskTolerance)

  /**
   * The body of PATCH /kyc/:id: every CreateKycDto key is optional and only
   * the present ones are copied onto the record.
   */
  datatype UpdateKycDto = UpdateKycDto(
    incomes: Option<seq<Entry<IncomeType>>>,
    assets: Option<seq<Entry<AssetType>>>,
    liabilities: Option<seq<Entry<LiabilityType>>>,
    wealthSources: Option<seq<Entry<WealthSourceType>>>,
    investmentExperience: Option<InvestmentExperience>,
    riskTolerance: Option<RiskTolerance>)

  /** The validation failure the pipe reports as 400 Bad Request. */
  datatype ValidationError = ValidationError

  function ToEntry<K>(v: Json, parse: string -> Option<K>): (e: Entry<K>)
    requires ValidEntry(v, parse)
    ensures Some(e.kind) == parse(v.fields["type"].s)
    ensures e.amount == v.fields["amount"].n
    ensures e.description.Some? <==> !Omitted(Get(v.fields, "description"))
    ensures e.description.Some? ==> e.description.value == v.fields["description"].s
  {
    var d := Get(v.fields, "description");
    Entry(parse(v.fields["type"].s).value, v.fields["amount"].n,
          if Omitted(d) then None else Some(d.value.s))
  }

  function ToEntries<K>(items: seq<Json>, parse: string -> Option<K>): (es: seq<Entry<K>>)
    requires forall i :: 0 <= i < |items| ==> ValidEntry(items[i], parse)
    ensures |es| == |items|
    ensures forall i :: 0 <= i < |items| ==> es[i] == ToEntry(items[i], parse)
  {
    if items == [] then [] else [ToEntry(items[0], parse)] + ToEntries(items[1..], parse)
  }

  /**
   * The validation pipe followed by the typed view of the body: it succeeds
   * exactly when every rule holds, and then keeps each list entry by entry.
   */
  function ParseCreateKycDto(body: map<string, Json>): (r: Result<CreateKycDto, ValidationError>)
    ensures r.Ok? <==> ValidCreateKycDto(body)
    ensures r.Ok? ==> |r.value.incomes| == |body["incomes"].items| >= 1
    ensures r.Ok? ==> |r.value.assets| == |body["assets"].items| >= 1
    ensures r.Ok? ==> |r.value.liabilities| == |body["liabilities"].items|
    ensures r.Ok? ==> |r.value.wealthSources| == |body["wealthSources"].items|
    ensures r.Ok? ==> r.value.incomes == ToEntries(body["incomes"].items, ParseIncomeType)
    ensures r.Ok? ==> r.value.assets == ToEntries(body["assets"].items, ParseAssetType)
    ensures r.Ok? ==> r.value.liabilities == ToEntries(body["liabilities"].items, ParseLiabilityType)
    ensures r.Ok? ==> r.value.wealthSources == ToEntries(body["wealthSources"].items, ParseWealthSourceType)
    ensures r.Ok? ==> r.value.investmentExperience.Name() == body["investmentExperience"].s
    ensures r.Ok? ==> r.value.riskTolerance.Name() == body["riskTolerance"].s
  {
    if !ValidCreateKycDto(body) then Err(ValidationError)
    else
      Ok(CreateKycDto(
        ToEntries(body["incomes"].items, ParseIncomeType),
        ToEntries(body["assets"].items, ParseAssetType),
        ToEntries(body["liabilities"].items, ParseLiabilityType),
        ToEntries(body["wealthSources"].items, ParseWealthSourceType),
        ParseInvestmentExperience(body["investmentExperience"].s).value,
        ParseRiskTolerance(body["riskTolerance"].s).value))
  }

  /** A body holding an asset of the given amount and nothing else that could fail. */
  function SampleBody(assetAmount: int, liabilities: seq<Json>, incomes: seq<Json>): map<string, Json> {
    map[
      "incomes" := JArray(incomes),
      "assets" := JArray([JObject(map["type" := JString("BOND"), "amount" := JNumber(assetAmount)])]),
      "liabilities" := JArray(liabilities),
      "wealthSources" := JArray([]),
      "investmentExperience" := JString("LESS_THAN_5_YEARS"),
      "riskTolerance" := JString("ALL_IN")]
  }

  /**
   * A negative amount, empty liabilities and empty wealth sources, and a null
   * description all pass; an empty income list does not.
   */
  lemma ValidationEdgeCases()
    ensures ParseCreateKycDto(SampleBody(-500, [], [JObject(map["type" := JString("SALARY"),
      "amount" := JNumber(100), "description" := JNull])])).Ok?
    ensures ParseCreateKycDto(SampleBody(500, [], [])).Err?
    ensures ParseCreateKycDto(SampleBody(500, [JObject(map["type" := JString("BOND"),
      "amount" := JNumber(1)])], [JObject(map["type" := JString("SALARY"), "amount" := JNumber(1)])])).Err?
  {
    var income := JObject(map["type" := JString("SALARY"), "amount" := JNumber(100), "description" := JNull]);
    var b1 := SampleBody(-500, [], [income]);
    assert ValidEntry(income, ParseIncomeType);
    assert ValidEntry(b1["assets"].items[0], ParseAssetType);
    assert ValidCreateKycDto(b1);
    var bad := JObject(map["type" := JString("BOND"), "amount" := JNumber(1)]);
    assert !ValidEntry(bad, ParseLiabilityType);
  }

  /** RejectKycDto: `reason` is a non-empty string. */
  predicate ValidRejectReason(reason: string) {
    reason != ""
  }
}
