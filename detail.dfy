/**
 * `extract_detail_info`: fixed-id lookups in the parsed detail page and the
 * price estimate derived from the appraisal value (감정가).
 *
 * The parsed page is abstracted as a map from element id to the trimmed text
 * of the first element carrying that id.
 */
module DetailExtraction {
  import opened Wrappers
  import opened Numbers

  /** Element id -> trimmed visible text of that element. */
  type Document = map<string, string>

  const CaseNumberId := "mf_wfm_mainFrame_spn_gdsDtlSrchUserCsNo"
  const LocationId := "mf_wfm_mainFrame_gen_lstSt_0_spn_gdsDtlSrchStCtt"
  const AppraisalId := "mf_wfm_mainFrame_spn_gdsDtlSrchAeeEvlAmt"
  const LowestPriceId := "mf_wfm_mainFrame_spn_gdsDtlSrchlwsDspsl"
  const SaleDateId := "mf_wfm_mainFrame_spn_gdsDtlSrchDspslDxdy"
  const RemarksId := "mf_wfm_mainFrame_spn_gdsDtlSrchRmk"

  /** Every id the extractor ever looks up. */
  const AnchorIds: set<string> := {CaseNumberId, LocationId, AppraisalId, LowestPriceId, SaleDateId, RemarksId}

  /** `tx(id)`: the element's text, or `None` when no element has that id. */
  function Tx(doc: Document, id: string): (r: Option<string>)
    ensures r == None <==> id !in doc
    ensures r.Some? ==> id in doc && r.value == doc[id]
  {
    if id in doc then Some(doc[id]) else None
  }

  /** One price range: 하한 (low) and 상한 (high), each a formatted amount or `None`. */
  datatype Range = Range(low: Option<string>, high: Option<string>)

  /** 예상낙찰가: 실거주용 (residential) and 투자용 (investment). */
  datatype Estimate = Estimate(residential: Range, investment: Range)

  /** `int(A * 0.9)` as the exact floor of 9A/10. */
  function ResidentialLow(a: nat): (r: nat)
    ensures r * 10 <= a * 9 < r * 10 + 10
  {
    a * 9 / 10
  }

  /** `int(A * 0.65)` as the exact floor of 65A/100. */
  function InvestmentLow(a: nat): (r: nat)
    ensures r * 100 <= a * 65 < r * 100 + 100
  {
    a * 65 / 100
  }

  /** `int(A * 0.8)` as the exact floor of 8A/10. */
  function InvestmentHigh(a: nat): (r: nat)
    ensures r * 10 <= a * 8 < r * 10 + 10
  {
    a * 8 / 10
  }

  /** The four bounds are ordered and none exceeds the appraisal value. */
  lemma BoundsOrdered(a: nat)
    ensures InvestmentLow(a) <= InvestmentHigh(a) <= ResidentialLow(a) <= a
  {
  }

  /** The first argument is truthy in Python: present and not zero. */
  predicate Truthy(appraisal: Option<nat>) {
    appraisal.Some? && appraisal.value != 0
  }

  /**
   * The 예상낙찰가 block. It is always present; with a falsy appraisal value
   * (`None` or 0) all four of its leaves are `None`.
   */
  function EstimateOf(appraisal: Option<nat>): (e: Estimate)
    ensures !Truthy(appraisal) ==> e == Estimate(Range(None, None), Range(None, None))
    ensures Truthy(appraisal) ==>
      e.residential.low.Some? && e.residential.high.Some? && e.investment.low.Some? && e.investment.high.Some?
  {
    if Truthy(appraisal) then
      var a := appraisal.value;
      Estimate(Range(Some(FormatWon(ResidentialLow(a))), Some(FormatWon(a))),
               Range(Some(FormatWon(InvestmentLow(a))), Some(FormatWon(InvestmentHigh(a)))))
    else
      Estimate(Range(None, None), Range(None, None))
  }

  /** Reads a leaf of the block back as a number, as `to_num` would. */
  function LeafValue(leaf: Option<string>): Option<nat> {
    match ToNum(leaf)
    case Success(v) => v
    case Failure(_) => None
  }

  /**
   * For a nonzero appraisal value A, the leaves read back as the exact floors
   * of 90% and 100% (residential), 65% and 80% (investment) of A, and each
   * leaf is `f"{x:,}원"` of its bound x; their order is `BoundsOrdered`.
   */
  lemma EstimateReadsBack(a: nat)
    requires a != 0
    ensures var e := EstimateOf(Some(a));
      && LeafValue(e.residential.low) == Some(ResidentialLow(a))
      && LeafValue(e.residential.high) == Some(a)
      && LeafValue(e.investment.low) == Some(InvestmentLow(a))
      && LeafValue(e.investment.high) == Some(InvestmentHigh(a))
      && e.residential.low.Some? && WonForm(e.residential.low.value, ResidentialLow(a))
      && e.residential.high.Some? && WonForm(e.residential.high.value, a)
      && e.investment.low.Some? && WonForm(e.investment.low.value, InvestmentLow(a))
      && e.investment.high.Some? && WonForm(e.investment.high.value, InvestmentHigh(a))
  {
    FormatWonIsWonForm(ResidentialLow(a));
    FormatWonIsWonForm(a);
    FormatWonIsWonForm(InvestmentLow(a));
    FormatWonIsWonForm(InvestmentHigh(a));
    FormatWonRoundTrip(ResidentialLow(a));
    FormatWonRoundTrip(a);
    FormatWonRoundTrip(InvestmentLow(a));
    FormatWonRoundTrip(InvestmentHigh(a));
  }

  /** The record `extract_detail_info` returns. */
  datatype Detail = Detail(
    caseNumber: Option<string>,   // 사건번호
    location: Option<string>,     // 소재지
    appraisal: Option<nat>,       // 감정가
    lowestPrice: Option<string>,  // 최저매각가
    saleDate: Option<string>,     // 매각기일
    remarks: Option<string>,      // 물건비고
    estimate: Estimate)           // 예상낙찰가

  /**
   * `extract_detail_info`. It raises only when the appraisal element exists
   * and its text is non-empty without a single digit; otherwise every text
   * field is the lookup of its own fixed id, 감정가 is `to_num` of the
   * appraisal text and the estimate is derived from 감정가 alone.
   */
  function ExtractDetailInfo(doc: Document): (r: Result<Detail, NumError>)
    ensures r.Failure? <==> AppraisalId in doc && doc[AppraisalId] != "" && !HasDigit(doc[AppraisalId])
    ensures r.Success? ==>
      && (r.value.caseNumber == None <==> CaseNumberId !in doc)
      && (r.value.location == None <==> LocationId !in doc)
      && (r.value.lowestPrice == None <==> LowestPriceId !in doc)
      && (r.value.saleDate == None <==> SaleDateId !in doc)
      && (r.value.remarks == None <==> RemarksId !in doc)
      && (r.value.appraisal == None <==> AppraisalId !in doc || doc[AppraisalId] == "")
      && (r.value.appraisal.Some? ==> r.value.appraisal.value == DigitsValue(KeepDigits(doc[AppraisalId])))
      && r.value.estimate == EstimateOf(r.value.appraisal)
  {
    match ToNum(Tx(doc, AppraisalId))
    case Failure(e) => Failure(e)
    case Success(appraisal) =>
      Success(Detail(
        Tx(doc, CaseNumberId),
        Tx(doc, LocationId),
        appraisal,
        Tx(doc, LowestPriceId),
        Tx(doc, SaleDateId),
        Tx(doc, RemarksId),
        EstimateOf(appraisal)))
  }

  /** The present text fields carry the element's text unchanged. */
  lemma PresentFieldsCarryText(doc: Document)
    requires ExtractDetailInfo(doc).Success?
    ensures var d := ExtractDetailInfo(doc).value;
      && (CaseNumberId in doc ==> d.caseNumber == Some(doc[CaseNumberId]))
      && (LocationId in doc ==> d.location == Some(doc[LocationId]))
      && (LowestPriceId in doc ==> d.lowestPrice == Some(doc[LowestPriceId]))
      && (SaleDateId in doc ==> d.saleDate == Some(doc[SaleDateId]))
      && (RemarksId in doc ==> d.remarks == Some(doc[RemarksId]))
  {
  }

  /** Only the fixed ids matter: elements with any other id never change the result. */
  lemma OnlyAnchorsMatter(doc: Document, other: Document)
    requires forall id :: id in AnchorIds ==> (id in doc <==> id in other)
    requires forall id :: id in AnchorIds && id in doc ==> doc[id] == other[id]
    ensures ExtractDetailInfo(doc) == ExtractDetailInfo(other)
  {
  }

  /** A page without any element, as parsing the empty text gives: every field is `None`. */
  lemma EmptyPage()
    ensures ExtractDetailInfo(map[])
         == Success(Detail(None, None, None, None, None, None, Estimate(Range(None, None), Range(None, None))))
  {
  }
}
