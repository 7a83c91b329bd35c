/**
 * The pure part of the `/api/analyze` route: route the two uploaded files to
 * the detail and the specification extractor, merge the two resulting
 * dictionaries and add the narrative under 권리분석GPT.
 *
 * Parsing the HTML text and the text-generation call are outside the model;
 * they are the parameters `parseDetail`, `parseMemo` and `gpt` of `Analyze`.
 */
module Analysis {
  import opened Wrappers
  import opened Numbers
  import opened DetailExtraction
  import opened TenantExtraction

  /** The JSON-like values the route returns. */
  datatype Value =
    | Null
    | Str(text: string)
    | Int(number: int)
    | List(items: seq<Value>)
    | Object(fields: map<string, Value>)

  function OptStr(o: Option<string>): Value {
    match o
    case None => Null
    case Some(s) => Str(s)
  }

  function OptInt(o: Option<nat>): Value {
    match o
    case None => Null
    case Some(n) => Int(n)
  }

  const CaseNumberKey := "사건번호"
  const LocationKey := "소재지"
  const AppraisalKey := "감정가"
  const LowestPriceKey := "최저매각가"
  const SaleDateKey := "매각기일"
  const RemarksKey := "물건비고"
  const EstimateKey := "예상낙찰가"
  const TenantKey := "세입자정보"
  const NarrativeKey := "권리분석GPT"

  const DetailKeys: set<string> :=
    {CaseNumberKey, LocationKey, AppraisalKey, LowestPriceKey, SaleDateKey, RemarksKey, EstimateKey}

  function RangeValue(r: Range): Value {
    Object(map["하한" := OptStr(r.low), "상한" := OptStr(r.high)])
  }

  function EstimateValue(e: Estimate): Value {
    Object(map["실거주용" := RangeValue(e.residential), "투자용" := RangeValue(e.investment)])
  }

  /** The dictionary `extract_detail_info` returns. */
  function DetailDict(d: Detail): (m: map<string, Value>)
    ensures m.Keys == DetailKeys
    ensures m[EstimateKey].Object? && m[EstimateKey].fields.Keys == {"실거주용", "투자용"}
  {
    map[CaseNumberKey := OptStr(d.caseNumber),
        LocationKey := OptStr(d.location),
        AppraisalKey := OptInt(d.appraisal),
        LowestPriceKey := OptStr(d.lowestPrice),
        SaleDateKey := OptStr(d.saleDate),
        RemarksKey := OptStr(d.remarks),
        EstimateKey := EstimateValue(d.estimate)]
  }

  /** The 실거주용 and 투자용 blocks each hold their own 하한 and 상한. */
  lemma EstimateValueHolds(e: Estimate)
    ensures var v := EstimateValue(e);
      && v.Object? && v.fields.Keys == {"실거주용", "투자용"}
      && v.fields["실거주용"] == Object(map["하한" := OptStr(e.residential.low), "상한" := OptStr(e.residential.high)])
      && v.fields["투자용"] == Object(map["하한" := OptStr(e.investment.low), "상한" := OptStr(e.investment.high)])
  {
  }

  /** Each key of the detail dictionary holds its own field of the record. */
  lemma DetailDictFields(d: Detail)
    ensures var m := DetailDict(d);
      && m[CaseNumberKey] == OptStr(d.caseNumber)
      && m[LocationKey] == OptStr(d.location)
      && m[AppraisalKey] == OptInt(d.appraisal)
      && m[LowestPriceKey] == OptStr(d.lowestPrice)
      && m[SaleDateKey] == OptStr(d.saleDate)
      && m[RemarksKey] == OptStr(d.remarks)
      && m[EstimateKey] == EstimateValue(d.estimate)
  {
  }

  /** Each key of the detail dictionary holds what its own element id gives. */
  lemma DetailDictHolds(doc: Document)
    requires ExtractDetailInfo(doc).Success?
    ensures var m := DetailDict(ExtractDetailInfo(doc).value);
      && m[CaseNumberKey] == OptStr(Tx(doc, CaseNumberId))
      && m[LocationKey] == OptStr(Tx(doc, LocationId))
      && m[AppraisalKey] == OptInt(ToNum(Tx(doc, AppraisalId)).value)
      && m[LowestPriceKey] == OptStr(Tx(doc, LowestPriceId))
      && m[SaleDateKey] == OptStr(Tx(doc, SaleDateId))
      && m[RemarksKey] == OptStr(Tx(doc, RemarksId))
      && m[EstimateKey] == EstimateValue(EstimateOf(ToNum(Tx(doc, AppraisalId)).value))
  {
    DetailDictFields(ExtractDetailInfo(doc).value);
  }

  /** The five keys of a tenant record, each holding its own field. */
  lemma RecordValueHolds(t: TenantRecord)
    ensures RecordValue(t).Object?
    ensures RecordValue(t).fields.Keys == {"임차인", "전입일자", "확정일자", "보증금", "배당요구"}
    ensures RecordValue(t).fields["임차인"] == Str(t.tenant)
    ensures RecordValue(t).fields["전입일자"] == Str(t.moveInDate)
    ensures RecordValue(t).fields["확정일자"] == Str(t.fixedDate)
    ensures RecordValue(t).fields["보증금"] == Str(t.deposit)
    ensures RecordValue(t).fields["배당요구"] == Str(t.claimStatus)
  {
  }

  function RecordValue(t: TenantRecord): Value {
    Object(map["임차인" := Str(t.tenant), "전입일자" := Str(t.moveInDate), "확정일자" := Str(t.fixedDate),
               "보증금" := Str(t.deposit), "배당요구" := Str(t.claimStatus)])
  }

  /** The dictionary `extract_tenant_info` returns: one key, the list of records in order. */
  function TenantDict(records: seq<TenantRecord>): (m: map<string, Value>)
    ensures m.Keys == {TenantKey}
    ensures m[TenantKey].List? && |m[TenantKey].items| == |records|
    ensures forall k :: 0 <= k < |records| ==> m[TenantKey].items[k] == RecordValue(records[k])
  {
    map[TenantKey := List(seq(|records|, k requires 0 <= k < |records| => RecordValue(records[k])))]
  }

  /** `{**detail, **tenant}`: all keys of both, the tenant side winning on a shared key. */
  function Merge(detail: map<string, Value>, tenant: map<string, Value>): (m: map<string, Value>)
    ensures m.Keys == detail.Keys + tenant.Keys
    ensures forall k :: k in tenant ==> m[k] == tenant[k]
    ensures forall k :: k in detail && k !in tenant ==> m[k] == detail[k]
  {
    detail + tenant
  }

  /** The two extractors never produce the same key, so the merge loses nothing. */
  lemma MergeLosesNothing(d: Detail, records: seq<TenantRecord>)
    ensures var m := Merge(DetailDict(d), TenantDict(records));
      && m.Keys == DetailKeys + {TenantKey}
      && (forall k :: k in DetailKeys ==> m[k] == DetailDict(d)[k])
      && m[TenantKey] == TenantDict(records)[TenantKey]
      && NarrativeKey !in m
  {
    assert TenantKey !in DetailKeys && NarrativeKey !in DetailKeys;
  }

  /** Adding 권리분석GPT to the merged dictionary overwrites nothing. */
  lemma NarrativeAdded(d: Detail, records: seq<TenantRecord>, narrative: string)
    ensures var m := Merge(DetailDict(d), TenantDict(records))[NarrativeKey := Str(narrative)];
      && m.Keys == DetailKeys + {TenantKey, NarrativeKey}
      && (forall k :: k in DetailKeys ==> m[k] == DetailDict(d)[k])
      && m[TenantKey] == TenantDict(records)[TenantKey]
      && m[NarrativeKey] == Str(narrative)
  {
    MergeLosesNothing(d, records);
    assert NarrativeKey !in DetailKeys && NarrativeKey != TenantKey;
  }

  /** The dictionary of a page without elements: every field `None`, the estimate a block of `None`. */
  lemma EmptyDetailDict()
    ensures var m := DetailDict(Detail(None, None, None, None, None, None, Estimate(Range(None, None), Range(None, None))));
      && (forall k :: k in DetailKeys - {EstimateKey} ==> m[k] == Null)
      && m[EstimateKey] == EstimateValue(Estimate(Range(None, None), Range(None, None)))
  {
  }

  /** An uploaded file: its name and its content decoded as text. */
  datatype UploadedFile = UploadedFile(filename: string, content: string)

  /** `t` occurs in `s` at position `i`. */
  ghost predicate OccursAt(s: string, t: string, i: nat) {
    i + |t| <= |s| && s[i..i + |t|] == t
  }

  /** Python's `t in s` for strings: `t` occurs somewhere in `s`. */
  function Contains(s: string, t: string): (r: bool)
    ensures r <==> exists i: nat :: OccursAt(s, t, i)
  {
    if t <= s then
      assert OccursAt(s, t, 0);
      true
    else if |s| == 0 then
      assert forall i: nat :: !OccursAt(s, t, i);
      false
    else
      var r := Contains(s[1..], t);
      assert r ==> exists i: nat :: OccursAt(s, t, i) by {
        if r {
          var j: nat :| OccursAt(s[1..], t, j);
          assert s[1..][j..j + |t|] == s[j + 1..j + 1 + |t|];
          assert OccursAt(s, t, j + 1);
        }
      }
      assert (exists i: nat :: OccursAt(s, t, i)) ==> r by {
        if exists i: nat :: OccursAt(s, t, i) {
          var i: nat :| OccursAt(s, t, i);
          if i > 0 {
            assert s[1..][i - 1..i - 1 + |t|] == s[i..i + |t|];
            assert OccursAt(s[1..], t, i - 1);
          }
        }
      }
      r
  }

  const MemoMarker := "명세서"
  const LongMemoMarker := "물건명세서"

  /** Every text containing 물건명세서 contains 명세서. */
  lemma LongMarkerContainsMarker(s: string)
    ensures Contains(s, LongMemoMarker) ==> Contains(s, MemoMarker)
  {
    if Contains(s, LongMemoMarker) {
      var i: nat :| OccursAt(s, LongMemoMarker, i);
      assert s[i + 2..i + 5] == s[i..i + 5][2..5];
      assert OccursAt(s, MemoMarker, i + 2);
    }
  }

  /**
   * The routing test of `analyze`: a name containing either marker is the
   * specification page. The second marker is redundant, so this is the same
   * as containing 명세서.
   */
  function IsMemoName(name: string): (r: bool)
    ensures r <==> Contains(name, MemoMarker)
  {
    LongMarkerContainsMarker(name);
    Contains(name, MemoMarker) || Contains(name, LongMemoMarker)
  }

  /** The content of the last file of the given kind, or "" when there is none. */
  function LastContent(files: seq<UploadedFile>, memo: bool): string {
    if files == [] then ""
    else
      var last := files[|files| - 1];
      if IsMemoName(last.filename) == memo then last.content
      else LastContent(files[..|files| - 1], memo)
  }

  /** The `for` loop of `analyze` that assigns `detail_html` and `memo_html`. */
  method RouteFiles(files: seq<UploadedFile>) returns (detailHtml: string, memoHtml: string)
    ensures detailHtml == LastContent(files, false)
    ensures memoHtml == LastContent(files, true)
  {
    detailHtml, memoHtml := "", "";
    var i := 0;
    while i < |files|
      invariant 0 <= i <= |files|
      invariant detailHtml == LastContent(files[..i], false)
      invariant memoHtml == LastContent(files[..i], true)
    {
      var file := files[i];
      if Contains(file.filename, MemoMarker) || Contains(file.filename, LongMemoMarker) {
        memoHtml := file.content;
      } else {
        detailHtml := file.content;
      }
      assert files[..i + 1][..i] == files[..i];
      i := i + 1;
    }
    assert files[..i] == files;
  }

  /** A later file of a kind overwrites every earlier one of that kind. */
  lemma {:induction false} LastOfKindWins(files: seq<UploadedFile>, memo: bool, j: nat)
    requires j < |files| && IsMemoName(files[j].filename) == memo
    requires forall l :: j < l < |files| ==> IsMemoName(files[l].filename) != memo
    ensures LastContent(files, memo) == files[j].content
  {
    var n := |files| - 1;
    if j < n {
      var init := files[..n];
      assert init[j] == files[j];
      LastOfKindWins(init, memo, j);
    }
  }

  /** A kind no file has stays "". */
  lemma {:induction false} UnsetKindEmpty(files: seq<UploadedFile>, memo: bool)
    requires forall l :: 0 <= l < |files| ==> IsMemoName(files[l].filename) != memo
    ensures LastContent(files, memo) == ""
  {
    if files != [] {
      UnsetKindEmpty(files[..|files| - 1], memo);
    }
  }

  /** The outcome of the text-generation call: its (trimmed) answer, or the message of what it raised. */
  datatype GptOutcome = Answered(text: string) | Raised(message: string)

  const FailurePrefix := "GPT 분석 실패: "

  /** `analyze_with_gpt`: the answer, or the failure marker followed by the error message. */
  function Narrative(o: GptOutcome): (s: string)
    ensures o.Answered? ==> s == o.text
    ensures o.Raised? ==> FailurePrefix <= s && s[|FailurePrefix|..] == o.message
  {
    match o
    case Answered(text) => text
    case Raised(message) => FailurePrefix + message
  }

  /** The error responses of the route. */
  datatype AnalyzeError =
    | WrongFileCount(message: string)  // HTTP 400
    | DetailFailed(cause: NumError)    // the exception `to_num` raises

  const WrongFileCountMessage := "상세페이지와 매각물건명세서 HTML 2개를 업로드해야 합니다."

  /**
   * `analyze`, from the uploaded files to the returned dictionary. Any count of
   * files other than two is refused before anything is extracted. Otherwise
   * the result holds the seven detail keys with their extracted values, the
   * tenant list and the narrative, and nothing else. Parsing the empty text
   * gives a page without elements or tables, so a side no file was routed to
   * contributes `None` fields or an empty tenant list.
   */
  method Analyze(files: seq<UploadedFile>, parseDetail: string -> Document, parseMemo: string -> Table,
                 gpt: map<string, Value> -> GptOutcome)
    returns (r: Result<map<string, Value>, AnalyzeError>)
    requires parseDetail("") == map[]
    requires parseMemo("") == None
    ensures |files| != 2 ==> r == Failure(WrongFileCount(WrongFileCountMessage))
    ensures |files| == 2 ==>
      var detail := ExtractDetailInfo(parseDetail(LastContent(files, false)));
      var records := TenantInfo(parseMemo(LastContent(files, true)));
      && (detail.Failure? ==> r == Failure(DetailFailed(detail.error)))
      && (detail.Success? ==>
            && r.Success?
            && r.value.Keys == DetailKeys + {TenantKey, NarrativeKey}
            && (forall k :: k in DetailKeys ==> r.value[k] == DetailDict(detail.value)[k])
            && r.value[TenantKey] == TenantDict(records)[TenantKey]
            && r.value[NarrativeKey] == Str(Narrative(gpt(Merge(DetailDict(detail.value), TenantDict(records))))))
    ensures |files| == 2 && (forall l :: 0 <= l < |files| ==> IsMemoName(files[l].filename)) ==>
      && r.Success?
      && (forall k :: k in DetailKeys - {EstimateKey} ==> r.value[k] == Null)
      && r.value[EstimateKey] == EstimateValue(Estimate(Range(None, None), Range(None, None)))
    ensures |files| == 2 && (forall l :: 0 <= l < |files| ==> !IsMemoName(files[l].filename)) && r.Success? ==>
      r.value[TenantKey] == List([])
  {
    if |files| != 2 {
      return Failure(WrongFileCount(WrongFileCountMessage));
    }
    var detailHtml, memoHtml := RouteFiles(files);
    if forall l :: 0 <= l < |files| ==> IsMemoName(files[l].filename) {
      UnsetKindEmpty(files, false);
      EmptyPage();
      EmptyDetailDict();
    }
    if forall l :: 0 <= l < |files| ==> !IsMemoName(files[l].filename) {
      UnsetKindEmpty(files, true);
    }
    var detailInfo := ExtractDetailInfo(parseDetail(detailHtml));
    if detailInfo.Failure? {
      return Failure(DetailFailed(detailInfo.error));
    }
    var tenants := ExtractTenantInfo(parseMemo(memoHtml));
    var merged := Merge(DetailDict(detailInfo.value), TenantDict(tenants));
    var narrative := Narrative(gpt(merged));
    NarrativeAdded(detailInfo.value, tenants, narrative);
    merged := merged[NarrativeKey := Str(narrative)];
    return Success(merged);
  }

  /** With exactly two files, each side gets the later file of its kind, and an unset side is "". */
  lemma TwoFileRouting(a: UploadedFile, b: UploadedFile)
    ensures var files := [a, b];
      && LastContent(files, true) ==
           (if IsMemoName(b.filename) then b.content else if IsMemoName(a.filename) then a.content else "")
      && LastContent(files, false) ==
           (if !IsMemoName(b.filename) then b.content else if !IsMemoName(a.filename) then a.content else "")
  {
    var files := [a, b];
    assert files[..1] == [a] && files[1] == b;
    assert [a][..0] == [] && [a][0] == a;
    assert LastContent([a], true) == if IsMemoName(a.filename) then a.content else "";
    assert LastContent([a], false) == if !IsMemoName(a.filename) then a.content else "";
  }
}
