# Court-auction listing analysis: extraction and derivation layer

A Dafny model of the extraction layer of `backend/analyze_backend.py`, the
backend of a court-auction listing assistant. From two uploaded HTML pages it
builds one dictionary:

- from the **detail page**, six fields read from fixed element ids (사건번호,
  소재지, 감정가, 최저매각가, 매각기일, 물건비고) and the price estimate
  예상낙찰가, derived from the appraisal value 감정가;
- from the **sale-object specification page** (매각물건명세서), the tenant rows
  of its first table, under 세입자정보;
- a narrative from a text-generation service, under 권리분석GPT.

Modules, one per part of the source:

- `Wrappers`: `Option` stands for Python's `None`, `Result` for a raised exception.
- `Numbers`: `to_num` (keep the ASCII digits, read them in base 10) and the
  `f"{n:,}원"` formatter. The main result is the round trip `to_num(f"{n:,}원") == n`.
- `DetailExtraction`: the detail page as a map from element id to trimmed
  text, `tx`, the estimate block and `extract_detail_info`.
- `TenantExtraction`: the first table as an optional sequence of rows of cell
  texts, and the loop of `extract_tenant_info` as a method proved against a
  specification function.
- `Analysis`: the JSON-like values the route returns, the routing loop over the
  uploaded files, the dictionary merge and the narrative key of `analyze`.

Where the code departs from what its names suggest, the model follows the code:

- The estimate block is always present. With no appraisal value, or a value
  of 0 (which Python treats as false), its four leaves are `None`. It is
  never `None` itself.
- `to_num` raises on a non-empty text with no digit, because `int('')` fails.
  The whole request then fails. This is modelled as `Failure(NoDigits(..))`,
  and `Analyze` passes it on as `DetailFailed`.
- The route refuses any number of files other than two. It answers with
  HTTP 400 and a fixed message before extracting anything.

## Model

| member | source | states |
|---|---|---|
| `Numbers.KeepDigits` | backend/analyze_backend.py:19 | the filtered text holds only digits, is no longer than the input, and is empty exactly when the input has no digit |
| `Numbers.KeepDigitsConcat` | backend/analyze_backend.py:19 | filtering distributes over concatenation, so the digits keep their order |
| `Numbers.KeepDigitsOfDigits` | backend/analyze_backend.py:19 | a text made only of digits comes out of the filter unchanged |
| `Numbers.DigitsValue` | backend/analyze_backend.py:19 | `int()` of a string of k digits (leading zeros allowed) is a natural number below 10^k |
| `Numbers.ToNum` | backend/analyze_backend.py:18-19 | `None` and `""` give `None`; a non-empty text with no digit raises; any other text gives the base-10 value of its digits in order |
| `Numbers.ShowNat` | backend/analyze_backend.py:31-36 | the decimal form is non-empty, all digits, and reads back as the number; it starts with 0 only when it is exactly "0" |
| `Numbers.Grouped` | backend/analyze_backend.py:31-36 | `f"{n:,}"` has a leading group of 1-3 digits, then groups of a comma and three digits; it starts with 0 only when it is exactly "0" |
| `Numbers.FormatWon` | backend/analyze_backend.py:31-36 | `f"{n:,}원"` ends in 원 and is grouped in threes before it; it starts with 0 only when it is exactly "0원" |
| `Numbers.GroupedDigits` | backend/analyze_backend.py:31-36 | removing the commas of `f"{n:,}"` leaves exactly the decimal form of n |
| `Numbers.FormatWonIsWonForm` | backend/analyze_backend.py:31-36 | `f"{n:,}원"` is a 원-terminated, comma-grouped text whose digits are exactly the decimal form of n |
| `Numbers.FormatWonRoundTrip` | backend/analyze_backend.py:18-19 | for every n >= 0, `to_num(f"{n:,}원") == n` |
| `Numbers.ToNumExample` | backend/analyze_backend.py:18-19 | `to_num("12,345원")` is 12345 |
| `DetailExtraction.Tx` | backend/analyze_backend.py:14-16 | `tx(id)` is `None` exactly when no element has the id, and otherwise that element's text |
| `DetailExtraction.ResidentialLow` | backend/analyze_backend.py:31 | `int(A * 0.9)` is the floor of 9A/10: r·10 <= 9A < r·10 + 10 |
| `DetailExtraction.InvestmentLow` | backend/analyze_backend.py:35 | `int(A * 0.65)` is the floor of 65A/100: r·100 <= 65A < r·100 + 100 |
| `DetailExtraction.InvestmentHigh` | backend/analyze_backend.py:36 | `int(A * 0.8)` is the floor of 8A/10: r·10 <= 8A < r·10 + 10 |
| `DetailExtraction.Truthy` | backend/analyze_backend.py:31-36 | `if 감정가`: the value is present and not 0 |
| `DetailExtraction.BoundsOrdered` | backend/analyze_backend.py:31-36 | floor(65A/100) <= floor(8A/10) <= floor(9A/10) <= A |
| `DetailExtraction.EstimateOf` | backend/analyze_backend.py:29-38 | the block is always there; for `None` or 0 all four leaves are `None`, otherwise all four are present |
| `DetailExtraction.EstimateReadsBack` | backend/analyze_backend.py:29-37 | for A != 0 each leaf is `f"{x:,}원"` of its own bound x (ends in 원, grouped in threes, digits equal to the decimal form of x), and reads back through `to_num` as that bound: `ResidentialLow(A)` and A (residential), `InvestmentLow(A)` and `InvestmentHigh(A)` (investment) |
| `DetailExtraction.ExtractDetailInfo` | backend/analyze_backend.py:21-39 | fails exactly when the appraisal text is non-empty without a digit; each text field is `None` exactly when its own id is missing; 감정가 is the value of the appraisal text's digits; the estimate derives from 감정가 |
| `DetailExtraction.PresentFieldsCarryText` | backend/analyze_backend.py:22-28 | a field whose id is present carries that element's text unchanged |
| `DetailExtraction.OnlyAnchorsMatter` | backend/analyze_backend.py:21-28 | two pages that agree on the six fixed ids give the same result |
| `DetailExtraction.EmptyPage` | backend/analyze_backend.py:14-39 | a page with no element gives every field `None` and a block of `None` leaves, without raising |
| `TenantExtraction.RecordOf` | backend/analyze_backend.py:52-58 | the record's fields, in the key order 임차인, 전입일자, 확정일자, 보증금, 배당요구, are exactly cells 0-4 |
| `TenantExtraction.ExtraCellsIgnored` | backend/analyze_backend.py:52-58 | a record uses only cells 0-4; cells after the fifth never change it |
| `TenantExtraction.DataRows` | backend/analyze_backend.py:48 | the header row is dropped: one row fewer (none of an empty table), the rest in order |
| `TenantExtraction.ExtractTenantInfo` | backend/analyze_backend.py:42-60 | the loop returns exactly the specified records of the table |
| `TenantExtraction.KeptPositions` | backend/analyze_backend.py:49-51 | the positions of the rows with at least five cells, strictly increasing, and each such row is listed |
| `TenantExtraction.RecordsAreKeptRows` | backend/analyze_backend.py:49-58 | one record per row with at least five cells; the k-th record is built from the k-th such row, so row order is kept |
| `TenantExtraction.RecordsBound` | backend/analyze_backend.py:49-58 | no more records than data rows |
| `TenantExtraction.RecordsExtremes` | backend/analyze_backend.py:49-58 | when every row has five cells, one record per row; when none has, no record |
| `TenantExtraction.RecordsConcat` | backend/analyze_backend.py:49-58 | the records of consecutive stretches of rows are concatenated |
| `TenantExtraction.TenantInfo` | backend/analyze_backend.py:44-60 | no table gives `[]`; with a table there are at most max(0, rows - 1) records |
| `TenantExtraction.TenantInfoSkipsHeader` | backend/analyze_backend.py:48 | with a table, the records are those of the rows after the first |
| `TenantExtraction.HeaderIgnored` | backend/analyze_backend.py:48 | the first row never contributes |
| `TenantExtraction.ShortRowDropped` | backend/analyze_backend.py:49-58 | a header, a 4-cell row and a 5-cell row give exactly the record of the 5-cell row |
| `Analysis.DetailDict` | backend/analyze_backend.py:22-39 | the detail dictionary has exactly the seven keys, and 예상낙찰가 is a nested 실거주용/투자용 dictionary |
| `Analysis.EstimateValueHolds` | backend/analyze_backend.py:29-38 | 예상낙찰가 has exactly the keys 실거주용 and 투자용, each a 하한/상한 dictionary holding its own estimate bound |
| `Analysis.DetailDictFields` | backend/analyze_backend.py:22-39 | each of the seven keys holds its own field of the detail record |
| `Analysis.DetailDictHolds` | backend/analyze_backend.py:21-39 | for a page that parses, each key holds what its own element id gives: the text of that id, 감정가 the `to_num` of the appraisal text, 예상낙찰가 the estimate of that value |
| `Analysis.RecordValueHolds` | backend/analyze_backend.py:52-58 | a tenant record is a dictionary of exactly the five keys, each holding its own cell text |
| `Analysis.TenantDict` | backend/analyze_backend.py:60 | the tenant dictionary has the single key 세입자정보, holding the records in order |
| `Analysis.Merge` | backend/analyze_backend.py:116 | `{**detail, **tenant}` holds every key of both; the tenant side wins on a shared key |
| `Analysis.MergeLosesNothing` | backend/analyze_backend.py:113-116 | the two sides never share a key, so every detail value and the tenant list survive, and 권리분석GPT is not yet present |
| `Analysis.NarrativeAdded` | backend/analyze_backend.py:116-117 | adding 권리분석GPT overwrites no detail or tenant key; the result has exactly those keys plus 권리분석GPT |
| `Analysis.Contains` | backend/analyze_backend.py:108 | Python's `t in s`: true exactly when `t` occurs in `s` at some position |
| `Analysis.LongMarkerContainsMarker` | backend/analyze_backend.py:108 | every text containing 물건명세서 contains 명세서 |
| `Analysis.IsMemoName` | backend/analyze_backend.py:108 | the test `"명세서" in name or "물건명세서" in name` holds exactly when 명세서 occurs in the name |
| `Analysis.EmptyDetailDict` | backend/analyze_backend.py:22-39 | the dictionary of an empty detail page has `None` in every field and a nested block of `None` leaves |
| `Analysis.RouteFiles` | backend/analyze_backend.py:102-111 | the loop leaves each side holding the last file of its kind, or "" |
| `Analysis.LastOfKindWins` | backend/analyze_backend.py:105-111 | a file of one kind with no later file of that kind is the one that side keeps |
| `Analysis.UnsetKindEmpty` | backend/analyze_backend.py:102-103 | a side with no file of its kind stays "" |
| `Analysis.TwoFileRouting` | backend/analyze_backend.py:105-111 | for two files, all four memo/detail combinations of where each one goes |
| `Analysis.Narrative` | backend/analyze_backend.py:89-91 | the answer on success; on failure the marker `GPT 분석 실패: ` followed by the error message |
| `Analysis.Analyze` | backend/analyze_backend.py:96-119 | not two files: the fixed 400 error. A failing appraisal parse fails the request. Otherwise the result has exactly the seven detail keys with their values, 세입자정보 and 권리분석GPT, the narrative computed from the merged dictionary. With two specification files every detail field is `None` and the estimate block holds `None` leaves; with two detail files 세입자정보 is `[]` |

## Left out

- HTML parsing (BeautifulSoup) is not modelled. The detail page is given as a map from element id to the trimmed text of the first element with that id. The specification page is given as its first table, or none, as rows of trimmed `td` texts. `get_text(strip=True)` whitespace rules and `find_all("tr")` reaching into nested tables belong to that library. In `Analyze` the parsers are the parameters `parseDetail` and `parseMemo`; the only property required of them is what the library does with the empty text (no element, no table).
- Floating point: `int(A * 0.9)`, `int(A * 0.65)` and `int(A * 0.8)` are modelled as exact integer floors (`ResidentialLow`, `InvestmentLow`, `InvestmentHigh`). The doubles 0.9, 0.65 and 0.8 are not exact and the product is rounded to a double. Python's result can then be off by one from the exact floor from about A = 2^49 (for example A = 866,076,851,417,423 with 0.65), and off by more once A exceeds 2^53 (A = 123,456,789,012,345,678,901 with 0.9 is off by 7,838). Two raising paths are not modelled either. `감정가 * 0.9` raises `OverflowError` once A reaches about 2^1024 (about 1.8·10^308). From Python 3.11, `int()` raises `ValueError` on more than 4300 digits. `ToNum`, `EstimateOf` and `ExtractDetailInfo` succeed on such values.
- Digits are ASCII `0`-`9` only. Python's `str.isdigit` also accepts other Unicode digit characters, some of which make `int()` fail.
- `analyze_with_gpt`: the prompt text, the OpenAI call, its model name and temperature, and the `.strip()` of the answer are outside the model. The call is the parameter `gpt`, from the merged dictionary to an answer or a raised message. `Narrative` models only the success/failure convention.
- Flask plumbing: routes, `request.files`, UTF-8 decoding of uploads (a decoding error is not modelled), `jsonify`, `render_template`, the index route, environment variables and `app.run`. Files reach the model as (name, decoded text) pairs.
- Dictionary key order: Python dicts keep insertion order and Dafny maps do not. The model states key sets and values, not where each key appears in the JSON output.
