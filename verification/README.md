# NDC / RXCUI identifier translation — a Dafny model

The repository's scripts translate between two drug identifiers, the National
Drug Code (NDC) and the RxNorm Concept Unique Identifier (RXCUI). They query the
public RxNorm REST service. A separate page searches the UMLS terminology
service. Under the HTTP servers and HTML templates sits a small pure layer, and
this project models that layer:

- **URL construction.** The NDC-status, properties and NDC-list URLs are built by
  plain concatenation, with the identifier inserted verbatim
  (`RxNav.NdcStatusUrl`, `RxNav.PropertiesUrl`, `RxNav.NdcsUrl`).
- **Reply interpretation.** Each lookup gives one of three outcomes
  (`RxNav.Outcome`): `Found`, `RequestFailed(status)` or `NotFound(reason)`.
  `Found` carries the value, with or without the URL depending on the file.
  `RequestFailed` is "API request failed with status code N"; the status is
  checked before the body is read. `NotFound` is the "… not found …" failure
  raised when a nested key is missing.
- **Variants.** The same functions are copied across six Python files.
  - Files that return the value and the URL: `RxNav.NdcToRxcui`,
    `RxNav.RxcuiProperties`, `RxNav.RxcuiToNdcs`.
  - Files that return the value alone: `RxNav.NdcToRxcuiValue` and
    `RxNav.RxcuiPropertiesValue`. Each is proved equal to the first component
    of its paired variant.
- **Compositions.**
  - NDC → RXCUI → properties (`Conversion.Convert`). Its result is the record
    shown by the conversion page, or the text of the first exception raised.
  - RXCUI → NDC list with a best-effort name for each NDC
    (`NdcListing.RxcuiToNamedNdcs`). A name reply with a non-200 status or a
    missing key degrades to `"Unknown"` for its own entry only.
- **UMLS page helpers** (`UmlsPage`).
  - `stripBaseUrl`.
  - The query-string assembly of `colorizeUrl`.
  - The rules that turn a decoded reply into table rows, including the
    `"N/A"`, `"(Atom #k)"`, `"(Definition #k)"` and `"(no rootSource)"` defaults.
    JavaScript truthiness decides each default, so an empty string also falls
    back.

HTTP is an injected function `fetch: string -> Response`. It gives the status and
the decoded JSON body of the reply to each URL. Everything else is deterministic.

Modules: `Optional` (the option type); `Json` (JSON trees and the `in`-guarded
nested lookup); `Decimal` (decimal rendering and parsing of integers); `Strings`
(JavaScript `split` and `join`); `RxNav`; `Conversion`; `NdcListing`;
`UmlsPage`.

Three behaviours of the code are worth stating plainly:
- A properties object without `tty` or `name` is not a "not found" failure. The
  conversion raises a `KeyError`, and the page shows its text, `'tty'` or
  `'name'` (`Conversion.MissingTermTypeReported`, `Conversion.MissingNameReported`).
- The name annotation of the NDC listing reads `ndcStatus.active.name` from the
  NDC-status reply of each listed NDC.
- The properties lookup returns the whole `properties` object as it came.

## Model

| member | source | states |
|---|---|---|
| RxNav.NdcStatusUrl | ndc_to_rxcui_web_v3.py:12 | the NDC-status URL is the fixed `…/ndcstatus.json?ndc=` prefix followed by the NDC exactly as given |
| RxNav.NdcStatusUrlRoundTrip | ndc_to_rxcui.py:4 | the NDC is inserted verbatim: reading it back out of the URL gives it unchanged, and every URL the reader accepts is the URL of the NDC it reads |
| RxNav.PropertiesUrl | ndc_to_rxcui_web_v3.py:27 | the properties URL is `…/REST/rxcui/`, the RXCUI as given, then `/properties.json` |
| RxNav.PropertiesUrlRoundTrip | ndc_to_rxcui_web_v2.py:23 | the RXCUI is recovered unchanged from the properties URL, and the reader accepts only such URLs |
| RxNav.NdcsUrl | rxcui_to_ndc_web.py:12 | the NDC-list URL is `…/REST/rxcui/`, the RXCUI as given, then `/ndcs.json` |
| RxNav.NdcsUrlRoundTrip | rxcui_to_ndc.py:5 | the RXCUI is recovered unchanged from the NDC-list URL, and the reader accepts only such URLs |
| RxNav.EndpointsDisjoint | rxcui_to_ndc_web.py:32 | the NDC-status, properties and NDC-list URLs never coincide, whatever identifiers are inserted |
| RxNav.StatusMessage | ndc_to_rxcui_web_v3.py:16 | the transport-failure message is "API request failed with status code " followed by exactly `Decimal.IntToString` of the code (Python's `str()`, no padding), from which the code is parsed back |
| RxNav.StatusMessagesDistinct | ndc_to_rxcui_web_v3.py:16 | two different status codes never give the same failure message |
| RxNav.NdcToRxcui | ndc_to_rxcui_web_v3.py:11-23 | a non-200 status fails with that status whatever the body; on 200 the result is never the status failure; it is found exactly when `ndcStatus.rxcui` is present, and then is that value paired with the queried URL; otherwise "RXCUI not found for the given NDC" (same code in ndc_to_rxcui_web_v2.py:8-20) |
| RxNav.NdcToRxcuiValue | ndc_to_rxcui_web.py:8-20 | the value-only variant returns exactly the RXCUI of the paired variant, with the same failures; the URL is not part of the result (same code in ndc_to_rxcui.py:3-15) |
| RxNav.RxcuiProperties | ndc_to_rxcui_web_v3.py:26-38 | a non-200 status fails with that status; on 200 the properties object is returned unchanged with its URL exactly when `properties` is present, otherwise "Properties not found for the given RXCUI" (same code in ndc_to_rxcui_web_v2.py:22-34) |
| RxNav.RxcuiPropertiesValue | ndc_to_rxcui_web.py:22-34 | the value-only variant returns exactly the properties object of the paired variant, with the same failures |
| RxNav.RxcuiToNdcs | rxcui_to_ndc.py:4-16 | a non-200 status fails with that status; on 200 the `ndcGroup.ndcList.ndc` value is returned unchanged with the URL exactly when all three keys are present, otherwise "NDC not found for the given RXCUI" |
| RxNav.NdcName | rxcui_to_ndc_web.py:35-43 | the name lookup of `get_ndc_name`, applied by `NdcListing.NameOf` to the reply for the NDC's status URL: a non-200 status gives "Unknown" instead of an exception; on 200 the result is `ndcStatus.active.name` when all three keys are present and "Unknown" otherwise |
| Json.Dig2 | ndc_to_rxcui.py:12-13 | `Json.Dig`, the key-by-key membership guard followed by the nested subscript, succeeds for two keys exactly when both keys are present, and then yields the nested value |
| Json.Dig3 | rxcui_to_ndc.py:13-14 | the three-key guard succeeds exactly when all three keys are present, and then yields the innermost value |
| Decimal.IntToString | ndc_to_rxcui.py:8 | Python's `str()` of an integer: a leading "-" exactly for a negative number, digits otherwise, and no leading zero except in "0" itself |
| Decimal.NatToString | umls-api/script.js:307 | the template interpolation `${index + 1}`: a non-empty string of digits without a leading zero |
| Decimal.ParseIntToString | ndc_to_rxcui.py:8 | the decimal rendering of a status code (negative ones included) parses back to that code |
| Decimal.ParseNatToString | umls-api/script.js:307 | the numeral of a natural number parses back to that number |
| Decimal.NatToStringInjective | umls-api/script.js:318 | distinct numbers have distinct numerals |
| Conversion.Convert | ndc_to_rxcui_web_v3.py:94-103 | a non-200 NDC-status reply yields its status message; a failed first step is reported as is; a failed properties step is reported with its own text (its status message, or "Properties not found for the given RXCUI"); a missing `tty` gives `'tty'`, and a present `tty` with a missing `name` gives `'name'`; a record is built exactly when both lookups succeed and `tty` and `name` are present, and then holds the input NDC, the resolved RXCUI, the properties' `tty` and `name`, and the two queried URLs |
| Conversion.ConvertReadsTwoReplies | ndc_to_rxcui_web_v2.py:68-69 | the properties lookup uses the RXCUI the first step returned: the outcome depends only on the NDC-status reply and the reply for that RXCUI's properties URL |
| Conversion.FailedLookupStopsConversion | ndc_to_rxcui_web_v3.py:94-95 | when the first step fails, no properties reply matters and the outcome is a failure |
| Conversion.PropertiesStatusReported | ndc_to_rxcui_web_v3.py:30-31 | a non-200 reply to the properties request is reported with its status, whatever its body |
| Conversion.MissingTermTypeReported | ndc_to_rxcui_web_v3.py:99-100 | a properties object without `tty` fails with the KeyError text `'tty'` (`Conversion.KeyErrorMessage`, the `str()` of a `KeyError`), before `name` is consulted |
| Conversion.MissingNameReported | ndc_to_rxcui_web_v3.py:99-100 | a properties object with `tty` but without `name` fails with the KeyError text `'name'` |
| Conversion.LosartanExample | ndc_to_rxcui_web_v3.py:96-103 | NDC 0069-4405-68 resolving to RXCUI 206765 with name Losartan and term type IN gives exactly that record with both URLs |
| Conversion.UnavailableExample | ndc_to_rxcui.py:7-8 | an upstream answering 503 yields "API request failed with status code 503" |
| NdcListing.NdcStrings | rxcui_to_ndc_web.py:21 | the listed NDCs are taken in upstream order, one per list element |
| NdcListing.Annotate | rxcui_to_ndc_web.py:22-26 | the annotated list has the upstream list's length, and its i-th pair is the i-th NDC with the name looked up for it |
| NdcListing.RxcuiToNamedNdcs | rxcui_to_ndc_web.py:11-28 | a non-200 list reply fails with its status; the result is found exactly when the nested NDC list is present, and then has the same length and order as the upstream list, each NDC paired with its own name, and the list URL; a 200 reply without the nested list is the not-found failure "NDC not found for the given RXCUI", never a status failure |
| NdcListing.NoNameLookupsAfterFailure | rxcui_to_ndc_web.py:15-16 | a failed list request makes no name lookups: the outcome is the same whatever the name replies are |
| NdcListing.NameFailureIsolated | rxcui_to_ndc_web.py:23-25 | when one NDC's name lookup fails, the list keeps its length, that entry reads "Unknown", and every entry for another NDC is unchanged |
| NdcListing.TwoNdcExample | rxcui_to_ndc_web.py:20-26 | the list ["0002-1200-30", "0002-1200-50"] comes back as two entries in that order |
| Strings.Split | umls-api/script.js:40 | `split` on one character gives at least one piece, and no piece contains the separator |
| Strings.JoinSplit | umls-api/script.js:40 | joining the pieces with the separator (`Strings.Join`, `Array.prototype.join`) rebuilds the string |
| Strings.SplitJoin | umls-api/script.js:120 | splitting a join of separator-free pieces gives the pieces back, in order |
| Strings.LastPieceIsSuffix | umls-api/script.js:41 | the last piece ends the string, and a separator stands right before it unless it is the whole string |
| UmlsPage.StripBaseUrl | umls-api/script.js:38-42 | a missing or empty argument gives ""; otherwise the result has no "/", ends the input, is preceded by "/" unless it is the whole input, and is the input itself when the input has no "/" |
| UmlsPage.StripAfterLastSlash | umls-api/script.js:40-41 | whatever precedes the last "/", the segment after it is returned |
| UmlsPage.Colorize | umls-api/script.js:110-123 | with no parameters the result is only the highlighted base, with no "?" when the base has none; otherwise it is the base, a single "?", and the highlighted key/value segments joined by "&" |
| UmlsPage.MarkupHasNoSeparators | umls-api/script.js:112-116 | the highlighting markup adds no "?" to the base and no "&" to a segment |
| UmlsPage.QuerySplitsIntoParams | umls-api/script.js:114-120 | with an encoder that never emits "&", splitting the query at "&" gives back exactly one segment per parameter, in parameter order, each built from the encoded key and value |
| UmlsPage.FalsyValues | umls-api/script.js:196 | `UmlsPage.Truthy` is JavaScript truthiness: the falsy JSON values are exactly `null`, `false`, `0` and `""` |
| UmlsPage.Or | umls-api/script.js:210 | JavaScript's logical OR with a default returns the left operand when it is present and truthy, and the fallback otherwise; the result is truthy exactly when one of the operands is |
| UmlsPage.SearchResults | umls-api/script.js:196 | the result list is `data.result.results` when both levels are present and truthy (`UmlsPage.Member` reads an object member, `undefined` otherwise), the empty array otherwise; it is always truthy |
| UmlsPage.SearchRowOf | umls-api/script.js:205-228 | each cell shows the item's field when truthy and "N/A" otherwise, so no cell is blank; the root-source cell exists exactly when its column is shown |
| UmlsPage.SearchTable | umls-api/script.js:196-233 | a null reply is the error line; a result list whose `length` is 0 (`UmlsPage.LengthIsZero`) is "No results found."; any other list that is not an array, or an array with a null item, is the error line; an array of non-null items gives one row per item, in order |
| UmlsPage.SearchTableOfItems | umls-api/script.js:196-229 | a reply listing non-null items gives exactly one row per item, in order |
| UmlsPage.SearchCellsNeverBlank | umls-api/script.js:210-226 | no cell of a search table is blank |
| UmlsPage.ConceptDetailUrl | umls-api/script.js:256 | the concept-mode detail URL is the CUI content prefix, the CUI exactly as given, then "/" and the detail kind |
| UmlsPage.PlaceholdersDistinct | umls-api/script.js:307 | two positions never share a "(Atom #k)" / "(Definition #k)" placeholder (`UmlsPage.Placeholder`) |
| UmlsPage.DetailRowOf | umls-api/script.js:303-366 | an atom shows its name or "(Atom #k)" with k = index + 1; a definition shows its value or "(Definition #k)"; a relation shows its three names, each with its own default; a missing root source reads "(no rootSource)" |
| UmlsPage.DetailCellsNeverBlank | umls-api/script.js:307-362 | every cell of a detail row is truthy |
| UmlsPage.DetailEntries | umls-api/script.js:297 | the entries are `data.result` when it is an array and empty otherwise |
| UmlsPage.DetailTable | umls-api/script.js:297-370 | a null reply is the error line; no entries gives the "No … found" line; an entry list with a null entry is the error line; otherwise one row per entry in order, built with its index |

## Left out

- The network calls (`requests.get`, `fetch`) and JSON decoding (`response.json()`). Each reply is an input value. A body that is not JSON, and floating-point numbers, are not modelled.
- RxNav.NdcToRxcui: requires, on status 200, that `data` and `data['ndcStatus']` be objects. On a string Python's `in` is a substring test, and on None it raises TypeError. The same restriction applies to NdcToRxcuiValue.
- RxNav.RxcuiProperties: requires, on status 200, that the body be an object. The same restriction applies to RxcuiPropertiesValue.
- RxNav.RxcuiToNdcs: requires, on status 200, that the nodes `data`, `ndcGroup` and `ndcList` be objects.
- RxNav.NdcName: requires, on status 200, that the nodes `data`, `ndcStatus` and `active` be objects. On a string or list node Python's `in` is a substring or membership test, and on a null, numeric or boolean node it raises TypeError.
- Conversion.Convert: requires that a present `rxcui` be a string and a present `properties` be an object. Python would stringify another value into the URL, or raise TypeError on subscripting it.
- NdcListing.RxcuiToNamedNdcs: requires that a present NDC list be an array of strings. Iterating a string or a dict in Python visits characters or keys.
- NdcListing.RxcuiToNamedNdcs: an exception inside one name lookup is not modelled. Such an exception escapes `get_ndc_name`, aborts the whole listing, and the page shows "Error: …" instead of the list (rxcui_to_ndc_web.py:131-154). It comes from a failing `requests.get`, from a 200 body that is not JSON, or from the `in` tests at rxcui_to_ndc_web.py:40 (lines 33, 38, 40). Those tests raise on a null, numeric or boolean `ndcStatus`/`active`, and on a string or list one that contains the next key, because that node is then subscripted with a string. A string or list node that does not contain the next key makes the test false, so the name is "Unknown" without an exception. The model requires the name reply of every listed NDC to be made of objects along the path, so it excludes both kinds of non-object node: the ones that raise and the ones that give "Unknown".
- The HTTP servers, request handlers, form parsing and HTML assembly. The missing HTML escaping is a presentation concern.
- The `/download_json` re-serialisation, the `serve_forever` loops and the CLI `input`/`print` wrappers (ndc_to_rxcui.py:17-22, rxcui_to_ndc.py:19-26).
- The Flask fragment at ndc_to_rxcui.py:23-69. It is syntactically broken, and it only repeats `ndc_to_rxcui`.
- All DOM, event, modal, history and async behaviour of umls-api/script.js.
- The code-mode branch at umls-api/script.js:254. It reads `modalCurrentData.uri`, which is never assigned.
- `fetchRelatedDetail`, `getSelectedVocabularies` and `toggleRawData`.
- `encodeURIComponent` is an opaque function parameter. The `URL` and `URLSearchParams` objects are left out: the model starts from their origin, path and parameter list. The search and detail request URLs that are assembled through `searchParams` are therefore left out too.
- UmlsPage.SearchRowOf: whether the root-source column is shown is a parameter. It is DOM state: line 154 rebuilds the header with `display: none` just before line 224 reads it.
- UmlsPage.Member: property access is modelled for object members only. The keys read here are none of the built-in properties of strings or arrays; `length` is handled separately by `LengthIsZero`.
