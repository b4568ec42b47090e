/** The pure helpers of the UMLS search page: the last-path-segment helper,
    the highlighted request URL, and the rules that turn a decoded reply into
    table rows, with JavaScript's truthiness deciding every default. */
module UmlsPage {

  import opened Optional
  import opened Json
  import opened Strings
  import Decimal

  // ---------------------------------------------------------------- stripBaseUrl

  /** `stripBaseUrl`: "" for a missing or empty argument, otherwise the text
      after the last "/" (`None` stands for `undefined` and `null`). */
  function StripBaseUrl(fullUrl: Option<string>): (r: string)
    ensures fullUrl.None? || fullUrl.value == "" ==> r == ""
    ensures fullUrl.Some? ==>
      var s := fullUrl.value;
      && '/' !in r
      && |r| <= |s|
      && s[|s| - |r|..] == r
      && (|r| < |s| ==> s[|s| - |r| - 1] == '/')
    ensures fullUrl.Some? && '/' !in fullUrl.value ==> r == fullUrl.value
  {
    match fullUrl
    case None => ""
    case Some(s) =>
      if s == "" then ""
      else
        var parts := Split(s, '/');
        LastPieceIsSuffix(s, '/');
        if |parts| > 0 then Last(parts) else s
  }

  /** Whatever precedes the last "/", the segment after it is what
      `stripBaseUrl` returns. */
  lemma {:induction false} StripAfterLastSlash(prefix: string, segment: string)
    requires '/' !in segment
    ensures StripBaseUrl(Some(prefix + "/" + segment)) == segment
  {
    var s := prefix + "/" + segment;
    var r := StripBaseUrl(Some(s));
    assert s[|s| - |segment| - 1] == '/';
    assert s[|s| - |segment|..] == segment;
  }

  // ---------------------------------------------------------------- colorizeUrl

  /** The parts of a `URL` object the page reads: origin, path and the
      search parameters in order. */
  datatype UrlParts = UrlParts(origin: string, pathname: string, searchParams: seq<(string, string)>)

  function BaseSpan(base: string): string
  {
    "<span style=\"color:blue\">" + base + "</span>"
  }

  function ParamSpan(key: string, value: string): string
  {
    "<span style=\"color:green\">" + key + "</span>=<span style=\"color:red\">" + value + "</span>"
  }

  /** One highlighted `key=value` segment per parameter, keys and values
      passed through the encoder. */
  function ParamSpans(params: seq<(string, string)>, encode: string -> string): (spans: seq<string>)
    ensures |spans| == |params|
  {
    seq(|params|, i requires 0 <= i < |params| => ParamSpan(encode(params[i].0), encode(params[i].1)))
  }

  /** `colorizeUrl`; `encode` stands for `encodeURIComponent`. */
  method Colorize(url: UrlParts, encode: string -> string) returns (html: string)
    ensures |url.searchParams| == 0 ==> html == BaseSpan(url.origin + url.pathname)
    ensures |url.searchParams| == 0 && '?' !in url.origin + url.pathname ==> '?' !in html
    ensures |url.searchParams| > 0 ==>
      html == BaseSpan(url.origin + url.pathname) + "?" + Join(ParamSpans(url.searchParams, encode), "&")
  {
    var base := url.origin + url.pathname;
    html := BaseSpan(base);
    var params: seq<string> := [];
    var i := 0;
    while i < |url.searchParams|
      invariant 0 <= i <= |url.searchParams|
      invariant |params| == i
      invariant forall k :: 0 <= k < i ==>
        params[k] == ParamSpan(encode(url.searchParams[k].0), encode(url.searchParams[k].1))
    {
      var (key, value) := url.searchParams[i];
      params := params + [ParamSpan(encode(key), encode(value))];
      i := i + 1;
    }
    assert params == ParamSpans(url.searchParams, encode);
    MarkupHasNoSeparators(base, "", "");
    if |params| > 0 {
      html := html + "?" + Join(params, "&");
    }
  }

  /** The markup itself contains neither "?" nor "&". */
  lemma MarkupHasNoSeparators(base: string, key: string, value: string)
    ensures '?' !in base ==> '?' !in BaseSpan(base)
    ensures '&' !in key && '&' !in value ==> '&' !in ParamSpan(key, value)
  {
  }

  /** With an encoder that never emits "&" (as `encodeURIComponent`
      guarantees), splitting the query at "&" gives back exactly one
      segment per parameter, in parameter order. */
  lemma {:induction false} QuerySplitsIntoParams(params: seq<(string, string)>, encode: string -> string)
    requires |params| > 0
    requires forall s :: '&' !in encode(s)
    ensures var spans := ParamSpans(params, encode);
      && Split(Join(spans, "&"), '&') == spans
      && forall i :: 0 <= i < |params| ==>
           spans[i] == ParamSpan(encode(params[i].0), encode(params[i].1))
  {
    var spans := ParamSpans(params, encode);
    forall i | 0 <= i < |spans|
      ensures '&' !in spans[i]
    {
      MarkupHasNoSeparators("", encode(params[i].0), encode(params[i].1));
    }
    SplitJoin(spans, '&');
  }

  // ---------------------------------------------------------------- JavaScript values

  /** JavaScript truthiness of a decoded JSON value. */
  predicate Truthy(v: Json)
  {
    match v
    case Null => false
    case Bool(b) => b
    case Num(n) => n != 0
    case Str(s) => s != ""
    case Arr(_) => true
    case Obj(_) => true
  }

  /** `v.key` on a value that is not null: the member of an object, and
      `undefined` (None) otherwise; none of the keys read here names a
      built-in property of strings or arrays. */
  function Member(v: Json, key: string): Option<Json>
    requires !v.Null?
  {
    if v.Obj? && key in v.fields then Some(v.fields[key]) else None
  }

  /** The falsy values a decoded reply can hold are exactly `null`, `false`,
      `0` and the empty string. */
  lemma FalsyValues(v: Json)
    ensures !Truthy(v) <==> v == Null || v == Bool(false) || v == Num(0) || v == Str("")
  {
  }

  /** `v || fallback` where `v` may be `undefined`: one of the two operands,
      truthy when either operand is. */
  function Or(v: Option<Json>, fallback: Json): (r: Json)
    ensures Shows(r, v, fallback)
    ensures r == fallback || (v.Some? && r == v.value)
    ensures Truthy(r) <==> (v.Some? && Truthy(v.value)) || Truthy(fallback)
  {
    if v.Some? && Truthy(v.value) then v.value else fallback
  }

  /** What a table cell shows for a field with a default: the field when it
      is truthy, the default otherwise. */
  predicate Shows(cell: Json, field: Option<Json>, fallback: Json)
  {
    && (field.Some? && Truthy(field.value) ==> cell == field.value)
    && (!(field.Some? && Truthy(field.value)) ==> cell == fallback)
  }

  /** `v.length === 0`. */
  predicate LengthIsZero(v: Json)
  {
    match v
    case Arr(items) => |items| == 0
    case Str(s) => |s| == 0
    case Obj(m) => "length" in m && m["length"] == Num(0)
    case _ => false
  }

  /** A rendered table: the "nothing found" line, rows, or the error line the
      `catch` block writes (a TypeError thrown while reading the reply). */
  datatype Table<+R> = NoResults | Rows(rows: seq<R>) | LoadError

  // ---------------------------------------------------------------- searchUMLS

  const NA := Str("N/A")

  /** One search-result row; the root-source cell exists only while its
      column header is displayed. */
  datatype SearchRow = SearchRow(ui: Json, name: Json, rootSource: Option<Json>)

  /** `data.result && data.result.results ? data.result.results : []`. */
  function SearchResults(data: Json): (results: Json)
    requires !data.Null?
    ensures
      var result := Member(data, "result");
      if result.Some? && Truthy(result.value) && Member(result.value, "results").Some?
         && Truthy(Member(result.value, "results").value)
      then results == data.fields["result"].fields["results"]
      else results == Arr([])
    ensures Truthy(results)
  {
    var result := Member(data, "result");
    if result.Some? && Truthy(result.value) then
      var results := Member(result.value, "results");
      if results.Some? && Truthy(results.value) then results.value else Arr([])
    else Arr([])
  }

  function SearchRowOf(item: Json, showRootSource: bool): (row: SearchRow)
    requires !item.Null?
    ensures Shows(row.ui, Member(item, "ui"), NA) && Truthy(row.ui)
    ensures Shows(row.name, Member(item, "name"), NA) && Truthy(row.name)
    ensures row.rootSource.Some? <==> showRootSource
    ensures showRootSource ==>
      Shows(row.rootSource.value, Member(item, "rootSource"), NA) && Truthy(row.rootSource.value)
  {
    SearchRow(
      Or(Member(item, "ui"), NA),
      Or(Member(item, "name"), NA),
      if showRootSource then Some(Or(Member(item, "rootSource"), NA)) else None)
  }

  /** The result table of `searchUMLS` for a decoded reply `data`. */
  function SearchTable(data: Json, showRootSource: bool): (t: Table<SearchRow>)
    ensures data.Null? ==> t == LoadError
    ensures !data.Null? && LengthIsZero(SearchResults(data)) ==> t == NoResults
    // `forEach` on a list that is not an array throws: the error line
    ensures !data.Null? && !SearchResults(data).Arr? && !LengthIsZero(SearchResults(data)) ==> t == LoadError
    // reading a field of a null item throws: the error line
    ensures !data.Null? && SearchResults(data).Arr?
            && (exists k :: 0 <= k < |SearchResults(data).items| && SearchResults(data).items[k].Null?)
            ==> t == LoadError
    ensures t.Rows? ==>
      && !data.Null?
      && SearchResults(data).Arr?
      && |t.rows| == |SearchResults(data).items| > 0
      && forall k :: 0 <= k < |t.rows| ==>
           && !SearchResults(data).items[k].Null?
           && t.rows[k] == SearchRowOf(SearchResults(data).items[k], showRootSource)
    ensures !data.Null? && SearchResults(data).Arr? && |SearchResults(data).items| > 0
            && (forall k :: 0 <= k < |SearchResults(data).items| ==> !SearchResults(data).items[k].Null?)
            ==> t.Rows?
  {
    if data.Null? then LoadError
    else
      var results := SearchResults(data);
      if LengthIsZero(results) then NoResults
      else if !results.Arr? then LoadError
      else if exists k :: 0 <= k < |results.items| && results.items[k].Null? then LoadError
      else Rows(seq(|results.items|, k requires 0 <= k < |results.items| =>
                      SearchRowOf(results.items[k], showRootSource)))
  }

  /** A reply that lists some non-null items gives one row per item, in
      order, whatever the items hold. */
  lemma {:induction false} SearchTableOfItems(items: seq<Json>, showRootSource: bool)
    requires |items| > 0
    requires forall k :: 0 <= k < |items| ==> !items[k].Null?
    ensures var data := Obj(map["result" := Obj(map["results" := Arr(items)])]);
      && SearchTable(data, showRootSource).Rows?
      && |SearchTable(data, showRootSource).rows| == |items|
      && forall k :: 0 <= k < |items| ==>
           SearchTable(data, showRootSource).rows[k] == SearchRowOf(items[k], showRootSource)
  {
    var data := Obj(map["result" := Obj(map["results" := Arr(items)])]);
    assert Member(data, "result") == Some(Obj(map["results" := Arr(items)]));
    assert SearchResults(data) == Arr(items);
  }

  /** No cell of a search table is ever blank. */
  lemma SearchCellsNeverBlank(data: Json, showRootSource: bool)
    ensures var t := SearchTable(data, showRootSource);
      t.Rows? ==> forall k :: 0 <= k < |t.rows| ==>
        && Truthy(t.rows[k].ui) && Truthy(t.rows[k].name)
        && (t.rows[k].rootSource.Some? ==> Truthy(t.rows[k].rootSource.value))
  {
  }

  // ---------------------------------------------------------------- fetchConceptDetails

  datatype DetailKind = Atoms | Definitions | Relations

  function KindName(kind: DetailKind): string
  {
    match kind
    case Atoms => "atoms"
    case Definitions => "definitions"
    case Relations => "relations"
  }

  const ConceptPrefix := "https://uts-ws.nlm.nih.gov/rest/content/current/CUI/"

  /** The concept-mode detail URL, before the API key is appended. */
  function ConceptDetailUrl(cui: string, kind: DetailKind): (url: string)
    ensures |url| == |ConceptPrefix| + |cui| + 1 + |KindName(kind)|
    ensures url[..|ConceptPrefix|] == ConceptPrefix
    ensures url[|ConceptPrefix|..|url| - |KindName(kind)| - 1] == cui
    ensures url[|url| - |KindName(kind)| - 1..] == "/" + KindName(kind)
  {
    ConceptPrefix + cui + "/" + KindName(kind)
  }

  /** A detail row: atoms and definitions have a label and a root source,
      relations four cells. */
  datatype DetailRow =
    | LabelRow(text: Json, rootSource: Json)
    | RelationRow(fromName: Json, relationLabel: Json, toName: Json, rootSource: Json)

  const NoRootSource := Str("(no rootSource)")

  /** The label shown for the entry at `index` that has none: "(Atom #1)",
      "(Definition #2)", ... counting from one. */
  function Placeholder(word: string, index: nat): string
  {
    "(" + word + " #" + Decimal.NatToString(index + 1) + ")"
  }

  /** Placeholders tell entries apart: two positions never share one. */
  lemma PlaceholdersDistinct(word: string, i: nat, j: nat)
    requires Placeholder(word, i) == Placeholder(word, j)
    ensures i == j
  {
    var p := "(" + word + " #";
    var a := Decimal.NatToString(i + 1);
    var b := Decimal.NatToString(j + 1);
    assert Placeholder(word, i) == p + a + ")";
    assert Placeholder(word, j) == p + b + ")";
    assert |a| == |b|;
    assert a == Placeholder(word, i)[|p|..|p| + |a|];
    assert b == Placeholder(word, j)[|p|..|p| + |b|];
    Decimal.NatToStringInjective(i + 1, j + 1);
  }

  function DetailRowOf(kind: DetailKind, index: nat, entry: Json): (row: DetailRow)
    requires !entry.Null?
    ensures kind == Atoms ==>
      && row.LabelRow?
      && Shows(row.text, Member(entry, "name"), Str(Placeholder("Atom", index)))
      && Shows(row.rootSource, Member(entry, "rootSource"), NoRootSource)
    ensures kind == Definitions ==>
      && row.LabelRow?
      && Shows(row.text, Member(entry, "value"), Str(Placeholder("Definition", index)))
      && Shows(row.rootSource, Member(entry, "rootSource"), NoRootSource)
    ensures kind == Relations ==>
      && row.RelationRow?
      && Shows(row.fromName, Member(entry, "relatedFromIdName"), Str("(no relatedFromIdName)"))
      && Shows(row.relationLabel, Member(entry, "additionalRelationLabel"), Str("(no relation label)"))
      && Shows(row.toName, Member(entry, "relatedIdName"), Str("(no relatedIdName)"))
      && Shows(row.rootSource, Member(entry, "rootSource"), NoRootSource)
  {
    match kind
    case Atoms =>
      LabelRow(Or(Member(entry, "name"), Str(Placeholder("Atom", index))),
               Or(Member(entry, "rootSource"), NoRootSource))
    case Definitions =>
      LabelRow(Or(Member(entry, "value"), Str(Placeholder("Definition", index))),
               Or(Member(entry, "rootSource"), NoRootSource))
    case Relations =>
      RelationRow(Or(Member(entry, "relatedFromIdName"), Str("(no relatedFromIdName)")),
                  Or(Member(entry, "additionalRelationLabel"), Str("(no relation label)")),
                  Or(Member(entry, "relatedIdName"), Str("(no relatedIdName)")),
                  Or(Member(entry, "rootSource"), NoRootSource))
  }

  /** Every cell of a detail row is truthy: no cell is ever left blank. */
  lemma DetailCellsNeverBlank(kind: DetailKind, index: nat, entry: Json)
    requires !entry.Null?
    ensures var row := DetailRowOf(kind, index, entry);
      if row.LabelRow? then Truthy(row.text) && Truthy(row.rootSource)
      else Truthy(row.fromName) && Truthy(row.relationLabel) && Truthy(row.toName) && Truthy(row.rootSource)
  {
  }

  /** `Array.isArray(data.result) ? data.result : []`, for a non-null `data`. */
  function DetailEntries(data: Json): (entries: seq<Json>)
    requires !data.Null?
    ensures data.Obj? && "result" in data.fields && data.fields["result"].Arr? ==>
      entries == data.fields["result"].items
    ensures !(data.Obj? && "result" in data.fields && data.fields["result"].Arr?) ==> entries == []
  {
    match Member(data, "result")
    case Some(Arr(items)) => items
    case _ => []
  }

  /** The detail table of `fetchConceptDetails` for a decoded reply `data`. */
  function DetailTable(data: Json, kind: DetailKind): (t: Table<DetailRow>)
    ensures data.Null? ==> t == LoadError
    ensures !data.Null? && DetailEntries(data) == [] ==> t == NoResults
    // reading a field of a null entry throws: the error line
    ensures !data.Null? && (exists k :: 0 <= k < |DetailEntries(data)| && DetailEntries(data)[k].Null?)
            ==> t == LoadError
    ensures t.Rows? ==>
      && !data.Null?
      && |t.rows| == |DetailEntries(data)| > 0
      && forall k :: 0 <= k < |t.rows| ==>
           && !DetailEntries(data)[k].Null?
           && t.rows[k] == DetailRowOf(kind, k, DetailEntries(data)[k])
    ensures !data.Null? && |DetailEntries(data)| > 0
            && (forall k :: 0 <= k < |DetailEntries(data)| ==> !DetailEntries(data)[k].Null?)
            ==> t.Rows?
  {
    if data.Null? then LoadError
    else
      var entries := DetailEntries(data);
      if |entries| == 0 then NoResults
      else if exists k :: 0 <= k < |entries| && entries[k].Null? then LoadError
      else Rows(seq(|entries|, k requires 0 <= k < |entries| => DetailRowOf(kind, k, entries[k])))
  }
}
