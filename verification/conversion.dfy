/** The NDC -> RXCUI -> properties composition of the conversion form: the
    NDC-status lookup, then the properties lookup for the RXCUI it returned,
    then the result record, or the text of the first exception raised. */
module Conversion {

  import opened Json
  import opened RxNav
  import Decimal

  /** The result record the conversion page shows and offers for download. */
  datatype ConversionRecord = ConversionRecord(
    ndc: string,
    rxcui: string,
    termType: Json,
    name: Json,
    ndcUrl: string,
    rxcuiUrl: string)

  /** What the page renders: the record, or "Error: " and the exception text. */
  datatype Converted = Converted(result: ConversionRecord) | Failed(message: string)

  /** The text of a Python `KeyError` for a missing dictionary key. */
  function KeyErrorMessage(key: string): string
  {
    "'" + key + "'"
  }

  /** The replies the composition reads are shaped as the model assumes: the
      nodes looked through are objects, the RXCUI is a string (it is put into
      the next URL) and the properties value is an object (it is subscripted). */
  predicate ConversionReplies(ndc: string, fetch: string -> Response)
  {
    var first := fetch(NdcStatusUrl(ndc));
    && RxcuiReplyShaped(first)
    && var step1 := NdcToRxcui(ndc, first);
       step1.Found? ==>
         && step1.value.0.Str?
         && var second := fetch(PropertiesUrl(step1.value.0.s));
            && PropertiesReplyShaped(second)
            && var step2 := RxcuiProperties(step1.value.0.s, second);
               step2.Found? ==> step2.value.0.Obj?
  }

  /** `do_POST_convert` (less the form parsing and the HTML): `fetch` gives the
      upstream reply for each URL requested. */
  function Convert(ndc: string, fetch: string -> Response): (r: Converted)
    requires ConversionReplies(ndc, fetch)
    // the status of the first reply decides before anything else
    ensures fetch(NdcStatusUrl(ndc)).status != 200 ==>
      r == Failed(StatusMessage(fetch(NdcStatusUrl(ndc)).status))
    // a failed first step is reported as is
    ensures !NdcToRxcui(ndc, fetch(NdcStatusUrl(ndc))).Found? ==>
      r == Failed(NdcToRxcui(ndc, fetch(NdcStatusUrl(ndc))).Message())
    // a record is built exactly when both steps succeed and both keys are present
    ensures r.Converted? ==>
      var body1 := fetch(NdcStatusUrl(ndc)).body;
      && fetch(NdcStatusUrl(ndc)).status == 200
      && body1.fields["ndcStatus"].fields["rxcui"] == Str(r.result.rxcui)
      && var second := fetch(PropertiesUrl(r.result.rxcui));
         && second.status == 200
         && "properties" in second.body.fields
         && var props := second.body.fields["properties"];
            && props.Obj? && "tty" in props.fields && "name" in props.fields
            && r.result.termType == props.fields["tty"]
            && r.result.name == props.fields["name"]
    ensures
      var step1 := NdcToRxcui(ndc, fetch(NdcStatusUrl(ndc)));
      step1.Found? ==>
        var step2 := RxcuiProperties(step1.value.0.s, fetch(PropertiesUrl(step1.value.0.s)));
        (step2.Found? && "tty" in step2.value.0.fields && "name" in step2.value.0.fields) ==>
          r.Converted?
    // a failure of the second step is reported as is, and a missing key by
    // its KeyError text, "tty" being read before "name"
    ensures
      var step1 := NdcToRxcui(ndc, fetch(NdcStatusUrl(ndc)));
      step1.Found? ==>
        var step2 := RxcuiProperties(step1.value.0.s, fetch(PropertiesUrl(step1.value.0.s)));
        && (!step2.Found? ==> r == Failed(step2.Message()))
        && (step2.Found? && "tty" !in step2.value.0.fields ==> r == Failed(KeyErrorMessage("tty")))
        && (step2.Found? && "tty" in step2.value.0.fields && "name" !in step2.value.0.fields ==>
              r == Failed(KeyErrorMessage("name")))
    ensures r.Converted? ==>
      && r.result.ndc == ndc
      && r.result.ndcUrl == NdcStatusUrl(ndc)
      && r.result.rxcuiUrl == PropertiesUrl(r.result.rxcui)
  {
    var step1 := NdcToRxcui(ndc, fetch(NdcStatusUrl(ndc)));
    if !step1.Found? then Failed(step1.Message())
    else
      var (rxcuiValue, ndcUrl) := step1.value;
      var rxcui := rxcuiValue.s;
      var step2 := RxcuiProperties(rxcui, fetch(PropertiesUrl(rxcui)));
      if !step2.Found? then Failed(step2.Message())
      else
        var (props, rxcuiUrl) := step2.value;
        if "tty" !in props.fields then Failed(KeyErrorMessage("tty"))
        else if "name" !in props.fields then Failed(KeyErrorMessage("name"))
        else Converted(ConversionRecord(ndc, rxcui, props.fields["tty"], props.fields["name"], ndcUrl, rxcuiUrl))
  }

  /** The second request is made with the RXCUI the first returned: the
      outcome depends on the upstream only through the NDC-status reply and
      the reply for that RXCUI's properties URL. */
  lemma ConvertReadsTwoReplies(ndc: string, f: string -> Response, g: string -> Response)
    requires ConversionReplies(ndc, f)
    requires f(NdcStatusUrl(ndc)) == g(NdcStatusUrl(ndc))
    requires var step1 := NdcToRxcui(ndc, f(NdcStatusUrl(ndc)));
      step1.Found? ==> f(PropertiesUrl(step1.value.0.s)) == g(PropertiesUrl(step1.value.0.s))
    ensures ConversionReplies(ndc, g)
    ensures Convert(ndc, f) == Convert(ndc, g)
  {
  }

  /** When the first step fails no properties request is made: every upstream
      that gives the same NDC-status reply yields the same failure. */
  lemma FailedLookupStopsConversion(ndc: string, f: string -> Response, g: string -> Response)
    requires ConversionReplies(ndc, f)
    requires f(NdcStatusUrl(ndc)) == g(NdcStatusUrl(ndc))
    requires !NdcToRxcui(ndc, f(NdcStatusUrl(ndc))).Found?
    ensures ConversionReplies(ndc, g)
    ensures Convert(ndc, f) == Convert(ndc, g)
    ensures Convert(ndc, f).Failed?
  {
  }

  /** The properties step fails on its own terms: a non-200 reply to the
      properties URL is reported with its status, whatever its body. */
  lemma PropertiesStatusReported(ndc: string, fetch: string -> Response)
    requires ConversionReplies(ndc, fetch)
    requires NdcToRxcui(ndc, fetch(NdcStatusUrl(ndc))).Found?
    requires fetch(PropertiesUrl(NdcToRxcui(ndc, fetch(NdcStatusUrl(ndc))).value.0.s)).status != 200
    ensures Convert(ndc, fetch) ==
      Failed(StatusMessage(fetch(PropertiesUrl(NdcToRxcui(ndc, fetch(NdcStatusUrl(ndc))).value.0.s)).status))
  {
  }

  /** A properties object without "tty" fails with the KeyError text even
      when "name" is missing too: "tty" is read first. */
  lemma MissingTermTypeReported(ndc: string, fetch: string -> Response)
    requires ConversionReplies(ndc, fetch)
    requires NdcToRxcui(ndc, fetch(NdcStatusUrl(ndc))).Found?
    requires var rxcui := NdcToRxcui(ndc, fetch(NdcStatusUrl(ndc))).value.0.s;
      var step2 := RxcuiProperties(rxcui, fetch(PropertiesUrl(rxcui)));
      step2.Found? && "tty" !in step2.value.0.fields
    ensures Convert(ndc, fetch) == Failed("'tty'")
  {
  }

  /** A properties object with "tty" but without "name" fails with the
      KeyError text for "name". */
  lemma MissingNameReported(ndc: string, fetch: string -> Response)
    requires ConversionReplies(ndc, fetch)
    requires NdcToRxcui(ndc, fetch(NdcStatusUrl(ndc))).Found?
    requires var rxcui := NdcToRxcui(ndc, fetch(NdcStatusUrl(ndc))).value.0.s;
      var step2 := RxcuiProperties(rxcui, fetch(PropertiesUrl(rxcui)));
      step2.Found? && "tty" in step2.value.0.fields && "name" !in step2.value.0.fields
    ensures Convert(ndc, fetch) == Failed("'name'")
  {
  }

  /** An example: NDC 0069-4405-68 resolves to RXCUI 206765, whose
      properties give the name Losartan and the term type IN. */
  lemma LosartanExample()
    ensures
      var ndc := "0069-4405-68";
      var fetch := (u: string) =>
        if u == NdcStatusUrl(ndc) then
          Response(200, Obj(map["ndcStatus" := Obj(map["rxcui" := Str("206765")])]))
        else if u == PropertiesUrl("206765") then
          Response(200, Obj(map["properties" := Obj(map["name" := Str("Losartan"), "tty" := Str("IN")])]))
        else Response(404, Null);
      && ConversionReplies(ndc, fetch)
      && Convert(ndc, fetch) == Converted(ConversionRecord(
           ndc, "206765", Str("IN"), Str("Losartan"), NdcStatusUrl(ndc), PropertiesUrl("206765")))
  {
  }

  /** An upstream answering 503 to everything: the conversion reports the
      status, whichever body came with it. */
  lemma UnavailableExample(ndc: string, body: Json)
    ensures var fetch := (u: string) => Response(503, body);
      && ConversionReplies(ndc, fetch)
      && Convert(ndc, fetch) == Failed("API request failed with status code 503")
  {
  }
}
