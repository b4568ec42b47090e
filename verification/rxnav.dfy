/** The RxNorm REST endpoints the clients query, and the interpretation of
    one reply from each: the URL is assembled by plain concatenation, the
    status is checked before the body is read, and a missing nested key is a
    "not found" failure. */
module RxNav {

  import opened Optional
  import opened Json
  import Decimal

  const NdcStatusPrefix := "https://rxnav.nlm.nih.gov/REST/ndcstatus.json?ndc="
  const RxcuiPrefix := "https://rxnav.nlm.nih.gov/REST/rxcui/"
  const PropertiesSuffix := "/properties.json"
  const NdcsSuffix := "/ndcs.json"

  const RxcuiNotFound := "RXCUI not found for the given NDC"
  const PropertiesNotFound := "Properties not found for the given RXCUI"
  const NdcNotFound := "NDC not found for the given RXCUI"

  /** The name reported for an NDC whose name lookup gave nothing. */
  const UnknownName := Str("Unknown")

  /** An HTTP reply as the clients see it: the status code and the decoded body. */
  datatype Response = Response(status: int, body: Json)

  /** What one lookup produces: the value, a transport failure carrying the
      status code, or a not-found failure carrying its reason. */
  datatype Outcome<+T> =
    | Found(value: T)
    | RequestFailed(status: int)
    | NotFound(reason: string)
  {
    /** The text of the exception the Python code raises for a failure. */
    function Message(): string
      requires !Found?
    {
      match this
      case RequestFailed(status) => StatusMessage(status)
      case NotFound(reason) => reason
    }

    /** Keeps the failure, transforms the value. */
    function MapValue<U>(f: T -> U): Outcome<U>
    {
      match this
      case Found(v) => Found(f(v))
      case RequestFailed(status) => RequestFailed(status)
      case NotFound(reason) => NotFound(reason)
    }
  }

  const StatusMessagePrefix := "API request failed with status code "

  /** The text of the exception raised for a non-200 reply: the fixed prefix,
      then the status code as Python's `str()` writes it, from which the code
      can be read back. */
  function StatusMessage(status: int): (msg: string)
    ensures |msg| > |StatusMessagePrefix|
    ensures msg[..|StatusMessagePrefix|] == StatusMessagePrefix
    ensures msg[|StatusMessagePrefix|..] == Decimal.IntToString(status)
    ensures Decimal.ParseInt(msg[|StatusMessagePrefix|..]) == Some(status)
  {
    var numeral := Decimal.IntToString(status);
    Decimal.ParseIntToString(status);
    assert (StatusMessagePrefix + numeral)[|StatusMessagePrefix|..] == numeral;
    StatusMessagePrefix + numeral
  }

  /** Different status codes give different messages: the message names the
      status that failed. */
  lemma StatusMessagesDistinct(a: int, b: int)
    requires StatusMessage(a) == StatusMessage(b)
    ensures a == b
  {
    var n := |StatusMessagePrefix|;
    assert Decimal.ParseInt(StatusMessage(a)[n..]) == Some(a);
    assert Decimal.ParseInt(StatusMessage(b)[n..]) == Some(b);
  }

  // ---------------------------------------------------------------- URLs

  /** The NDC-status URL: the fixed prefix, then the NDC exactly as given. */
  function NdcStatusUrl(ndc: string): (url: string)
    ensures |url| == |NdcStatusPrefix| + |ndc|
    ensures url[..|NdcStatusPrefix|] == NdcStatusPrefix
    ensures url[|NdcStatusPrefix|..] == ndc
  {
    NdcStatusPrefix + ndc
  }

  /** The properties URL: the rxcui prefix, the RXCUI as given, the suffix. */
  function PropertiesUrl(rxcui: string): (url: string)
    ensures |url| == |RxcuiPrefix| + |rxcui| + |PropertiesSuffix|
    ensures url[..|RxcuiPrefix|] == RxcuiPrefix
    ensures url[|RxcuiPrefix|..|url| - |PropertiesSuffix|] == rxcui
    ensures url[|url| - |PropertiesSuffix|..] == PropertiesSuffix
  {
    RxcuiPrefix + rxcui + PropertiesSuffix
  }

  /** The NDC-list URL: the rxcui prefix, the RXCUI as given, the suffix. */
  function NdcsUrl(rxcui: string): (url: string)
    ensures |url| == |RxcuiPrefix| + |rxcui| + |NdcsSuffix|
    ensures url[..|RxcuiPrefix|] == RxcuiPrefix
    ensures url[|RxcuiPrefix|..|url| - |NdcsSuffix|] == rxcui
    ensures url[|url| - |NdcsSuffix|..] == NdcsSuffix
  {
    RxcuiPrefix + rxcui + NdcsSuffix
  }

  /** Reads the NDC back out of an NDC-status URL. */
  function NdcOfStatusUrl(url: string): Option<string>
  {
    if |NdcStatusPrefix| <= |url| && url[..|NdcStatusPrefix|] == NdcStatusPrefix
    then Some(url[|NdcStatusPrefix|..])
    else None
  }

  /** Reads the RXCUI back out of a properties URL. */
  function RxcuiOfPropertiesUrl(url: string): Option<string>
  {
    if |RxcuiPrefix| + |PropertiesSuffix| <= |url|
       && url[..|RxcuiPrefix|] == RxcuiPrefix
       && url[|url| - |PropertiesSuffix|..] == PropertiesSuffix
    then Some(url[|RxcuiPrefix|..|url| - |PropertiesSuffix|])
    else None
  }

  /** Reads the RXCUI back out of an NDC-list URL. */
  function RxcuiOfNdcsUrl(url: string): Option<string>
  {
    if |RxcuiPrefix| + |NdcsSuffix| <= |url|
       && url[..|RxcuiPrefix|] == RxcuiPrefix
       && url[|url| - |NdcsSuffix|..] == NdcsSuffix
    then Some(url[|RxcuiPrefix|..|url| - |NdcsSuffix|])
    else None
  }

  /** The NDC is inserted verbatim: it is recovered unchanged from the URL,
      and every URL the reader accepts is the URL of what it reads. */
  lemma NdcStatusUrlRoundTrip(ndc: string, url: string)
    ensures NdcOfStatusUrl(NdcStatusUrl(ndc)) == Some(ndc)
    ensures NdcOfStatusUrl(url) == Some(ndc) ==> NdcStatusUrl(ndc) == url
  {
  }

  /** The RXCUI is inserted verbatim into the properties URL. */
  lemma PropertiesUrlRoundTrip(rxcui: string, url: string)
    ensures RxcuiOfPropertiesUrl(PropertiesUrl(rxcui)) == Some(rxcui)
    ensures RxcuiOfPropertiesUrl(url) == Some(rxcui) ==> PropertiesUrl(rxcui) == url
  {
  }

  /** The RXCUI is inserted verbatim into the NDC-list URL. */
  lemma NdcsUrlRoundTrip(rxcui: string, url: string)
    ensures RxcuiOfNdcsUrl(NdcsUrl(rxcui)) == Some(rxcui)
    ensures RxcuiOfNdcsUrl(url) == Some(rxcui) ==> NdcsUrl(rxcui) == url
  {
  }

  /** The three endpoints never share a URL, whatever identifiers are
      inserted: a reply is never mistaken for another endpoint's. */
  lemma EndpointsDisjoint(ndc: string, a: string, b: string)
    ensures NdcStatusUrl(ndc) != PropertiesUrl(a)
    ensures NdcStatusUrl(ndc) != NdcsUrl(b)
    ensures PropertiesUrl(a) != NdcsUrl(b)
  {
    var pa := PropertiesUrl(a);
    var nb := NdcsUrl(b);
    assert NdcStatusUrl(ndc)[31] == 'n' && pa[31] == 'r' && nb[31] == 'r';
    assert pa[|pa| - 7] == 'e' && nb[|nb| - 7] == 'c';
  }

  // ---------------------------------------------------------------- replies

  /** The nodes the NDC-status lookup walks through are objects (read only on 200). */
  predicate RxcuiReplyShaped(resp: Response)
  {
    resp.status == 200 ==> ObjectsAlong(resp.body, ["ndcStatus", "rxcui"])
  }

  /** The properties reply's body is an object (read only on 200). */
  predicate PropertiesReplyShaped(resp: Response)
  {
    resp.status == 200 ==> resp.body.Obj?
  }

  /** The nodes the NDC-list lookup walks through are objects (read only on 200). */
  predicate NdcListReplyShaped(resp: Response)
  {
    resp.status == 200 ==> ObjectsAlong(resp.body, ["ndcGroup", "ndcList", "ndc"])
  }

  /** The nodes the name lookup walks through are objects (read only on 200). */
  predicate NameReplyShaped(resp: Response)
  {
    resp.status == 200 ==> ObjectsAlong(resp.body, ["ndcStatus", "active", "name"])
  }

  /** `ndc_to_rxcui` in the variant that returns the RXCUI with the URL it
      queried; `resp` is the reply to that URL. */
  function NdcToRxcui(ndc: string, resp: Response): (r: Outcome<(Json, string)>)
    requires RxcuiReplyShaped(resp)
    ensures resp.status != 200 ==> r == RequestFailed(resp.status)
    ensures resp.status == 200 ==> !r.RequestFailed?
    ensures r.Found? <==>
      && resp.status == 200
      && "ndcStatus" in resp.body.fields
      && "rxcui" in resp.body.fields["ndcStatus"].fields
    ensures r.Found? ==>
      r.value == (resp.body.fields["ndcStatus"].fields["rxcui"], NdcStatusUrl(ndc))
    ensures r.NotFound? ==> r.reason == RxcuiNotFound
  {
    if resp.status != 200 then RequestFailed(resp.status)
    else
      Dig2(resp.body, "ndcStatus", "rxcui");
      match Dig(resp.body, ["ndcStatus", "rxcui"])
      case Some(rxcui) => Found((rxcui, NdcStatusUrl(ndc)))
      case None => NotFound(RxcuiNotFound)
  }

  /** `ndc_to_rxcui` in the variant that returns the RXCUI alone: the URL is
      built for the request but is not part of the result. */
  function NdcToRxcuiValue(ndc: string, resp: Response): (r: Outcome<Json>)
    requires RxcuiReplyShaped(resp)
    ensures r == NdcToRxcui(ndc, resp).MapValue((p: (Json, string)) => p.0)
  {
    if resp.status != 200 then RequestFailed(resp.status)
    else
      Dig2(resp.body, "ndcStatus", "rxcui");
      match Dig(resp.body, ["ndcStatus", "rxcui"])
      case Some(rxcui) => Found(rxcui)
      case None => NotFound(RxcuiNotFound)
  }

  /** `get_rxcui_info` in the variant that returns the properties object with
      the URL it queried. */
  function RxcuiProperties(rxcui: string, resp: Response): (r: Outcome<(Json, string)>)
    requires PropertiesReplyShaped(resp)
    ensures resp.status != 200 ==> r == RequestFailed(resp.status)
    ensures resp.status == 200 ==> !r.RequestFailed?
    ensures r.Found? <==> resp.status == 200 && "properties" in resp.body.fields
    ensures r.Found? ==> r.value == (resp.body.fields["properties"], PropertiesUrl(rxcui))
    ensures r.NotFound? ==> r.reason == PropertiesNotFound
  {
    if resp.status != 200 then RequestFailed(resp.status)
    else if "properties" in resp.body.fields then
      Found((resp.body.fields["properties"], PropertiesUrl(rxcui)))
    else NotFound(PropertiesNotFound)
  }

  /** `get_rxcui_info` in the variant that returns the properties object alone. */
  function RxcuiPropertiesValue(rxcui: string, resp: Response): (r: Outcome<Json>)
    requires PropertiesReplyShaped(resp)
    ensures r == RxcuiProperties(rxcui, resp).MapValue((p: (Json, string)) => p.0)
  {
    if resp.status != 200 then RequestFailed(resp.status)
    else if "properties" in resp.body.fields then Found(resp.body.fields["properties"])
    else NotFound(PropertiesNotFound)
  }

  /** `rxcui_to_ndc` in the variant that returns the upstream NDC list as it
      came, with the URL it queried. */
  function RxcuiToNdcs(rxcui: string, resp: Response): (r: Outcome<(Json, string)>)
    requires NdcListReplyShaped(resp)
    ensures resp.status != 200 ==> r == RequestFailed(resp.status)
    ensures resp.status == 200 ==> !r.RequestFailed?
    ensures r.Found? <==>
      && resp.status == 200
      && "ndcGroup" in resp.body.fields
      && "ndcList" in resp.body.fields["ndcGroup"].fields
      && "ndc" in resp.body.fields["ndcGroup"].fields["ndcList"].fields
    ensures r.Found? ==>
      r.value == (resp.body.fields["ndcGroup"].fields["ndcList"].fields["ndc"], NdcsUrl(rxcui))
    ensures r.NotFound? ==> r.reason == NdcNotFound
  {
    if resp.status != 200 then RequestFailed(resp.status)
    else
      Dig3(resp.body, "ndcGroup", "ndcList", "ndc");
      match Dig(resp.body, ["ndcGroup", "ndcList", "ndc"])
      case Some(ndcs) => Found((ndcs, NdcsUrl(rxcui)))
      case None => NotFound(NdcNotFound)
  }

  /** `get_ndc_name`, given the reply to the NDC's status URL: the drug name
      recorded for the NDC. A non-200 status and a missing key both give
      "Unknown" rather than an exception. */
  function NdcName(resp: Response): (name: Json)
    requires NameReplyShaped(resp)
    ensures resp.status != 200 ==> name == UnknownName
    ensures
      var named := resp.status == 200
        && "ndcStatus" in resp.body.fields
        && "active" in resp.body.fields["ndcStatus"].fields
        && "name" in resp.body.fields["ndcStatus"].fields["active"].fields;
      && (named ==> name == resp.body.fields["ndcStatus"].fields["active"].fields["name"])
      && (!named ==> name == UnknownName)
  {
    if resp.status != 200 then UnknownName
    else
      Dig3(resp.body, "ndcStatus", "active", "name");
      match Dig(resp.body, ["ndcStatus", "active", "name"])
      case Some(name) => name
      case None => UnknownName
  }
}
