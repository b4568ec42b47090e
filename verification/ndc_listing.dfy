/** The RXCUI -> NDC listing of the web form: the NDC-list lookup, then one
    best-effort name lookup per listed NDC. A name reply with a non-200
    status or a missing key degrades to "Unknown" for its own entry only. */
module NdcListing {

  import opened Json
  import opened RxNav

  /** The listed NDCs, when the list is an array of strings. */
  predicate IsNdcArray(ndcs: Json)
  {
    ndcs.Arr? && forall k :: 0 <= k < |ndcs.items| ==> ndcs.items[k].Str?
  }

  function NdcStrings(ndcs: Json): (r: seq<string>)
    requires IsNdcArray(ndcs)
    ensures |r| == |ndcs.items|
    ensures forall k :: 0 <= k < |r| ==> ndcs.items[k] == Str(r[k])
  {
    seq(|ndcs.items|, k requires 0 <= k < |ndcs.items| => ndcs.items[k].s)
  }

  /** The name reply for each NDC of `ndcs` is shaped as the model assumes;
      replies for NDCs that are not listed are never read. */
  predicate NameRepliesShaped(ndcs: seq<string>, fetch: string -> Response)
  {
    forall k :: 0 <= k < |ndcs| ==> NameReplyShaped(fetch(NdcStatusUrl(ndcs[k])))
  }

  /** The replies the listing reads are shaped as the model assumes: the nodes
      looked through are objects, the NDC list is an array of strings (each
      is put into a URL), and so is the name reply of every listed NDC. */
  predicate ListingReplies(rxcui: string, fetch: string -> Response)
  {
    && NdcListReplyShaped(fetch(NdcsUrl(rxcui)))
    && (var list := RxcuiToNdcs(rxcui, fetch(NdcsUrl(rxcui)));
        list.Found? ==> IsNdcArray(list.value.0) && NameRepliesShaped(NdcStrings(list.value.0), fetch))
  }

  /** The name of one NDC, from the upstream's reply to its status URL. */
  function NameOf(ndc: string, fetch: string -> Response): Json
    requires NameReplyShaped(fetch(NdcStatusUrl(ndc)))
  {
    NdcName(fetch(NdcStatusUrl(ndc)))
  }

  /** The loop of `rxcui_to_ndc`: each NDC paired with its name, in order. */
  function Annotate(ndcs: seq<string>, fetch: string -> Response): (pairs: seq<(string, Json)>)
    requires NameRepliesShaped(ndcs, fetch)
    ensures |pairs| == |ndcs|
    ensures forall k :: 0 <= k < |ndcs| ==> pairs[k] == (ndcs[k], NameOf(ndcs[k], fetch))
  {
    if |ndcs| == 0 then []
    else [(ndcs[0], NameOf(ndcs[0], fetch))] + Annotate(ndcs[1..], fetch)
  }

  /** `rxcui_to_ndc` in the annotating variant: the NDC list with a name for
      each entry, and the URL queried for the list. */
  function RxcuiToNamedNdcs(rxcui: string, fetch: string -> Response): (r: Outcome<(seq<(string, Json)>, string)>)
    requires ListingReplies(rxcui, fetch)
    ensures fetch(NdcsUrl(rxcui)).status != 200 ==> r == RequestFailed(fetch(NdcsUrl(rxcui)).status)
    ensures r.Found? <==> RxcuiToNdcs(rxcui, fetch(NdcsUrl(rxcui))).Found?
    ensures fetch(NdcsUrl(rxcui)).status == 200 && !r.Found? ==> r == NotFound(NdcNotFound)
    ensures r.NotFound? ==> r.reason == NdcNotFound
    ensures r.Found? ==>
      var list := RxcuiToNdcs(rxcui, fetch(NdcsUrl(rxcui))).value.0;
      && r.value.1 == NdcsUrl(rxcui)
      && |r.value.0| == |list.items|
      && forall k :: 0 <= k < |list.items| ==>
           && Str(r.value.0[k].0) == list.items[k]
           && r.value.0[k].1 == NameOf(r.value.0[k].0, fetch)
  {
    var list := RxcuiToNdcs(rxcui, fetch(NdcsUrl(rxcui)));
    match list
    case Found((ndcs, url)) => Found((Annotate(NdcStrings(ndcs), fetch), url))
    case RequestFailed(status) => RequestFailed(status)
    case NotFound(reason) => NotFound(reason)
  }

  /** A failed list request makes no name lookups: the outcome is the same
      whatever the upstream would have answered for the names. */
  lemma NoNameLookupsAfterFailure(rxcui: string, f: string -> Response, g: string -> Response)
    requires ListingReplies(rxcui, f) && ListingReplies(rxcui, g)
    requires f(NdcsUrl(rxcui)) == g(NdcsUrl(rxcui))
    requires !RxcuiToNdcs(rxcui, f(NdcsUrl(rxcui))).Found?
    ensures RxcuiToNamedNdcs(rxcui, f) == RxcuiToNamedNdcs(rxcui, g)
  {
  }

  /** Per-item failure isolation: when the name lookup for one NDC fails with
      a non-200 status, the listing keeps its length, that entry reads
      "Unknown", and every entry for another NDC is unchanged. */
  lemma NameFailureIsolated(ndcs: seq<string>, fetch: string -> Response, j: nat, status: int, body: Json)
    requires NameRepliesShaped(ndcs, fetch)
    requires j < |ndcs|
    requires status != 200
    ensures var failing := (u: string) => if u == NdcStatusUrl(ndcs[j]) then Response(status, body) else fetch(u);
      && NameRepliesShaped(ndcs, failing)
      && var before := Annotate(ndcs, fetch);
         var after := Annotate(ndcs, failing);
         && |after| == |before|
         && after[j] == (ndcs[j], UnknownName)
         && forall k :: 0 <= k < |ndcs| && ndcs[k] != ndcs[j] ==> after[k] == before[k]
  {
  }

  /** An example: the two NDCs listed for RXCUI 206765 come back in
      upstream order, each named "Unknown" when its name lookup fails. */
  lemma TwoNdcExample()
    ensures
      var rxcui := "206765";
      var fetch := (u: string) =>
        if u == NdcsUrl(rxcui) then
          Response(200, Obj(map["ndcGroup" := Obj(map["ndcList" := Obj(map[
            "ndc" := Arr([Str("0002-1200-30"), Str("0002-1200-50")])])])]))
        else Response(500, Null);
      && ListingReplies(rxcui, fetch)
      && RxcuiToNamedNdcs(rxcui, fetch) ==
           Found(([("0002-1200-30", UnknownName), ("0002-1200-50", UnknownName)], NdcsUrl(rxcui)))
  {
    var rxcui := "206765";
    var ndcs := Arr([Str("0002-1200-30"), Str("0002-1200-50")]);
    var fetch := (u: string) =>
      if u == NdcsUrl(rxcui) then
        Response(200, Obj(map["ndcGroup" := Obj(map["ndcList" := Obj(map["ndc" := ndcs])])]))
      else Response(500, Null);
    forall n
      ensures NameReplyShaped(fetch(NdcStatusUrl(n)))
      ensures fetch(NdcStatusUrl(n)).status == 500
    {
      EndpointsDisjoint(n, "", rxcui);
    }
    var listed := RxcuiToNdcs(rxcui, fetch(NdcsUrl(rxcui)));
    assert listed == Found((ndcs, NdcsUrl(rxcui)));
    assert NdcStrings(ndcs) == ["0002-1200-30", "0002-1200-50"];
    var pairs := Annotate(NdcStrings(ndcs), fetch);
    assert pairs == [("0002-1200-30", UnknownName), ("0002-1200-50", UnknownName)];
  }
}
