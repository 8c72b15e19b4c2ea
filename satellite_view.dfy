/** The satellite imagery page (aquasentry-frontend/src/pages/SatelliteView.jsx):
    the per-scan flags the result grid draws, and the `images` and
    `uploading` state cells that the upload and fetch-live handlers step
    through. Each POST is split at its `await`: the handler up to the
    request, and a `PostSettled` event for its outcome. */
module SatelliteView {
  import opened Models

  /** Above this risk a scan is labelled HIGH RISK; at it, SAFE. */
  const RiskThreshold: real := 50.0
  /** Above this percentage a chlorophyll or turbidity index is highlighted. */
  const IndexHighlight: real := 30.0

  datatype RiskLabel = HighRisk | Safe
  datatype BarColor = RedBar | GreenBar

  /** What one card of the result grid shows besides the raw numbers. */
  datatype Card = Card(riskLabel: RiskLabel, bar: BarColor,
                       chlorophyllHighlighted: bool, turbidityHighlighted: bool)

  /** The card of one scan: the label and the risk bar both test `risk_score > 50`,
      the two indices each test `> 30`. */
  function ScanCard(scan: SatelliteScan): (c: Card)
    ensures c.riskLabel == HighRisk <==> scan.riskScore > RiskThreshold
    ensures c.bar == RedBar <==> c.riskLabel == HighRisk
    ensures c.chlorophyllHighlighted <==> scan.chlorophyllIndex > IndexHighlight
    ensures c.turbidityHighlighted <==> scan.turbidityIndex > IndexHighlight
  {
    Card(if scan.riskScore > RiskThreshold then HighRisk else Safe,
         if scan.riskScore > RiskThreshold then RedBar else GreenBar,
         scan.chlorophyllIndex > IndexHighlight,
         scan.turbidityIndex > IndexHighlight)
  }

  /** The boundary values themselves are neither HIGH RISK nor highlighted. */
  lemma BoundariesAreSafe(scan: SatelliteScan)
    requires scan.riskScore == 50.0 && scan.chlorophyllIndex == 30.0 && scan.turbidityIndex == 30.0
    ensures ScanCard(scan) == Card(Safe, GreenBar, false, false)
  {
  }

  /** The two kinds of POST the page issues. */
  datatype PostKind = Upload | FetchLive

  /** Requests the page sends, in the order it sends them. */
  datatype Request =
    | GetScans                                             // GET satellite/
    | PostImage(file: string, region: nat)                 // POST satellite/ (multipart)
    | PostFetchLive(name: string, lat: string, lon: string) // POST satellite/fetch_live/

  /** `Math.floor(Math.random() * 100)`, the number in the simulated region name. */
  type RegionNumber = n: nat | n < 100

  function FailureAlert(kind: PostKind): string
  {
    match kind
    case Upload => "Upload failed"
    case FetchLive => "Fetch failed. Ensure Sentinel API Keys are set in backend."
  }

  const MissingCoordinatesAlert: string := "Please enter coordinates"

  class SatellitePage {
    var images: seq<SatelliteScan>
    var uploading: bool
    // every request issued, oldest first
    var sent: seq<Request>
    // every alert raised, oldest first
    var alerts: seq<string>
    // the kinds of the POSTs, and the number of GETs, issued whose outcome
    // has not arrived yet
    ghost var pendingKinds: multiset<PostKind>
    ghost var pendingFetches: nat

    /** The flag is raised only while some POST is pending. */
    ghost predicate Valid()
      reads this
    {
      uploading ==> |pendingKinds| > 0
    }

    /** Mounting: no scans, not uploading, and the first `fetchImages` issued. */
    constructor ()
      ensures Valid()
      ensures images == [] && !uploading && sent == [GetScans] && alerts == []
      ensures pendingKinds == multiset{} && pendingFetches == 1
    {
      images, uploading := [], false;
      sent, alerts := [GetScans], [];
      pendingKinds, pendingFetches := multiset{}, 1;
    }

    /** `fetchImages` settles: a payload replaces `images`, a failure leaves it unchanged. */
    method FetchImagesSettled(result: Option<seq<SatelliteScan>>)
      requires Valid() && pendingFetches > 0
      modifies this
      ensures Valid()
      ensures images == if result.Some? then result.value else old(images)
      ensures uploading == old(uploading) && sent == old(sent) && alerts == old(alerts)
      ensures pendingKinds == old(pendingKinds) && pendingFetches == old(pendingFetches) - 1
    {
      match result {
        case Some(data) => images := data;
        case None =>
      }
      pendingFetches := pendingFetches - 1;
    }

    /** `handleUpload` up to its `await`: without a file nothing happens; with
        one, `uploading` is raised and the image is posted. */
    method HandleUpload(file: Option<string>, region: RegionNumber)
      requires Valid()
      modifies this
      ensures Valid()
      ensures file.None? ==>
        images == old(images) && uploading == old(uploading) && sent == old(sent)
        && pendingKinds == old(pendingKinds)
      ensures file.Some? ==>
        images == old(images) && uploading
        && sent == old(sent) + [PostImage(file.value, region)]
        && pendingKinds == old(pendingKinds) + multiset{Upload}
      ensures alerts == old(alerts) && pendingFetches == old(pendingFetches)
    {
      if file.None? {
        return;
      }
      uploading := true;
      sent := sent + [PostImage(file.value, region)];
      pendingKinds := pendingKinds + multiset{Upload};
    }

    /** The fetch-live button's handler up to its `await`: an empty latitude or
        longitude raises an alert and sends nothing; otherwise `uploading` is
        raised and the request is posted. */
    method FetchLiveClicked(name: string, lat: string, lon: string)
      requires Valid()
      modifies this
      ensures Valid()
      ensures lat == "" || lon == "" ==>
        uploading == old(uploading) && sent == old(sent)
        && alerts == old(alerts) + [MissingCoordinatesAlert]
        && pendingKinds == old(pendingKinds)
      ensures lat != "" && lon != "" ==>
        uploading && sent == old(sent) + [PostFetchLive(name, lat, lon)]
        && alerts == old(alerts) && pendingKinds == old(pendingKinds) + multiset{FetchLive}
      ensures images == old(images) && pendingFetches == old(pendingFetches)
    {
      if lat == "" || lon == "" {
        alerts := alerts + [MissingCoordinatesAlert];
        return;
      }
      uploading := true;
      sent := sent + [PostFetchLive(name, lat, lon)];
      pendingKinds := pendingKinds + multiset{FetchLive};
    }

    /** A POST settles. Success issues one re-fetch of `satellite/`; failure
        raises the kind's alert and fetches nothing. Either way the `finally`
        block lowers `uploading`, and `images` is untouched until the re-fetch
        itself settles. */
    method PostSettled(kind: PostKind, ok: bool)
      requires Valid() && kind in pendingKinds
      modifies this
      ensures Valid()
      ensures !uploading && images == old(images)
      ensures sent == old(sent) + (if ok then [GetScans] else [])
      ensures alerts == old(alerts) + (if ok then [] else [FailureAlert(kind)])
      ensures pendingKinds == old(pendingKinds) - multiset{kind}
      ensures pendingFetches == old(pendingFetches) + (if ok then 1 else 0)
    {
      if ok {
        sent := sent + [GetScans];
        pendingFetches := pendingFetches + 1;
      } else {
        alerts := alerts + [FailureAlert(kind)];
      }
      uploading := false;
      pendingKinds := pendingKinds - multiset{kind};
    }

    /** "No scans available" is shown exactly when the grid has no card, so the
        page always shows one of the two: the message or the cards. */
    predicate ShowsNoScans()
      reads this
      ensures ShowsNoScans() <==> Cards() == []
    {
      |images| == 0
    }

    /** The cards of the grid, one per scan in payload order. */
    function Cards(): (cs: seq<Card>)
      reads this
      ensures |cs| == |images|
      ensures forall i :: 0 <= i < |cs| ==> cs[i] == ScanCard(images[i])
      ensures forall i :: 0 <= i < |cs| ==> (cs[i].riskLabel == HighRisk <==> images[i].riskScore > RiskThreshold)
    {
      seq(|images|, i requires 0 <= i < |images| reads this => ScanCard(images[i]))
    }
  }

  /** An upload from a freshly mounted page: the flag is up while the POST is
      pending; a success lowers it, issues exactly one more `GET satellite/`,
      and the scans arrive only when that GET settles. */
  method UploadThenRefresh(file: string, region: RegionNumber, payload: seq<SatelliteScan>)
    returns (whilePending: bool, afterPost: bool, requests: seq<Request>, shown: seq<SatelliteScan>)
    ensures whilePending && !afterPost
    ensures requests == [GetScans, PostImage(file, region), GetScans]
    ensures shown == payload
  {
    var page := new SatellitePage();
    page.FetchImagesSettled(None);
    page.HandleUpload(Some(file), region);
    whilePending := page.uploading;
    page.PostSettled(Upload, true);
    afterPost, requests := page.uploading, page.sent;
    page.FetchImagesSettled(Some(payload));
    shown := page.images;
  }

  /** Upload and fetch-live share one flag and neither control is disabled
      while it is up: with both POSTs pending, the first to settle lowers the
      flag although the other is still pending. A failed POST leaves the grid
      as it was and fetches nothing. */
  method OverlappingPostsLowerFlagEarly(file: string, region: RegionNumber, shownBefore: seq<SatelliteScan>)
    returns (flag: bool, requests: seq<Request>, raised: seq<string>, shown: seq<SatelliteScan>)
    ensures !flag
    ensures requests == [GetScans, PostImage(file, region), PostFetchLive("Delta", "22.57", "88.36")]
    ensures raised == ["Upload failed"]
    ensures shown == shownBefore
  {
    var page := new SatellitePage();
    page.FetchImagesSettled(Some(shownBefore));
    page.HandleUpload(Some(file), region);
    page.FetchLiveClicked("Delta", "22.57", "88.36");
    page.PostSettled(Upload, false);
    flag, requests, raised, shown := page.uploading, page.sent, page.alerts, page.images;
  }
}
