/** Facts that span several files: what the reports route does with the
    bodies the two dialogs and the upload page send, where a stored report's
    marker lands on the map, and how the signed key reaches the report's
    image address. */
module Composition {
  import opened Common
  import PotholeSchema
  import opened PotholesRoute
  import opened ReportSubmission
  import PotholeTypes
  import MapView
  import UploadPage
  import S3UploadRoute

  /** How a dialog sees a response: any status outside 200 to 299 is not OK. */
  function StatusOutcome(resp: Response): (o: Outcome<()>)
    ensures o.Ok? <==> 200 <= resp.status < 300
  {
    if 200 <= resp.status < 300 then Ok(()) else NotOk
  }

  /** A report a dialog sends never has a severity, which the route
      requires, so the route answers 400 and stores nothing; the dialog's
      attempt then fails with "Failed to submit report." whatever the
      position, image and description. */
  lemma DialogReportsRejected(file: ImageFile, loc: LatLon, description: string, bucket: string, region: string,
                              presign: Outcome<PresignReply>, upload: Outcome<()>,
                              id: PotholeSchema.Id, now: int, writeFails: bool)
    requires presign.Ok? && upload.Ok?
    ensures var body := ReportBodyFor(loc, ImageUrlFor(bucket, region, presign.value.key), description);
            var resp := PostResponse(Some(body), id, now, writeFails);
            && MissingRequired(body)
            && resp == Response(400, false, Message(MissingFields))
            && SubmitImage(file, loc, description, bucket, region, presign, upload, StatusOutcome(resp)).failure
               == Some(SubmitFailedMessage)
  {
    var body := ReportBodyFor(loc, ImageUrlFor(bucket, region, presign.value.key), description);
    FailureMessages(file, loc, description, bucket, region, presign, upload,
                    StatusOutcome(PostResponse(Some(body), id, now, writeFails)));
  }

  /** The same against the store: the dialog's report leaves the store as it was. */
  method DialogReportLeavesStore(store: Store, loc: LatLon, imageUrl: string, description: string,
                                 id: PotholeSchema.Id, now: int, writeFails: bool)
    returns (resp: Response)
    modifies store
    ensures resp == Response(400, false, Message(MissingFields))
    ensures store.reports == old(store.reports)
  {
    resp := store.Post(Some(ReportBodyFor(loc, imageUrl, description)), id, now, writeFails);
  }

  /** The upload page's report is accepted exactly when neither coordinate
      is 0 and the signing reply carried a non-empty public URL. */
  lemma UploadReportAccepted(lat: real, lon: real, publicUrl: Option<string>)
    ensures !MissingRequired(UploadPage.UploadBody(lat, lon, publicUrl)) <==>
              lat != 0.0 && lon != 0.0 && publicUrl.Some? && publicUrl.value != ""
  {
  }

  /** The record as the list endpoint hands it to the map: the stored
      fields, no severity, and the creation time rendered as text. */
  function AsListed(p: PotholeSchema.Pothole, createdAtText: string): (q: PotholeTypes.Pothole)
    ensures q.location == p.location && q.id == p.id && q.severity.None?
  {
    PotholeTypes.Pothole(p.id, p.location, p.description, p.imageUrl, None, createdAtText)
  }

  /** Stored as `[longitude, latitude]` and displayed at
      `[coordinates[1], coordinates[0]]`: a report saved from the upload
      page's photo coordinates gets its marker at exactly that latitude and
      longitude. */
  lemma MarkerAtReportedPosition(lat: real, lon: real, publicUrl: string, id: PotholeSchema.Id, now: int,
                                 createdAtText: string)
    requires lat != 0.0 && lon != 0.0 && publicUrl != ""
    ensures var resp := PostResponse(Some(UploadPage.UploadBody(lat, lon, Some(publicUrl))), id, now, false);
            && resp.status == 201
            && PotholeTypes.HasPair(AsListed(resp.reply.report, createdAtText))
            && MapView.MarkerFor(AsListed(resp.reply.report, createdAtText)).lat == lat
            && MapView.MarkerFor(AsListed(resp.reply.report, createdAtText)).lon == lon
  {
  }

  /** Swapping on store and swapping back on display is the identity on
      every pair. */
  lemma SwapTwiceIsIdentity(lat: real, lon: real, p: PotholeSchema.Pothole, createdAtText: string)
    requires p.location.coordinates == [lon, lat]
    ensures var q := AsListed(p, createdAtText);
            PotholeTypes.HasPair(q) && (MapView.MarkerFor(q).lat, MapView.MarkerFor(q).lon) == (lat, lon)
  {
  }

  /** When a dialog uploads a JPEG through the signing route, the image
      address in its report ends with the key the route signed: the fresh
      id followed by ".jpeg". */
  lemma ImageUrlNamesSignedKey(file: ImageFile, id: string, bucket: string, signed: string, region: string)
    requires file.mimeType == "image/jpeg"
    ensures var h := S3UploadRoute.Post(Some(Some(file.mimeType)), id, bucket, Some(signed));
            var url := ImageUrlFor(bucket, region, h.response.key);
            && h.response == S3UploadRoute.Presigned(signed, id + ".jpeg")
            && h.issued.value.command.key == id + ".jpeg"
            && url[|url| - |id + ".jpeg"|..] == id + ".jpeg"
  {
    S3UploadRoute.JpegKey(id);
  }
}
