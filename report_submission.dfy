/** The three-request pipeline both report dialogs run on submit: ask the
    upload route for a signed URL for the image's type, PUT the image to
    that URL, then POST the report to the reports route. Each request's
    result is an input; a failed stage ends the pipeline with a message and
    sends nothing further. */
module ReportSubmission {
  import opened Common
  import opened PotholesRoute

  /** A position as the dialogs hold it. */
  datatype LatLon = LatLon(lat: real, lon: real)

  /** The chosen image: the dialogs only read its MIME type. */
  datatype ImageFile = ImageFile(name: string, mimeType: string)

  /** The GPS part of a photo's EXIF data: each coordinate is present when
      its tag's description is a number. */
  datatype GpsTags = GpsTags(lat: Option<real>, lon: Option<real>)

  /** The JSON of the upload route's reply. */
  datatype PresignReply = PresignReply(url: string, key: string)

  /** A request sent to a server. The upload page's signing request has no
      body, hence the optional type; it uploads with a form POST. */
  datatype Request =
    | PresignRequest(fileType: Option<string>)
    | UploadPut(url: string, contentType: string)
    | UploadForm(url: string)
    | ReportPost(body: ReportBody)

  /** What a dialog or page does outside its own state, in order. */
  datatype Effect =
    | Send(request: Request)
    | CloseDialog
    | ReportSubmitted
    | Alert(message: string)
    | Navigate(url: string)
    | LocateDevice

  /** The requests of an attempt, as effects. */
  function Sends(requests: seq<Request>): (r: seq<Effect>)
    ensures |r| == |requests|
    ensures forall i :: 0 <= i < |r| ==> r[i] == Send(requests[i])
  {
    if requests == [] then [] else [Send(requests[0])] + Sends(requests[1..])
  }

  /** The requests an attempt sent, in order, and its error message if it failed. */
  datatype Attempt = Attempt(requests: seq<Request>, failure: Option<string>)

  const PresignFailedMessage: string := "Failed to get presigned URL."
  const UploadFailedMessage: string := "Failed to upload image to S3."
  const SubmitFailedMessage: string := "Failed to submit report."
  const UnknownErrorMessage: string := "An unknown error occurred."

  /** The message shown for a caught exception: its own message when it is
      an `Error`, a fixed text otherwise. */
  function ErrorMessage(e: Exception): (m: string)
    ensures e.Error? ==> m == e.message
    ensures e.NonError? ==> m == UnknownErrorMessage
  {
    match e
    case Error(message) => message
    case NonError => UnknownErrorMessage
  }

  /** The public address of an uploaded object. */
  function ImageUrlFor(bucket: string, region: string, key: string): (url: string)
    ensures |url| >= |key| && url[|url| - |key|..] == key
  {
    var url := "https://" + bucket + ".s3." + region + ".amazonaws.com/" + key;
    assert url[|url| - |key|..] == key;
    url
  }

  /** The JSON body of the report request: longitude and latitude from the
      position, the image URL and the description; no severity. */
  function ReportBodyFor(loc: LatLon, imageUrl: string, description: string): (b: ReportBody)
    ensures b.longitude == Some(loc.lon) && b.latitude == Some(loc.lat)
    ensures b.imageUrl == Some(imageUrl) && b.description == Some(description)
    ensures b.severity.None?
  {
    ReportBody(Some(loc.lon), Some(loc.lat), Some(imageUrl), Some(description), None)
  }

  /** The three stages of `handleSubmit` after its gate. A stage that is not
      OK fails with its fixed message; one that throws fails with the
      exception's message. */
  function SubmitImage(file: ImageFile, loc: LatLon, description: string, bucket: string, region: string,
                       presign: Outcome<PresignReply>, upload: Outcome<()>, report: Outcome<()>): (a: Attempt)
    ensures 1 <= |a.requests| <= 3 && a.requests[0] == PresignRequest(Some(file.mimeType))
    ensures |a.requests| >= 2 <==> presign.Ok?
    ensures |a.requests| == 3 <==> presign.Ok? && upload.Ok?
    ensures a.failure.None? <==> presign.Ok? && upload.Ok? && report.Ok?
  {
    var first := [PresignRequest(Some(file.mimeType))];
    match presign
    case NotOk => Attempt(first, Some(PresignFailedMessage))
    case Threw(e) => Attempt(first, Some(ErrorMessage(e)))
    case Ok(reply) =>
      var second := first + [UploadPut(reply.url, file.mimeType)];
      match upload
      case NotOk => Attempt(second, Some(UploadFailedMessage))
      case Threw(e) => Attempt(second, Some(ErrorMessage(e)))
      case Ok(_) =>
        var third := second + [ReportPost(ReportBodyFor(loc, ImageUrlFor(bucket, region, reply.key), description))];
        match report
        case NotOk => Attempt(third, Some(SubmitFailedMessage))
        case Threw(e) => Attempt(third, Some(ErrorMessage(e)))
        case Ok(_) => Attempt(third, None)
  }

  /** The image goes to the signed URL with its own type, and the report
      carries the position as longitude and latitude, the public address of
      the key the route returned, the description, and no severity. */
  lemma SubmittedRequests(file: ImageFile, loc: LatLon, description: string, bucket: string, region: string,
                          presign: Outcome<PresignReply>, upload: Outcome<()>, report: Outcome<()>)
    ensures var a := SubmitImage(file, loc, description, bucket, region, presign, upload, report);
            && (|a.requests| >= 2 ==> a.requests[1] == UploadPut(presign.value.url, file.mimeType))
            && (|a.requests| == 3 ==>
                  && a.requests[2].ReportPost?
                  && a.requests[2].body.longitude == Some(loc.lon)
                  && a.requests[2].body.latitude == Some(loc.lat)
                  && a.requests[2].body.imageUrl == Some(ImageUrlFor(bucket, region, presign.value.key))
                  && a.requests[2].body.description == Some(description)
                  && a.requests[2].body.severity.None?)
  {
  }

  /** A failed attempt reports the fixed message of the stage that was not
      OK, or the message of what was thrown. */
  lemma FailureMessages(file: ImageFile, loc: LatLon, description: string, bucket: string, region: string,
                        presign: Outcome<PresignReply>, upload: Outcome<()>, report: Outcome<()>)
    ensures var a := SubmitImage(file, loc, description, bucket, region, presign, upload, report);
            && (presign.NotOk? ==> a.failure == Some(PresignFailedMessage))
            && (presign.Ok? && upload.NotOk? ==> a.failure == Some(UploadFailedMessage))
            && (presign.Ok? && upload.Ok? && report.NotOk? ==> a.failure == Some(SubmitFailedMessage))
            && (presign.Threw? ==> a.failure == Some(ErrorMessage(presign.error)))
            && (presign.Ok? && upload.Threw? ==> a.failure == Some(ErrorMessage(upload.error)))
            && (presign.Ok? && upload.Ok? && report.Threw? ==> a.failure == Some(ErrorMessage(report.error)))
  {
  }
}
