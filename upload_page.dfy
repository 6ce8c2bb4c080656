/** The upload page: a disclaimer shown unless the query records that it
    was agreed to, and a drop zone whose handler checks the file's type and
    geotag, then signs, uploads and saves the report. Each request's result
    and the EXIF read are inputs; requests and the final navigation are
    appended to `effects`. */
module UploadPage {
  import opened Common
  import opened PotholesRoute
  import opened ReportSubmission

  const InvalidTypeMessage: string := "Invalid file type. Please upload a JPEG or JPG image."
  const NotGeotaggedMessage: string := "Image is not geotagged. Please enable geotagging in your camera settings."
  const PresignFailedMessage: string := "Failed to get pre-signed URL."
  const UploadFailedMessage: string := "Failed to upload to S3"
  const SaveFailedMessage: string := "Failed to save pothole data."
  const UnknownErrorMessage: string := "An unknown error occurred."
  const SuccessUrl: string := "/?upload=success"
  const DefaultDescription: string := "A new pothole report."
  const DefaultSeverity: string := "Minor"

  /** The fields the page reads from the signing route's reply; a missing
      `publicUrl` is undefined. */
  datatype UploadTicket = UploadTicket(url: string, publicUrl: Option<string>)

  /** Only JPEG images are accepted, under either MIME name. */
  predicate AcceptedType(mimeType: string)
  {
    mimeType == "image/jpeg" || mimeType == "image/jpg"
  }

  /** `e.message || fallback`: an empty or missing message gives the fallback. */
  function CaughtMessage(e: Exception): (m: string)
    ensures m != ""
    ensures e.Error? && e.message != "" ==> m == e.message
    ensures !(e.Error? && e.message != "") ==> m == UnknownErrorMessage
  {
    if e.Error? && e.message != "" then e.message else UnknownErrorMessage
  }

  /** The report body: the public URL, the photo's coordinates, and a fixed
      description and severity. An undefined public URL is left out of the
      JSON. */
  function UploadBody(lat: real, lon: real, publicUrl: Option<string>): (b: ReportBody)
    ensures b.latitude == Some(lat) && b.longitude == Some(lon) && b.imageUrl == publicUrl
    ensures b.description == Some(DefaultDescription) && b.severity == Some(DefaultSeverity)
  {
    ReportBody(Some(lon), Some(lat), publicUrl, Some(DefaultDescription), Some(DefaultSeverity))
  }

  /** The three network stages of `onDrop`, after the geotag check. */
  function UploadAttempt(lat: real, lon: real, presign: Outcome<UploadTicket>, upload: Outcome<()>, save: Outcome<()>): (a: Attempt)
    ensures 1 <= |a.requests| <= 3 && a.requests[0] == PresignRequest(None)
    ensures |a.requests| >= 2 <==> presign.Ok?
    ensures |a.requests| == 3 <==> presign.Ok? && upload.Ok?
    ensures a.failure.None? <==> presign.Ok? && upload.Ok? && save.Ok?
    ensures a.failure.Some? ==> a.failure.value != ""
    ensures presign.NotOk? ==> a.failure == Some(PresignFailedMessage)
    ensures presign.Threw? ==> a.failure == Some(CaughtMessage(presign.error))
    ensures presign.Ok? && upload.NotOk? ==> a.failure == Some(UploadFailedMessage)
    ensures presign.Ok? && upload.Threw? ==> a.failure == Some(CaughtMessage(upload.error))
    ensures presign.Ok? && upload.Ok? && save.NotOk? ==> a.failure == Some(SaveFailedMessage)
    ensures presign.Ok? && upload.Ok? && save.Threw? ==> a.failure == Some(CaughtMessage(save.error))
  {
    var first := [PresignRequest(None)];
    match presign
    case NotOk => Attempt(first, Some(PresignFailedMessage))
    case Threw(e) => Attempt(first, Some(CaughtMessage(e)))
    case Ok(ticket) =>
      var second := first + [UploadForm(ticket.url)];
      match upload
      case NotOk => Attempt(second, Some(UploadFailedMessage))
      case Threw(e) => Attempt(second, Some(CaughtMessage(e)))
      case Ok(_) =>
        var third := second + [ReportPost(UploadBody(lat, lon, ticket.publicUrl))];
        match save
        case NotOk => Attempt(third, Some(SaveFailedMessage))
        case Threw(e) => Attempt(third, Some(CaughtMessage(e)))
        case Ok(_) => Attempt(third, None)
  }

  /** The form upload goes to the signed URL, and the saved report carries
      the photo's coordinates, the public URL, "A new pothole report." and
      severity "Minor". */
  lemma UploadedRequests(lat: real, lon: real, presign: Outcome<UploadTicket>, upload: Outcome<()>, save: Outcome<()>)
    ensures var a := UploadAttempt(lat, lon, presign, upload, save);
            && (|a.requests| >= 2 ==> a.requests[1] == UploadForm(presign.value.url))
            && (|a.requests| == 3 ==> a.requests[2] == ReportPost(UploadBody(lat, lon, presign.value.publicUrl)))
  {
  }

  class Page {
    var showDisclaimer: bool
    var error: Option<string>
    var uploading: bool
    /** Requests sent and navigations made, in order. */
    var effects: seq<Effect>

    /** The disclaimer starts shown unless the `disclaimer` parameter is
        exactly `agreed`. */
    constructor (disclaimerParam: Option<string>)
      ensures showDisclaimer <==> disclaimerParam != Some("agreed")
      ensures error == None && !uploading && effects == []
    {
      showDisclaimer := disclaimerParam != Some("agreed");
      error, uploading, effects := None, false, [];
    }

    /** `onDrop`, with the first dropped file (None for none), the result of
        reading its EXIF data and the results of the three requests. The
        previous error is cleared first. Nothing more happens without a file;
        a type other than JPEG is refused before anything starts; a photo
        without both GPS tags is refused before any request. Otherwise the
        requests run until one fails; success navigates home with the
        success flag. `uploading` is false after every drop that set it, and
        the disclaimer is hidden after every drop that did not return early. */
    method OnDrop(file: Option<ImageFile>, exif: Result<GpsTags, Exception>,
                  presign: Outcome<UploadTicket>, upload: Outcome<()>, save: Outcome<()>)
      modifies this
      ensures file.None? ==>
                error == None && uploading == old(uploading) && showDisclaimer == old(showDisclaimer) && effects == old(effects)
      ensures file.Some? && !AcceptedType(file.value.mimeType) ==>
                && error == Some(InvalidTypeMessage) && uploading == old(uploading)
                && showDisclaimer == old(showDisclaimer) && effects == old(effects)
      ensures file.Some? && AcceptedType(file.value.mimeType) && exif.Failure? ==>
                error == Some(CaughtMessage(exif.error)) && !uploading && !showDisclaimer && effects == old(effects)
      ensures file.Some? && AcceptedType(file.value.mimeType) && exif.Success? && (exif.value.lat.None? || exif.value.lon.None?) ==>
                error == Some(NotGeotaggedMessage) && !uploading && showDisclaimer == old(showDisclaimer) && effects == old(effects)
      ensures file.Some? && AcceptedType(file.value.mimeType) && exif.Success? && exif.value.lat.Some? && exif.value.lon.Some? ==>
                var a := UploadAttempt(exif.value.lat.value, exif.value.lon.value, presign, upload, save);
                && effects == old(effects) + Sends(a.requests) + (if a.failure.None? then [Navigate(SuccessUrl)] else [])
                && error == a.failure && !uploading && !showDisclaimer
    {
      error := None;
      if file.None? {
        return;
      }
      if !AcceptedType(file.value.mimeType) {
        error := Some(InvalidTypeMessage);
        return;
      }
      uploading := true;
      match exif {
        case Failure(e) =>
          error := Some(CaughtMessage(e));
          uploading := false;
        case Success(tags) =>
          if tags.lat.None? || tags.lon.None? {
            error := Some(NotGeotaggedMessage);
            uploading := false;
            return;
          }
          var a := UploadAttempt(tags.lat.value, tags.lon.value, presign, upload, save);
          effects := effects + Sends(a.requests);
          if a.failure.None? {
            effects := effects + [Navigate(SuccessUrl)];
          } else {
            error := a.failure;
          }
          uploading := false;
      }
      showDisclaimer := false;
    }

    /** Agreeing in the disclaimer hides it. */
    method HandleDisclaimerAgree()
      modifies this
      ensures !showDisclaimer
      ensures error == old(error) && uploading == old(uploading) && effects == old(effects)
    {
      showDisclaimer := false;
    }

    /** The dialog's own open/close control sets the flag directly. */
    method SetShowDisclaimer(open: bool)
      modifies this
      ensures showDisclaimer == open
      ensures error == old(error) && uploading == old(uploading) && effects == old(effects)
    {
      showDisclaimer := open;
    }
  }
}
