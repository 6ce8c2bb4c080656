/** The simpler report dialog: five pieces of state, the fields of `Modal`,
    a device-location request on open, and the same submission pipeline as
    the map-picker dialog, with an alert on success. Requests and callbacks
    are appended to `effects`. */
module ReportModal {
  import opened Common
  import opened ReportSubmission

  const RequiredMessage: string := "Image and location are required."
  const GeolocationError: string := "Could not get location. Please enable location services."
  const SuccessAlert: string := "Report submitted successfully!"

  /** A snapshot of the dialog's five state fields. */
  datatype ModalFields = ModalFields(
    description: string,
    imageFile: Option<ImageFile>,
    location: Option<LatLon>,
    error: Option<string>,
    isSubmitting: bool)

  const InitialFields: ModalFields := ModalFields("", None, None, None, false)

  class Modal {
    const bucket: string
    const region: string

    var description: string
    var imageFile: Option<ImageFile>
    var location: Option<LatLon>
    var error: Option<string>
    var isSubmitting: bool
    /** Requests sent and callbacks made, in order. */
    var effects: seq<Effect>

    function Fields(): ModalFields
      reads this
    {
      ModalFields(description, imageFile, location, error, isSubmitting)
    }

    /** Opening the modal: empty fields, and the effect on mount asks the
        device for its position. */
    constructor (bucket: string, region: string)
      ensures this.bucket == bucket && this.region == region
      ensures Fields() == InitialFields && effects == [LocateDevice]
    {
      this.bucket, this.region := bucket, region;
      description, imageFile, location, error, isSubmitting := "", None, None, None, false;
      effects := [LocateDevice];
    }

    /** The position callback of the request made on open: it always
        applies, and clears the error. */
    method OnPosition(pos: LatLon)
      modifies this
      ensures Fields() == old(Fields()).(location := Some(pos), error := None)
      ensures effects == old(effects)
    {
      location, error := Some(pos), None;
    }

    /** The error callback: the location is kept and the error explains. */
    method OnPositionError()
      modifies this
      ensures Fields() == old(Fields()).(error := Some(GeolocationError))
      ensures effects == old(effects)
    {
      error := Some(GeolocationError);
    }

    /** `resetForm`: every field back to its initial value. */
    method ResetForm()
      modifies this
      ensures Fields() == InitialFields
      ensures effects == old(effects)
    {
      description, imageFile, location, error, isSubmitting := "", None, None, None, false;
    }

    /** `handleClose`: reset first, then tell the parent to close. */
    method HandleClose()
      modifies this
      ensures Fields() == InitialFields
      ensures effects == old(effects) + [CloseDialog]
    {
      ResetForm();
      effects := effects + [CloseDialog];
    }

    /** `handleSubmit`. Without an image or a location it only sets the
        error and sends nothing; it does not look at the submission flag.
        Otherwise it runs the pipeline; on success it alerts, resets and
        closes, then tells the parent; on failure it shows the message and
        keeps every input. The submission flag is false afterwards. */
    method HandleSubmit(presign: Outcome<PresignReply>, upload: Outcome<()>, report: Outcome<()>)
      modifies this
      ensures old(imageFile).None? || old(location).None? ==>
                Fields() == old(Fields()).(error := Some(RequiredMessage)) && effects == old(effects)
      ensures old(imageFile).Some? && old(location).Some? ==>
                var a := SubmitImage(old(imageFile).value, old(location).value, old(description), bucket, region,
                                     presign, upload, report);
                && (a.failure.None? ==>
                      && Fields() == InitialFields
                      && effects == old(effects) + Sends(a.requests) + [Alert(SuccessAlert), CloseDialog, ReportSubmitted])
                && (a.failure.Some? ==>
                      && Fields() == old(Fields()).(error := a.failure, isSubmitting := false)
                      && effects == old(effects) + Sends(a.requests))
    {
      if imageFile.None? || location.None? {
        error := Some(RequiredMessage);
        return;
      }
      error := None;
      isSubmitting := true;
      var a := SubmitImage(imageFile.value, location.value, description, bucket, region, presign, upload, report);
      effects := effects + Sends(a.requests);
      if a.failure.None? {
        effects := effects + [Alert(SuccessAlert)];
        HandleClose();
        effects := effects + [ReportSubmitted];
      } else {
        error := a.failure;
      }
      isSubmitting := false;
    }

    /** `handleImageChange`: a chosen file replaces the image; an empty
        choice changes nothing. */
    method HandleImageChange(file: Option<ImageFile>)
      modifies this
      ensures Fields() == if file.Some? then old(Fields()).(imageFile := file) else old(Fields())
      ensures effects == old(effects)
    {
      if file.Some? {
        imageFile := file;
      }
    }

    method SetDescription(text: string)
      modifies this
      ensures Fields() == old(Fields()).(description := text)
      ensures effects == old(effects)
    {
      description := text;
    }
  }
}
