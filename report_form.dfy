/** The report dialog with a map picker. Its ten pieces of state are the
    fields of `Form`; each handler is a method. The location comes from the
    device, from a photo's EXIF data or from a pin confirmed on the map, and
    `locationSource` says which. Every request the dialog sends and every
    callback it makes is appended to `effects`. Device geolocation, EXIF
    reading and the point-in-India test are inputs. */
module ReportForm {
  import opened Common
  import opened ReportSubmission

  const RequiredMessage: string := "Image and location are required."
  const DeviceSource: string := "Using your current device location."
  const GeolocationError: string :=
    "Could not get location. Please enable location services or select a photo with location data."
  const PhotoSource: string := "Location extracted from photo."
  const NoGpsSource: string := "Photo has no location data. Using device location."
  const UnreadableSource: string := "Could not read photo data. Using device location."
  const ManualSource: string := "Location selected manually on map."

  /** A snapshot of the dialog's ten state fields. */
  datatype FormFields = FormFields(
    description: string,
    imageFile: Option<ImageFile>,
    imagePreview: Option<string>,
    location: Option<LatLon>,
    error: Option<string>,
    isSubmitting: bool,
    locationSource: Option<string>,
    isMapVisible: bool,
    isLocationInIndia: bool,
    tempLocation: Option<LatLon>)

  const InitialFields: FormFields := FormFields("", None, None, None, None, false, None, false, true, None)

  /** The pending pin the effect on `[isMapVisible, location]` leaves: the
      current location while the map is shown, nothing otherwise. */
  function PinAfter(isMapVisible: bool, location: Option<LatLon>): (pin: Option<LatLon>)
    ensures pin.Some? <==> isMapVisible && location.Some?
    ensures pin.Some? ==> pin == location
  {
    if isMapVisible && location.Some? then location else None
  }

  /** The source text of a confirmed pin contains "manually", which is what
      `handleImageChange` looks for before leaving the location alone. */
  lemma ManualSourceIsManual()
    ensures Contains(ManualSource, "manually")
  {
    assert OccursAt(ManualSource, "manually", 18);
  }

  class Form {
    /** The bucket and region of the public image address. */
    const bucket: string
    const region: string

    var description: string
    var imageFile: Option<ImageFile>
    var imagePreview: Option<string>
    var location: Option<LatLon>
    var error: Option<string>
    var isSubmitting: bool
    var locationSource: Option<string>
    var isMapVisible: bool
    var isLocationInIndia: bool
    var tempLocation: Option<LatLon>
    /** Requests sent and callbacks made, in order. */
    var effects: seq<Effect>

    function Fields(): FormFields
      reads this
    {
      FormFields(description, imageFile, imagePreview, location, error, isSubmitting,
                 locationSource, isMapVisible, isLocationInIndia, tempLocation)
    }

    constructor (bucket: string, region: string)
      ensures this.bucket == bucket && this.region == region
      ensures Fields() == InitialFields && effects == []
    {
      this.bucket, this.region := bucket, region;
      description, imageFile, imagePreview, location, error := "", None, None, None, None;
      isSubmitting, locationSource, isMapVisible, isLocationInIndia, tempLocation := false, None, false, true, None;
      effects := [];
    }

    /** `isFormValid`: an image, a location and no submission in flight.
        The submit button is disabled exactly when this fails. */
    predicate IsFormValid()
      reads this
    {
      imageFile.Some? && location.Some? && !isSubmitting
    }

    /** The Confirm button is enabled only with a pending pin inside India. */
    predicate ConfirmEnabled()
      reads this
    {
      tempLocation.Some? && isLocationInIndia
    }

    /** `resetForm`, followed by the pin effect. The submission flag, the
        India flag and the effects are kept. */
    method ResetForm()
      modifies this
      ensures Fields() == old(Fields()).(description := "", imageFile := None, imagePreview := None,
                                         location := None, error := None, locationSource := None,
                                         isMapVisible := false, tempLocation := None)
      ensures effects == old(effects)
    {
      description, imageFile, imagePreview, location, error := "", None, None, None, None;
      locationSource, isMapVisible := None, false;
      tempLocation := PinAfter(isMapVisible, location);
    }

    /** What `handleSubmit` leaves behind, with the three stages' results. */
    twostate predicate Submitted(presign: Outcome<PresignReply>, upload: Outcome<()>, report: Outcome<()>)
      reads this
    {
      if !old(IsFormValid()) then
        Fields() == old(Fields()).(error := Some(RequiredMessage)) && effects == old(effects)
      else
        var a := SubmitImage(old(imageFile).value, old(location).value, old(description), bucket, region,
                             presign, upload, report);
        && effects == old(effects) + Sends(a.requests) + (if a.failure.None? then [CloseDialog, ReportSubmitted] else [])
        && (a.failure.None? ==>
              Fields() == old(Fields()).(description := "", imageFile := None, imagePreview := None,
                                         location := None, error := None, locationSource := None,
                                         isMapVisible := false, tempLocation := None))
        && (a.failure.Some? ==> Fields() == old(Fields()).(error := a.failure))
    }

    /** `handleSubmit`. Without an image, a location, or with a submission in
        flight it only sets the error and sends nothing. Otherwise it runs
        the pipeline; on success it closes the dialog, tells the parent and
        resets the form; on failure it shows the message and keeps every
        input. The submission flag is false afterwards in both cases. */
    method HandleSubmit(presign: Outcome<PresignReply>, upload: Outcome<()>, report: Outcome<()>)
      modifies this
      ensures Submitted(presign, upload, report)
      ensures isSubmitting == old(isSubmitting)
    {
      if !IsFormValid() {
        error := Some(RequiredMessage);
        return;
      }
      var file, loc := imageFile.value, location.value;
      error := None;
      isSubmitting := true;
      var a := SubmitImage(file, loc, description, bucket, region, presign, upload, report);
      effects := effects + Sends(a.requests);
      if a.failure.None? {
        effects := effects + [CloseDialog, ReportSubmitted];
        ResetForm();
      } else {
        error := a.failure;
      }
      isSubmitting := false;
    }

    /** The form's submit event: ignored while the map picker is shown. */
    method Submit(presign: Outcome<PresignReply>, upload: Outcome<()>, report: Outcome<()>)
      modifies this
      ensures old(isMapVisible) ==> Fields() == old(Fields()) && effects == old(effects)
      ensures !old(isMapVisible) ==> Submitted(presign, upload, report)
    {
      if !isMapVisible {
        HandleSubmit(presign, upload, report);
      }
    }

    /** The geolocation effect, run after a change of `location` or
        `isMapVisible`: it asks the device for a position only while no
        location is set and the map is hidden. */
    method RequestDeviceLocation()
      modifies this
      ensures Fields() == old(Fields())
      ensures old(location).None? && !old(isMapVisible) ==> effects == old(effects) + [LocateDevice]
      ensures old(location).Some? || old(isMapVisible) ==> effects == old(effects)
    {
      if location.None? && !isMapVisible {
        effects := effects + [LocateDevice];
      }
    }

    /** The position callback, guarded by the location at the time it runs:
        a device position is applied only while no location is set. */
    method OnPosition(pos: LatLon)
      modifies this
      ensures old(location).None? ==>
                Fields() == old(Fields()).(location := Some(pos), locationSource := Some(DeviceSource),
                                           error := None, tempLocation := PinAfter(old(isMapVisible), Some(pos)))
      ensures old(location).Some? ==> Fields() == old(Fields())
      ensures effects == old(effects)
    {
      if location.None? {
        location, locationSource, error := Some(pos), Some(DeviceSource), None;
        tempLocation := PinAfter(isMapVisible, location);
      }
    }

    /** The error callback, guarded the same way. */
    method OnPositionError()
      modifies this
      ensures old(location).None? ==> Fields() == old(Fields()).(error := Some(GeolocationError))
      ensures old(location).Some? ==> Fields() == old(Fields())
      ensures effects == old(effects)
    {
      if location.None? {
        error := Some(GeolocationError);
      }
    }

    /** The position callback as written: its guard reads `captured`, the
        location when the request was made, which the request's own guard
        made empty. The current location is not consulted. */
    method OnPositionAsWritten(captured: Option<LatLon>, pos: LatLon)
      modifies this
      ensures captured.None? ==>
                Fields() == old(Fields()).(location := Some(pos), locationSource := Some(DeviceSource),
                                           error := None, tempLocation := PinAfter(old(isMapVisible), Some(pos)))
      ensures captured.Some? ==> Fields() == old(Fields())
      ensures effects == old(effects)
    {
      if captured.None? {
        location, locationSource, error := Some(pos), Some(DeviceSource), None;
        tempLocation := PinAfter(isMapVisible, location);
      }
    }

    /** The error callback as written, with the same captured guard. */
    method OnPositionErrorAsWritten(captured: Option<LatLon>)
      modifies this
      ensures captured.None? ==> Fields() == old(Fields()).(error := Some(GeolocationError))
      ensures captured.Some? ==> Fields() == old(Fields())
      ensures effects == old(effects)
    {
      if captured.None? {
        error := Some(GeolocationError);
      }
    }

    /** `handleImageChange`, with the file chosen (None when the input holds
        none), its preview URL and the result of reading its EXIF data. The
        image is always taken. A location chosen manually is never replaced;
        otherwise the photo's position is adopted only when both GPS
        coordinates are numbers, and the source text says what happened. */
    method HandleImageChange(file: Option<ImageFile>, preview: string, exif: Result<GpsTags, Exception>)
      modifies this
      ensures file.None? ==> Fields() == old(Fields())
      ensures file.Some? && old(locationSource).Some? && Contains(old(locationSource).value, "manually") ==>
                Fields() == old(Fields()).(imageFile := file, imagePreview := Some(preview))
      ensures file.Some? && !(old(locationSource).Some? && Contains(old(locationSource).value, "manually")) ==>
                if exif.Success? && exif.value.lat.Some? && exif.value.lon.Some? then
                  var loc := Some(LatLon(exif.value.lat.value, exif.value.lon.value));
                  Fields() == old(Fields()).(imageFile := file, imagePreview := Some(preview), location := loc,
                                             locationSource := Some(PhotoSource),
                                             tempLocation := PinAfter(old(isMapVisible), loc))
                else
                  Fields() == old(Fields()).(imageFile := file, imagePreview := Some(preview),
                                             locationSource := Some(if exif.Success? then NoGpsSource else UnreadableSource))
      ensures effects == old(effects)
    {
      if file.None? {
        return;
      }
      imageFile, imagePreview := file, Some(preview);
      if locationSource.Some? && Contains(locationSource.value, "manually") {
        return;
      }
      match exif {
        case Success(tags) =>
          if tags.lat.Some? && tags.lon.Some? {
            location := Some(LatLon(tags.lat.value, tags.lon.value));
            locationSource := Some(PhotoSource);
            tempLocation := PinAfter(isMapVisible, location);
          } else {
            locationSource := Some(NoGpsSource);
          }
        case Failure(_) =>
          locationSource := Some(UnreadableSource);
      }
    }

    /** `handleManualLocationSelect`: with a pending pin, make it the
        location, mark the source as manual, hide the map and clear the
        error; the pin effect then clears the pending pin. Without one,
        nothing happens. */
    method HandleManualLocationSelect()
      modifies this
      ensures old(tempLocation).Some? ==>
                Fields() == old(Fields()).(location := old(tempLocation), locationSource := Some(ManualSource),
                                           isMapVisible := false, error := None, tempLocation := None)
      ensures old(tempLocation).None? ==> Fields() == old(Fields())
      ensures effects == old(effects)
    {
      if tempLocation.Some? {
        location, locationSource, isMapVisible, error := tempLocation, Some(ManualSource), false, None;
        tempLocation := PinAfter(isMapVisible, location);
      }
    }

    /** The Confirm button: disabled without a pending pin or with a pin
        outside India, otherwise `handleManualLocationSelect`. A location
        confirmed this way always lies in India. */
    method ClickConfirm()
      modifies this
      ensures !old(ConfirmEnabled()) ==> Fields() == old(Fields())
      ensures old(ConfirmEnabled()) ==>
                Fields() == old(Fields()).(location := old(tempLocation), locationSource := Some(ManualSource),
                                           isMapVisible := false, error := None, tempLocation := None)
      ensures location != old(location) ==> old(isLocationInIndia)
      ensures effects == old(effects)
    {
      if ConfirmEnabled() {
        HandleManualLocationSelect();
      }
    }

    /** A click on the map or the end of a pin drag: the pin moves there and
        `inIndia` is the point-in-India test's answer for it. */
    method PlacePin(pin: LatLon, inIndia: bool)
      modifies this
      ensures Fields() == old(Fields()).(isLocationInIndia := inIndia, tempLocation := Some(pin))
      ensures effects == old(effects)
    {
      isLocationInIndia, tempLocation := inIndia, Some(pin);
    }

    /** The map button shows the picker; the pin effect starts the pending
        pin at the current location. */
    method ShowMap()
      modifies this
      ensures Fields() == old(Fields()).(isMapVisible := true, tempLocation := old(location))
      ensures effects == old(effects)
    {
      isMapVisible := true;
      tempLocation := PinAfter(isMapVisible, location);
    }

    /** The picker's Cancel hides it; the pin effect drops the pending pin. */
    method HideMap()
      modifies this
      ensures Fields() == old(Fields()).(isMapVisible := false, tempLocation := None)
      ensures effects == old(effects)
    {
      isMapVisible := false;
      tempLocation := PinAfter(isMapVisible, location);
    }

    method SetDescription(text: string)
      modifies this
      ensures Fields() == old(Fields()).(description := text)
      ensures effects == old(effects)
    {
      description := text;
    }
  }

  /** A location confirmed on the map survives every later photo: after a
      confirm, choosing an image with readable GPS data keeps the confirmed
      location and its source. */
  method ManualLocationSurvivesPhoto(f: Form, file: ImageFile, preview: string, exif: Result<GpsTags, Exception>)
    requires f.ConfirmEnabled()
    modifies f
    ensures f.location == old(f.tempLocation) && f.locationSource == Some(ManualSource)
    ensures f.imageFile == Some(file)
  {
    f.ClickConfirm();
    ManualSourceIsManual();
    f.HandleImageChange(Some(file), preview, exif);
  }

  /** Once a photo's GPS data has set the location, the geolocation effect
      that runs next asks the device for nothing. */
  method PhotoLocationStopsDeviceRequest(f: Form, file: ImageFile, preview: string, lat: real, lon: real)
    requires !(f.locationSource.Some? && Contains(f.locationSource.value, "manually"))
    modifies f
    ensures f.location == Some(LatLon(lat, lon)) && f.locationSource == Some(PhotoSource)
    ensures f.effects == old(f.effects)
  {
    f.HandleImageChange(Some(file), preview, Success(GpsTags(Some(lat), Some(lon))));
    f.RequestDeviceLocation();
  }

  /** Once a pin has been confirmed on the map, the geolocation effect that
      runs next asks the device for nothing. */
  method ConfirmedPinStopsDeviceRequest(f: Form)
    requires f.tempLocation.Some?
    modifies f
    ensures f.location == old(f.tempLocation) && f.locationSource == Some(ManualSource)
    ensures f.effects == old(f.effects)
  {
    f.HandleManualLocationSelect();
    f.RequestDeviceLocation();
  }

  /** A pin the India test rejects cannot be confirmed: the location, its
      source and the open picker stay as they were. */
  method OutsideIndiaPinNotConfirmed(f: Form, pin: LatLon)
    modifies f
    ensures f.location == old(f.location) && f.locationSource == old(f.locationSource)
    ensures f.isMapVisible == old(f.isMapVisible) && f.tempLocation == Some(pin)
  {
    f.PlacePin(pin, false);
    f.ClickConfirm();
  }

  /** The stale guard at work: the device request is made on a fresh form,
      a photo with GPS data then sets the location, and the device position
      arrives last. As written the device position replaces the photo's;
      with the guard on the current location the photo's is kept. */
  method StaleGeolocationGuard() returns (photo: LatLon, asWritten: Option<LatLon>, corrected: Option<LatLon>)
    ensures asWritten != Some(photo)
    ensures corrected == Some(photo)
  {
    photo := LatLon(19.2, 72.9);
    var device := LatLon(28.6, 77.2);
    var tags := Success(GpsTags(Some(photo.lat), Some(photo.lon)));
    var file := ImageFile("pothole.jpg", "image/jpeg");

    var f := new Form("bucket", "region");
    f.RequestDeviceLocation();
    assert f.effects == [LocateDevice];
    var captured := f.location;
    f.HandleImageChange(Some(file), "blob:preview", tags);
    f.OnPositionAsWritten(captured, device);
    asWritten := f.location;

    var g := new Form("bucket", "region");
    g.RequestDeviceLocation();
    g.HandleImageChange(Some(file), "blob:preview", tags);
    g.OnPosition(device);
    corrected := g.location;
  }
}
