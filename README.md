# Spothole core, modelled in Dafny

Spothole is a web app for reporting potholes. A user drops a geotagged photo
or fills in a report dialog. The photo goes to an object store through a
signed URL, and the report, a GeoJSON Point with longitude first, is saved
in a document store. The home page shows every report on a clustered map,
newest first.

This project models the parts of that app whose behaviour can be stated
exactly, one Dafny module per source file:

- The server side:
  - the reports route (`PotholesRoute`): validation, record construction, newest-first listing, status codes;
  - the report schema (`PotholeSchema`): required paths, the `Point` and status enums, defaults, timestamps;
  - the signing route (`S3UploadRoute`): object key derivation, the upload command, error mapping.
- Pure formatting:
  - address assembly (`Geocode`);
  - cluster icons, legend colours and marker placement (`MapView`);
  - the details panel's date and maps link (`PotholeDetails`);
  - the language switch (`LanguageSwitcher`).
- The client state machines, as classes whose fields are the components' state:
  - the map-picker report dialog (`ReportForm.Form`);
  - the simpler dialog (`ReportModal.Modal`);
  - the upload page (`UploadPage.Page`);
  - the refreshable map list (`ClientMap.MapList`);
  - the home page (`HomePage.Home`).

  The three-request pipeline that both dialogs run is defined once, in `ReportSubmission`.

Every request, EXIF read, geolocation answer and point-in-India test is an
input. The `Outcome` type stands for a fetch's result: `Ok(value)`, `NotOk`
for a non-2xx status, or `Threw(e)`. Each client class appends the requests
it sends and the callbacks it makes to an `effects` sequence, so their order
is part of every contract.

`Composition` proves facts that span files:

- Neither report dialog sends a `severity`. The reports route requires one,
  so their report is always answered with 400 and nothing is stored. A
  dialog submission against this route therefore always ends with
  "Failed to submit report."
- A report saved from the upload page's photo coordinates gets its map
  marker at exactly that latitude and longitude.
- The image address in a dialog's report ends with the key the signing
  route issued.

The report schema declares no `severity` path, so the document store's
strict mode drops the severity that the reports route copies into the new
object. Stored and listed reports therefore have none.

## Model

| member | source | states |
|---|---|---|
| PotholesRoute.PostResponse | src/app/api/potholes/route.ts:23-58 | An unparsable body gives 500 "Server Error". A falsy longitude, latitude, imageUrl or severity gives 400 "Missing required fields". A failing write gives 500. Otherwise the answer is 201 with success and the created record: a Point at [longitude, latitude], the image URL and description as given, status Reported, empty upvotes and comments. The answer is 201 exactly in that last case. |
| PotholesRoute.ListResponse | src/app/api/potholes/route.ts:5-21 | A failing read gives 500. Otherwise 200 with every stored report, ordered by createdAt descending, as a permutation of the store. |
| PotholesRoute.Store.Post | src/app/api/potholes/route.ts:23-58 | Returns the response above. The store gains the created report exactly when the answer is 201 and is unchanged otherwise. |
| PotholesRoute.Store.Get | src/app/api/potholes/route.ts:5-21 | Answers with the list response over the current store and changes nothing. |
| PotholesRoute.MissingRequired | src/app/api/potholes/route.ts:31 | The guard tests the four fields' truthiness; its consequences are stated by PostResponse, ZeroCoordinateRejected and DescriptionOptional. |
| PotholesRoute.BuildData | src/app/api/potholes/route.ts:38-46 | The location is a Point with coordinates [longitude, latitude]; image URL, description and severity are copied unchanged. |
| PotholesRoute.ToRaw | src/app/api/potholes/route.ts:48 | The object the store validates carries location, image URL and description, and has no status, reporter, upvotes or comments. |
| PotholesRoute.AcceptedBodyIsStorable | src/app/api/potholes/route.ts:38-48 | Every body that passes the route's check also passes the schema. The stored report keeps the body's coordinates, image and description, with the schema defaults. |
| PotholesRoute.InsertByDate | src/app/api/potholes/route.ts:9 | Inserting into a newest-first list keeps it newest-first and adds exactly that report. |
| PotholesRoute.NewestFirst | src/app/api/potholes/route.ts:9 | The result is ordered by createdAt descending and is a permutation of the input. |
| PotholesRoute.ConsNewestFirst | src/app/api/potholes/route.ts:9 | A report no older than any in a newest-first list can go in front of it. |
| PotholesRoute.ZeroCoordinateRejected | src/app/api/potholes/route.ts:31 | A longitude or latitude of exactly 0 counts as missing. |
| PotholesRoute.DescriptionOptional | src/app/api/potholes/route.ts:28-40 | The description plays no part in acceptance. |
| PotholeSchema.ParseStatus | src/models/Pothole.ts:60-64 | A status name passes the enum only as the stored spelling of a status. |
| PotholeSchema.StatusEnumExact | src/models/Pothole.ts:60-64 | Exactly "Reported", "In Progress" and "Resolved" are admitted, each for its own status. |
| PotholeSchema.CommentViolations | src/models/Pothole.ts:24-33 | A comment fails on `user` exactly when it has none, and on `text` exactly when the text is absent or empty. |
| PotholeSchema.NewComment | src/models/Pothole.ts:24-38 | A valid comment keeps user and text; createdAt defaults to the creation time. |
| PotholeSchema.FailingAmong | src/models/Pothole.ts:40-81 | The failing paths are exactly those of the given paths whose validator fails. |
| PotholeSchema.Violations | src/models/Pothole.ts:40-81 | Exactly the report paths whose required or enum validator fails; empty exactly when all pass. |
| PotholeSchema.NewComments | src/models/Pothole.ts:75-78 | Each given comment becomes its stored form, in order. |
| PotholeSchema.Create | src/models/Pothole.ts:40-81 | Fails exactly when some path is invalid, with those paths. On success: a Point with the given coordinates, a non-empty image URL, description and reporter as given, both timestamps set to now. Status, upvotes and comments take their defaults when absent. |
| PotholeSchema.NewReportDefaults | src/models/Pothole.ts:57-78 | A report naming only the required paths is created Reported, with no upvotes, comments, description or reporter. |
| PotholeSchema.StoredReportShape | src/models/Pothole.ts:42-64 | Every created report is a Point, and its status is one of the three admitted names. |
| S3UploadRoute.Post | src/app/api/s3-upload/route.ts:14-47 | An unparsable body gives 500. A missing or empty fileType gives 400 "File type is required." and no signing request. Otherwise the handler signs a request for key ObjectKey with the file type as content type. It returns the URL and key, or 500 "Error creating presigned URL." when signing fails. |
| S3UploadRoute.SignRequestFor | src/app/api/s3-upload/route.ts:29-37 | The upload command has the given bucket, key and content type, and the URL lives 60 seconds. |
| S3UploadRoute.ReturnedKeyIsSignedKey | src/app/api/s3-upload/route.ts:29-39 | Whenever a URL is returned, the returned key is the signed command's key, the content type is the requested type and the lifetime is 60 seconds. |
| S3UploadRoute.Subtype | src/app/api/s3-upload/route.ts:26 | The subtype is defined exactly when the type contains a '/', and it never contains one. |
| S3UploadRoute.ObjectKey | src/app/api/s3-upload/route.ts:25-27 | The key is the id and a dot, followed by text without '/', so it never names a deeper path. |
| Common.SplitCount | src/app/api/s3-upload/route.ts:26 | A split has a second part exactly when the separator occurs. |
| S3UploadRoute.KeyTakesSecondSegment | src/app/api/s3-upload/route.ts:25-27 | The key is the id, a dot, and the segment of the type between its first and second '/'. |
| S3UploadRoute.KeyWithoutSlash | src/app/api/s3-upload/route.ts:26-27 | A type with no '/' gives the key `<id>.undefined`. |
| S3UploadRoute.JpegKey | src/app/api/s3-upload/route.ts:26-27 | "image/jpeg" gives `<id>.jpeg`. |
| Common.SplitJoin | src/app/api/s3-upload/route.ts:26 | Joining the parts of a split with its separator gives back the string. |
| Common.SplitPartsClean | src/app/api/s3-upload/route.ts:26 | No part of a split contains the separator. |
| Common.SplitWithoutSeparator | src/app/api/s3-upload/route.ts:26 | A string without the separator splits into itself alone. |
| Common.SplitAfterFirst | src/app/api/s3-upload/route.ts:26 | Splitting a first segment, a separator and a rest gives that segment followed by the rest's parts. |
| Geocode.RequestUrl | src/lib/geocode.ts:17 | The request goes to the reverse-lookup endpoint with format jsonv2. Its length is that of the endpoint, both coordinate texts and "&lon=". |
| Geocode.FormatAddress | src/lib/geocode.ts:26-34 | The formatted line is empty exactly when none of the six parts used is present. |
| Geocode.ReverseGeocode | src/lib/geocode.ts:12-41 | A non-OK status or a thrown error gives "Failed to fetch address details." and the function never throws. A reply without an address gives "Could not find address for this location.". Otherwise the result is the formatted address. |
| Geocode.RequestUrlCarriesCoordinates | src/lib/geocode.ts:17 | The request URL asks for jsonv2 and carries the latitude, then the longitude. |
| Geocode.Present | src/lib/geocode.ts:34 | The kept parts are non-empty; none is kept exactly when no part is truthy. |
| Geocode.PresentAppend | src/lib/geocode.ts:34 | Filtering keeps the parts' relative order. |
| Geocode.PresentAllTruthy | src/lib/geocode.ts:34 | When every part is present, all are kept, in place. |
| Geocode.FullAddressOrder | src/lib/geocode.ts:26-34 | With all six parts present the line is road, neighbourhood, suburb, city, postcode, state, joined by ", ". |
| Geocode.PresentSelects | src/lib/geocode.ts:34 | The filtered list is the values of exactly the truthy parts, taken from increasing positions, with every truthy position included. |
| Geocode.MissingPartsSkipped | src/lib/geocode.ts:26-34 | For every address, the line is the ", " join of exactly the truthy parts among road, neighbourhood, suburb, city, postcode and state, in that order. Every joined part is non-empty. |
| Geocode.MissingPartsExample | src/lib/geocode.ts:26-34 | An example: only road and state present, with an empty suburb, gives road, ", ", state. |
| Geocode.FormatShape | src/lib/geocode.ts:34 | The line is empty exactly when none of the six parts is present. Otherwise it starts with the first kept part and ends with the last, so there is no leading or trailing separator. |
| Geocode.CountyAndCountryIgnored | src/lib/geocode.ts:26-33 | County and country never affect the line. |
| Common.JoinShape | src/lib/geocode.ts:34 | For a list of non-empty parts: the join is empty exactly when the list is. A non-empty list's join starts with its first part and ends with its last. |
| MapView.TierOf | src/components/Map.tsx:158-166 | The tier is small exactly below 10 and large exactly from 100. |
| MapView.ClusterIcon | src/components/Map.tsx:154-172 | The icon's class is "marker-cluster marker-cluster-" plus the tier name, and its size is the tier size. |
| MapView.ClusterTiers | src/components/Map.tsx:156-171 | Below 10 the icon is small with size 40, from 10 to 99 medium with size 50, from 100 large with size 60. |
| MapView.TierExact | src/components/Map.tsx:158-166 | Each count falls in exactly one tier. |
| MapView.ClusterSizeMonotone | src/components/Map.tsx:158-166 | The icon never shrinks as the count grows. |
| MapView.ClusterLabelShowsCount | src/components/Map.tsx:169 | The label's digits read back as the child count. |
| MapView.SeverityColor | src/components/Map.tsx:33-47 | The colour is gray exactly when the severity is none of Minor, Major, Severe and Critical. |
| MapView.SeverityColorsDistinct | src/components/Map.tsx:33-47 | The four severities get four different colours, none of them gray. |
| MapView.SeverityColorDefault | src/components/Map.tsx:45-46 | Any other value gets gray. |
| MapView.MarkerFor | src/components/Map.tsx:178-180 | A marker stands at latitude coordinates[1] and longitude coordinates[0] and opens its report. |
| MapView.PlaceMarkers | src/components/Map.tsx:177-192 | Exactly one marker per report is added to the group, in list order, and earlier layers are kept. |
| MapView.ClusterGroup.AddLayer | src/components/Map.tsx:191 | The marker is appended to the group. |
| MapView.Legend.constructor | src/components/Map.tsx:51 | The legend starts collapsed. |
| MapView.Legend.Toggle | src/components/Map.tsx:64 | The info button flips the legend. |
| MapView.Viewport.constructor | src/components/Map.tsx:207-215 | The map opens at the initial centre and zoom 14. |
| MapView.Viewport.ResetView | src/components/Map.tsx:98-100 | Reset returns to the initial centre and zoom 14. |
| PotholeDetails.FormattedDate | src/components/PotholeDetails.tsx:13 | The line is two-digit day, '/', two-digit 1-based month, '/', and the year as rendered. |
| PotholeDetails.DateRoundTrip | src/components/PotholeDetails.tsx:13 | The line reads back as the day, month index and year it was made from. |
| PotholeDetails.DatePadding | src/components/PotholeDetails.tsx:13 | A day or month below 10 is zero-padded; a year below 1000 is not padded to four digits. |
| PotholeDetails.YearRoundTrip | src/components/PotholeDetails.tsx:13 | The year's rendering reads back as the year, sign included. |
| PotholeDetails.MapsLink | src/components/PotholeDetails.tsx:40 | The link starts with the maps query prefix and ends with zoom 19, with a comma right after the latitude text. |
| PotholeDetails.MapsLinkRoundTrip | src/components/PotholeDetails.tsx:40 | The link's query reads back as latitude first, then longitude, at zoom 19. |
| Common.TwoDigits | src/components/PotholeDetails.tsx:13 | Padding a number below 100 gives exactly two digits that read back as the number. |
| Common.NatToStringRoundTrip | src/components/PotholeDetails.tsx:13 | A rendered number reads back as itself. |
| Common.IntToString | src/components/PotholeDetails.tsx:13 | A whole number renders as its digits, with a leading '-' when negative. |
| LanguageSwitcher.OtherLocale | src/components/LanguageSwitcher.tsx:11 | The target is "hi" exactly when the locale is "en", and is always "en" or "hi". |
| LanguageSwitcher.NonEnglishToEnglish | src/components/LanguageSwitcher.tsx:11 | Every locale other than "en" switches to "en". |
| LanguageSwitcher.SwitchIsInvolution | src/components/LanguageSwitcher.tsx:11 | On "en" and "hi" the switch always changes locale, and switching twice returns to the original. |
| LanguageSwitcher.Label | src/components/LanguageSwitcher.tsx:24 | The label is "English" exactly when the current locale is not "en". |
| LanguageSwitcher.LabelNamesTarget | src/components/LanguageSwitcher.tsx:24 | The label is "English" exactly when the target is "en", and the Hindi name otherwise. |
| LanguageSwitcher.HandleClick | src/components/LanguageSwitcher.tsx:13-16 | A click pushes the same path in the target locale, then refreshes. |
| LanguageSwitcher.ClickSwitchesLanguage | src/components/LanguageSwitcher.tsx:11-15 | From "en" or "hi" a click lands on the same page in the other locale. |
| ClientMap.RefreshResult | src/components/ClientMap.tsx:20-37 | After an OK response the list is the fetched data. After a non-OK status or a thrown error it is the current list. |
| ClientMap.RefreshReplaces | src/components/ClientMap.tsx:27-28 | A successful refresh replaces the list wholesale; the previous list has no influence. |
| ClientMap.RefreshIdempotent | src/components/ClientMap.tsx:20-37 | Repeating a refresh with the same response changes nothing more, and a failed refresh leaves no trace. |
| ClientMap.MapList.constructor | src/components/ClientMap.tsx:18 | The list starts as the server snapshot. |
| ClientMap.MapList.Refresh | src/components/ClientMap.tsx:20-37 | The list becomes RefreshResult of the old list. The method has no failure outcome, so no error reaches the caller. |
| HomePage.ToastFor | src/components/HomePageClient.tsx:37-41 | The toast fires exactly when the upload parameter is "success". |
| HomePage.Home.constructor | src/components/HomePageClient.tsx:27-41 | No map handle, no selection, the default centre (19.2076, 72.9645), both overlays closed, and the toast when asked for. |
| HomePage.Home.HandleMapReady | src/components/HomePageClient.tsx:68-70 | The map's handle is stored and nothing else changes. |
| HomePage.Home.HandleReportSubmitted | src/components/HomePageClient.tsx:62-65 | With a registered handle the map list is refreshed. Without one nothing changes. |
| HomePage.SubmissionRefreshesRegisteredMap | src/components/HomePageClient.tsx:62-70 | A submission before registration leaves the map's list as it was, whatever the response. After the map registers, a submission refreshes that list from where it stood. |
| HomePage.Home.HandleMarkerClick | src/components/HomePageClient.tsx:72-74 | A marker click selects its report, replacing any earlier selection. The details panel (lines 105-107) is rendered for the selected report. |
| HomePage.Home.HandleClosePopup | src/components/PotholeDetails.tsx:18 | The details panel's close button clears the selection, so the panel is no longer rendered. |
| HomePage.Home.HandleLogoClick | src/components/HomePageClient.tsx:80-82 | The logo shows the intro. |
| HomePage.Home.CloseIntro | src/components/HomePageClient.tsx:96 | The intro's close hides it. |
| HomePage.Home.HandleReportClick | src/components/HomePageClient.tsx:84-86 | The report button opens the disclaimer. |
| HomePage.Home.SetUploadDisclaimer | src/components/HomePageClient.tsx:108-112 | The dialog's open control sets the flag. |
| HomePage.Home.HandleDisclaimerAgree | src/components/HomePageClient.tsx:88-91 | Agreeing closes the disclaimer and then navigates to "/upload?disclaimer=agreed". |
| ReportSubmission.ErrorMessage | src/components/ReportForm.tsx:256-259 | A caught Error shows its own message; anything else shows "An unknown error occurred.". |
| ReportSubmission.ImageUrlFor | src/components/ReportForm.tsx:235 | The public image address ends with the object key. |
| ReportSubmission.Sends | src/components/ReportForm.tsx:208-252 | The requests become effects one for one, in order. |
| ReportSubmission.ReportBodyFor | src/components/ReportForm.tsx:242-247 | The body's longitude is the location's lon and its latitude the lat. It carries the image URL and the description, and no severity. |
| ReportSubmission.SubmitImage | src/components/ReportForm.tsx:208-252 | The signing request for the file's type always goes first. The upload is sent exactly when signing was OK, and the report exactly when both earlier stages were OK. The attempt fails exactly when some stage was not OK. |
| ReportSubmission.SubmittedRequests | src/components/ReportForm.tsx:223-248 | The image is PUT to the signed URL with its own type. The report carries longitude = location.lon, latitude = location.lat, the public address of the returned key and the description, and no severity. |
| ReportSubmission.FailureMessages | src/components/ReportForm.tsx:217-259 | A failed stage gives its fixed message ("Failed to get presigned URL.", "Failed to upload image to S3.", "Failed to submit report."), or the message of what was thrown. |
| ReportForm.PinAfter | src/components/ReportForm.tsx:74-80 | The pending pin is the location while the map is shown, and nothing otherwise. |
| ReportForm.ManualSourceIsManual | src/components/ReportForm.tsx:126-129 | The source text of a confirmed pin contains "manually". |
| ReportForm.Form.constructor | src/components/ReportForm.tsx:49-61 | All ten fields take their initial values and nothing has been sent. |
| ReportForm.Form.ResetForm | src/components/ReportForm.tsx:64-72 | Description, image, preview, location, error, source, map and pin are cleared. The submission and India flags are kept. |
| ReportForm.Form.IsFormValid | src/components/ReportForm.tsx:195-197 | The form is valid with an image, a location and no submission in flight. HandleSubmit's contract states what each outcome of this test leads to. |
| ReportForm.Form.ConfirmEnabled | src/components/ReportForm.tsx:463 | Confirm is enabled with a pending pin inside India. ClickConfirm's contract states what the button does in each case. |
| ReportForm.Form.ClickConfirm | src/components/ReportForm.tsx:460-466 | While Confirm is disabled a click changes nothing. Otherwise it confirms the pending pin as HandleManualLocationSelect does. The location only ever changes when the pin was inside India. |
| ReportForm.OutsideIndiaPinNotConfirmed | src/components/ReportForm.tsx:163-181 | A pin the India test rejects cannot be confirmed: the location, its source and the open picker stay as they were. |
| ReportForm.Form.HandleSubmit | src/components/ReportForm.tsx:195-264 | Without an image or location, or during a submission: only the error "Image and location are required.", and nothing sent. Otherwise the pipeline's requests are sent. Success closes the dialog, tells the parent, then resets. Failure sets the message and keeps every input. The submission flag ends as it began. |
| ReportForm.Form.Submit | src/components/ReportForm.tsx:269-275 | While the map picker is shown a submit does nothing; otherwise it is HandleSubmit. |
| ReportForm.Form.RequestDeviceLocation | src/components/ReportForm.tsx:83-86 | The geolocation effect appends a device request exactly when no location is set and the map is hidden. Otherwise it appends nothing. The form's fields never change. |
| ReportForm.PhotoLocationStopsDeviceRequest | src/components/ReportForm.tsx:83-86 | Once a photo's GPS data has set the location, the next geolocation effect sends no device request. |
| ReportForm.ConfirmedPinStopsDeviceRequest | src/components/ReportForm.tsx:83-86 | Once a pin has been confirmed on the map, the next geolocation effect sends no device request. |
| ReportForm.Form.OnPosition | src/components/ReportForm.tsx:87-97 | The corrected callback. A device position is applied, with its source text and a cleared error, only while no location is set. |
| ReportForm.Form.OnPositionError | src/components/ReportForm.tsx:98-104 | The corrected error callback. The geolocation error is shown only while no location is set. |
| ReportForm.Form.OnPositionAsWritten | src/components/ReportForm.tsx:87-97 | The callback as written. It applies whenever the location captured at request time was empty, whatever the current location. |
| ReportForm.Form.OnPositionErrorAsWritten | src/components/ReportForm.tsx:98-104 | The error callback as written, with the same captured guard. |
| ReportForm.Form.HandleImageChange | src/components/ReportForm.tsx:120-148 | The image is always taken, and a manually chosen location is never replaced. Otherwise the photo's position is adopted only when both GPS values are numbers. The source text says "extracted", "no location data" or "could not read". |
| ReportForm.ManualLocationSurvivesPhoto | src/components/ReportForm.tsx:126-129 | After a confirmed pin, a later photo keeps the confirmed location and the manual source. |
| ReportForm.Form.HandleManualLocationSelect | src/components/ReportForm.tsx:150-157 | With a pending pin: it becomes the location, the source is manual, the map is hidden, the error is cleared. Without one nothing happens. |
| ReportForm.Form.PlacePin | src/components/ReportForm.tsx:163-181 | A map click or pin drag moves the pending pin and records whether it lies in India. |
| ReportForm.Form.ShowMap | src/components/ReportForm.tsx:419 | The picker opens with the pending pin at the current location. |
| ReportForm.Form.HideMap | src/components/ReportForm.tsx:456 | Cancel closes the picker and drops the pending pin. |
| ReportForm.Form.SetDescription | src/components/ReportForm.tsx:441 | Only the description changes. |
| ReportForm.StaleGeolocationGuard | src/components/ReportForm.tsx:83-109 | A device position that arrives after a photo has set the location replaces it as written, and does not with the corrected guard. |
| ReportModal.Modal.constructor | src/components/ReportModal.tsx:19-39 | All five fields take their initial values. The device is asked for its position once, on open. |
| ReportModal.Modal.OnPosition | src/components/ReportModal.tsx:27-33 | A device position sets the location and clears the error. |
| ReportModal.Modal.OnPositionError | src/components/ReportModal.tsx:34-37 | A geolocation failure shows "Could not get location. Please enable location services." and keeps the rest. |
| ReportModal.Modal.ResetForm | src/components/ReportModal.tsx:41-47 | Every field returns to its initial value, the submission flag included. |
| ReportModal.Modal.HandleClose | src/components/ReportModal.tsx:49-52 | The form is reset before the parent is told to close. |
| ReportModal.Modal.HandleSubmit | src/components/ReportModal.tsx:54-118 | Without an image or location: only the required-fields error, and nothing sent. Otherwise the pipeline's requests are sent. Success alerts "Report submitted successfully!", resets and closes, then tells the parent. Failure sets the message and keeps every input. The submission flag is false afterwards. |
| ReportModal.Modal.HandleImageChange | src/components/ReportModal.tsx:120-124 | A chosen file replaces the image; an empty choice changes nothing. |
| ReportModal.Modal.SetDescription | src/components/ReportModal.tsx:166 | Only the description changes. |
| UploadPage.AcceptedType | src/app/upload/page.tsx:33 | Only "image/jpeg" and "image/jpg" are accepted; OnDrop's contract states the rejection of any other type. |
| UploadPage.CaughtMessage | src/app/upload/page.tsx:97-98 | A caught error's message is shown when non-empty; otherwise "An unknown error occurred.". |
| UploadPage.UploadBody | src/app/upload/page.tsx:83-89 | The report carries the photo's latitude and longitude, the public URL, "A new pothole report." and severity "Minor". |
| UploadPage.UploadAttempt | src/app/upload/page.tsx:54-98 | The signing request goes first. The form upload is sent exactly when signing was OK, and the report exactly when both earlier stages were OK. The attempt fails exactly when a stage was not OK. A non-OK stage gives its own message: "Failed to get pre-signed URL.", "Failed to upload to S3" or "Failed to save pothole data.". A stage that throws gives the caught message. |
| UploadPage.UploadedRequests | src/app/upload/page.tsx:70-90 | The upload goes to the signed URL; the report is UploadBody of the photo's coordinates and the public URL. |
| UploadPage.Page.constructor | src/app/upload/page.tsx:19-22 | The disclaimer starts shown unless the parameter is exactly "agreed"; no error, not uploading. |
| UploadPage.Page.OnDrop | src/app/upload/page.tsx:24-104 | The error is cleared first. No file: nothing more. A non-JPEG type: an error and no upload. A photo without both GPS tags: "not geotagged" before any request. Otherwise the requests run; success navigates to "/?upload=success" and failure sets the message. `uploading` is false after every drop that set it. The disclaimer is hidden after every drop that did not return early. |
| UploadPage.Page.HandleDisclaimerAgree | src/app/upload/page.tsx:112-114 | Agreeing hides the disclaimer. |
| UploadPage.Page.SetShowDisclaimer | src/app/upload/page.tsx:120 | The dialog's open control sets the flag. |
| Composition.DialogReportsRejected | src/components/ReportForm.tsx:242-251 | A dialog's report body lacks a severity. The reports route answers it with 400 "Missing required fields", and the dialog's attempt fails with "Failed to submit report.". |
| Composition.DialogReportLeavesStore | src/app/api/potholes/route.ts:31-36 | Posting a dialog's report leaves the store unchanged. |
| Composition.UploadReportAccepted | src/app/upload/page.tsx:83-89 | The upload page's report is accepted exactly when both coordinates are non-zero and the public URL is present and non-empty. |
| Composition.AsListed | src/app/api/potholes/route.ts:9-11 | A listed record keeps the stored id and location and has no severity. |
| Composition.MarkerAtReportedPosition | src/app/api/potholes/route.ts:41-44 | A report from the upload page with non-zero coordinates and a public URL is created whenever the store accepts the write. Its marker then stands at the photo's latitude and longitude. |
| Composition.SwapTwiceIsIdentity | src/components/Map.tsx:179 | A pair stored as [lon, lat] and displayed as [coordinates[1], coordinates[0]] gives back (lat, lon). |
| Composition.ImageUrlNamesSignedKey | src/components/ReportForm.tsx:235 | For a JPEG, the signing route returns `<id>.jpeg` and signs that key. The dialog's image address ends with that key. |

## Findings

| source | as written | input that shows it | evidently intended | confidence | as-written member | corrected member |
|---|---|---|---|---|---|---|
| src/components/ReportForm.tsx:89 | The position callback tests `location` as it was when the request was made. The request is only made when that value is empty, so the test always passes. | A fresh dialog asks for the device position. A photo with GPS data then sets the location. The device position arrives last and replaces the photo's location and source text. The same holds for the error callback at line 100, which shows an error although a location is set. `ReportForm.StaleGeolocationGuard` exhibits the position case. | A device result is applied only while no location is set at the time it arrives. | not executed | ReportForm.Form.OnPositionAsWritten | ReportForm.Form.OnPosition |

## Left out

- Network, storage and device access are inputs, not modelled. This covers every fetch, the document store's queries and connection, object-store signing, id generation, EXIF parsing, browser geolocation, and the point-in-India test over the boundary polygon.
- Interleavings: each handler runs to completion as one step.
  - A second submit while the first awaits its requests, and the doubled submit handler of the simple dialog, are not modelled.
  - Intermediate states visible during those awaits are not modelled either.
- ReportForm.Form.HandleImageChange: only the final source text is kept. The transient "Checking photo for location data..." shown while the EXIF data is read is not.
- Rendering a number as text (JavaScript's number-to-string conversion and `toFixed`) is not modelled. The maps link and the geocoding URL take the coordinate texts as inputs.
- Decoding a timestamp into calendar fields depends on the time zone. The date line takes day, month index and year as inputs.
- Coordinates are reals: NaN, infinities and rounding are not modelled.
- JSON bodies are typed. A `fileType` that is not a string, which makes the signing route's split throw and answer 500, is not modelled; neither are coordinates of other JSON types.
- The reports route connects to the store outside its `try`. A connection failure is not modelled.
- PotholeSchema.Create: an absent coordinates array fails its `required` check, as the schema declares. Some versions of the store library give arrays an empty default that passes; that behaviour is not modelled.
- The schema's `2dsphere` index on `location` (src/models/Pothole.ts:83) is not modelled. The store rejects a report whose coordinates are not a valid longitude/latitude pair, for example an empty pair or a latitude beyond 90. `PotholeSchema.Create` accepts such coordinates; the `writeFails` input of `PotholesRoute.PostResponse` stands for the index's rejections.
- PotholesRoute.NewestFirst: the order among reports with equal timestamps is fixed (insertion order). The store promises no order for ties; the contracts state only the ordering and the permutation.
- UploadPage.Page.OnDrop: a GPS tag counts as present exactly when its numeric description is. A present tag whose description is not a number is not modelled.
- The upload page and the signing route disagree: the page sends no body and reads `fields` and `publicUrl`, while the route needs `fileType` and returns `url` and `key`. Each side is modelled against its own contract and they are not connected.
- The map list passes neither the marker-click handler nor the initial centre on to the map (src/components/ClientMap.tsx:43). `HomePage.Home.HandleMarkerClick` models the handler as the home page defines it. The wiring is rendering and is not modelled.
- The details panel reads `latitude` and `longitude` fields that the reports route's records do not have; only the server's flattened snapshot carries them, and that has no `location`. The panel is modelled on the coordinate texts as inputs, and the mismatch is not.
- The home page's toast effect re-runs when the query changes. Only the first render is modelled.
- Rendering, styling, animation, translations, zoom buttons and the map's fly-to on marker click are not modelled.
- Upvote and comment handlers, pagination and the user schema are not part of this model.
