/** The home page: which report's details are open, the intro overlay, the
    upload disclaimer, the success toast and the handle through which the
    map list is refreshed after a report is submitted. */
module HomePage {
  import opened Common
  import opened PotholeTypes
  import opened ClientMap

  /** What the page asks of the outside world: a toast or a navigation. */
  datatype Effect = Toast(message: string) | Navigate(url: string)

  const DefaultCenter: (real, real) := (19.2076, 72.9645)
  const UploadToast: string := "Pothole reported successfully!"
  const UploadUrl: string := "/upload?disclaimer=agreed"

  /** The toast fires exactly when the `upload` query parameter is `success`. */
  function ToastFor(uploadParam: Option<string>): (r: seq<Effect>)
    ensures r == [Toast(UploadToast)] <==> uploadParam == Some("success")
    ensures r != [] <==> uploadParam == Some("success")
  {
    if uploadParam == Some("success") then [Toast(UploadToast)] else []
  }

  class Home {
    /** The map's refresh handle, once the map has registered it. */
    var mapRef: MapList?
    var selected: Option<Pothole>
    var initialCenter: (real, real)
    var showIntro: bool
    var showUploadDisclaimer: bool
    /** Toasts and navigations, in the order they were requested. */
    var effects: seq<Effect>

    /** First render, with the `upload` query parameter: no handle, nothing
        selected, the default centre, both overlays closed, and the toast
        when the parameter asks for it. */
    constructor (uploadParam: Option<string>)
      ensures mapRef == null && selected == None && initialCenter == DefaultCenter
      ensures !showIntro && !showUploadDisclaimer
      ensures effects == ToastFor(uploadParam)
    {
      mapRef, selected, initialCenter := null, None, DefaultCenter;
      showIntro, showUploadDisclaimer := false, false;
      effects := ToastFor(uploadParam);
    }

    /** `handleMapReady`, called from the map list's mount effect with its handle. */
    method HandleMapReady(m: MapList)
      modifies this
      ensures mapRef == m
      ensures selected == old(selected) && showIntro == old(showIntro)
      ensures showUploadDisclaimer == old(showUploadDisclaimer) && effects == old(effects)
      ensures initialCenter == old(initialCenter)
    {
      mapRef := m;
    }

    /** `handleReportSubmitted`: refresh the map when it has registered its
        handle, and do nothing otherwise. `response` is what the refresh's
        request produces. */
    method HandleReportSubmitted(response: Outcome<seq<Pothole>>)
      modifies mapRef
      ensures mapRef != null ==> mapRef.potholes == RefreshResult(old(mapRef.potholes), response)
      ensures unchanged(this)
    {
      if mapRef != null {
        mapRef.Refresh(response);
      }
    }

    /** A marker click selects its report, replacing any earlier selection. */
    method HandleMarkerClick(p: Pothole)
      modifies this
      ensures selected == Some(p)
      ensures mapRef == old(mapRef) && showIntro == old(showIntro)
      ensures showUploadDisclaimer == old(showUploadDisclaimer) && effects == old(effects)
      ensures initialCenter == old(initialCenter)
    {
      selected := Some(p);
    }

    /** The details panel's close button clears the selection. */
    method HandleClosePopup()
      modifies this
      ensures selected == None
      ensures mapRef == old(mapRef) && showIntro == old(showIntro)
      ensures showUploadDisclaimer == old(showUploadDisclaimer) && effects == old(effects)
      ensures initialCenter == old(initialCenter)
    {
      selected := None;
    }

    /** The logo shows the intro overlay. */
    method HandleLogoClick()
      modifies this
      ensures showIntro
      ensures mapRef == old(mapRef) && selected == old(selected)
      ensures showUploadDisclaimer == old(showUploadDisclaimer) && effects == old(effects)
      ensures initialCenter == old(initialCenter)
    {
      showIntro := true;
    }

    /** The intro's own close hides it. */
    method CloseIntro()
      modifies this
      ensures !showIntro
      ensures mapRef == old(mapRef) && selected == old(selected)
      ensures showUploadDisclaimer == old(showUploadDisclaimer) && effects == old(effects)
      ensures initialCenter == old(initialCenter)
    {
      showIntro := false;
    }

    /** The report button opens the upload disclaimer. */
    method HandleReportClick()
      modifies this
      ensures showUploadDisclaimer
      ensures mapRef == old(mapRef) && selected == old(selected)
      ensures showIntro == old(showIntro) && effects == old(effects)
      ensures initialCenter == old(initialCenter)
    {
      showUploadDisclaimer := true;
    }

    /** The dialog's own open/close control sets the flag directly. */
    method SetUploadDisclaimer(open: bool)
      modifies this
      ensures showUploadDisclaimer == open
      ensures mapRef == old(mapRef) && selected == old(selected)
      ensures showIntro == old(showIntro) && effects == old(effects)
      ensures initialCenter == old(initialCenter)
    {
      showUploadDisclaimer := open;
    }

    /** Agreeing closes the disclaimer, then navigates to the upload page
        with the agreement recorded in the query. */
    method HandleDisclaimerAgree()
      modifies this
      ensures !showUploadDisclaimer
      ensures effects == old(effects) + [Navigate(UploadUrl)]
      ensures mapRef == old(mapRef) && selected == old(selected) && showIntro == old(showIntro)
      ensures initialCenter == old(initialCenter)
    {
      showUploadDisclaimer := false;
      effects := effects + [Navigate(UploadUrl)];
    }
  }

  /** After the map has registered its handle, submitting a report refreshes
      the very list the map shows; before that, a submission changes nothing.
      `between` is the list after the first submission. */
  method SubmissionRefreshesRegisteredMap(home: Home, list: MapList, first: Outcome<seq<Pothole>>,
                                          second: Outcome<seq<Pothole>>)
    returns (between: seq<Pothole>)
    requires home.mapRef == null
    modifies home, list
    ensures between == old(list.potholes)
    ensures home.mapRef == list
    ensures list.potholes == RefreshResult(between, second)
  {
    home.HandleReportSubmitted(first);
    between := list.potholes;
    home.HandleMapReady(list);
    home.HandleReportSubmitted(second);
  }
}
