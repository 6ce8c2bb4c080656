/** The client-side map list: it starts from the server's snapshot and can
    be refreshed from the list endpoint. A refresh that fails leaves the
    list as it was and reports nothing to its caller. */
module ClientMap {
  import opened Common
  import opened PotholeTypes

  /** The list after a refresh whose request produced `response`: the
      fetched data on an OK response, the current list on a non-OK status
      (the handler throws and catches its own error) or on a thrown error. */
  function RefreshResult(current: seq<Pothole>, response: Outcome<seq<Pothole>>): (r: seq<Pothole>)
    ensures response.Ok? ==> r == response.value
    ensures !response.Ok? ==> r == current
  {
    match response
    case Ok(data) => data
    case NotOk => current
    case Threw(_) => current
  }

  /** A successful refresh replaces the list wholesale: what was there
      before has no influence on the result. */
  lemma RefreshReplaces(a: seq<Pothole>, b: seq<Pothole>, data: seq<Pothole>)
    ensures RefreshResult(a, Ok(data)) == RefreshResult(b, Ok(data))
  {
  }

  /** Refreshing is idempotent for a given response, and a failed refresh
      followed by any refresh is the same as that refresh alone. */
  lemma RefreshIdempotent(current: seq<Pothole>, response: Outcome<seq<Pothole>>, next: Outcome<seq<Pothole>>)
    ensures RefreshResult(RefreshResult(current, response), response) == RefreshResult(current, response)
    ensures !response.Ok? ==> RefreshResult(RefreshResult(current, response), next) == RefreshResult(current, next)
  {
  }

  /** The component's `potholes` state. */
  class MapList {
    var potholes: seq<Pothole>

    /** The list starts as the server-provided snapshot. */
    constructor (initialPotholes: seq<Pothole>)
      ensures potholes == initialPotholes
    {
      potholes := initialPotholes;
    }

    /** `refreshMapData`: replace the list on success, keep it on failure;
        never fails itself. */
    method Refresh(response: Outcome<seq<Pothole>>)
      modifies this
      ensures potholes == RefreshResult(old(potholes), response)
    {
      match response {
        case Ok(data) =>
          potholes := data;
        case NotOk =>
        case Threw(_) =>
      }
    }
  }
}
