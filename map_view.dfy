/** The map: cluster icons sized by how many reports they gather, the
    severity colours of the legend, one marker per report placed at
    (latitude, longitude), the legend's expand toggle and the reset-view
    control. */
module MapView {
  import opened Common
  import opened PotholeTypes

  /** The zoom the map opens at and returns to. */
  const InitialZoom: int := 14

  datatype Tier = Small | Medium | Large

  /** The tier a cluster of `count` reports falls in. */
  function TierOf(count: nat): (t: Tier)
    ensures t == Small <==> count < 10
    ensures t == Large <==> count >= 100
  {
    if count < 10 then Small else if count < 100 then Medium else Large
  }

  function TierName(t: Tier): string
  {
    match t
    case Small => "small"
    case Medium => "medium"
    case Large => "large"
  }

  function TierSize(t: Tier): nat
  {
    match t
    case Small => 40
    case Medium => 50
    case Large => 60
  }

  /** A cluster icon: its inner HTML, its CSS classes and its square size in pixels. */
  datatype Icon = Icon(html: string, className: string, size: nat)

  /** `iconCreateFunction`: the label shows the child count; class and size
      follow the tier. */
  function ClusterIcon(count: nat): (icon: Icon)
    ensures icon.className == "marker-cluster marker-cluster-" + TierName(TierOf(count))
    ensures icon.size == TierSize(TierOf(count))
  {
    var t := TierOf(count);
    Icon("<div><span>" + NatToString(count) + "</span></div>",
         "marker-cluster " + "marker-cluster-" + TierName(t),
         TierSize(t))
  }

  /** Fewer than 10 children: small, 40 pixels; 10 to 99: medium, 50;
      100 or more: large, 60. */
  lemma ClusterTiers(count: nat)
    ensures count < 10 ==> ClusterIcon(count) == Icon(ClusterIcon(count).html, "marker-cluster marker-cluster-small", 40)
    ensures 10 <= count < 100 ==> ClusterIcon(count) == Icon(ClusterIcon(count).html, "marker-cluster marker-cluster-medium", 50)
    ensures 100 <= count ==> ClusterIcon(count) == Icon(ClusterIcon(count).html, "marker-cluster marker-cluster-large", 60)
  {
  }

  /** The icon never shrinks as a cluster grows. */
  lemma {:induction false} ClusterSizeMonotone(m: nat, n: nat)
    requires m <= n
    ensures ClusterIcon(m).size <= ClusterIcon(n).size
  {
  }

  /** Each of the three tiers is the tier of exactly the counts in its range. */
  lemma TierExact(count: nat, t: Tier)
    ensures TierOf(count) == t <==>
              match t
              case Small => count < 10
              case Medium => 10 <= count < 100
              case Large => 100 <= count
  {
  }

  /** The label reads back as the child count. */
  lemma ClusterLabelShowsCount(count: nat)
    ensures var html := ClusterIcon(count).html;
            var digits := NatToString(count);
            && |html| == 11 + |digits| + 13
            && html[..11] == "<div><span>" && html[11 + |digits|..] == "</span></div>"
            && AllDigits(html[11..11 + |digits|]) && DecimalValue(html[11..11 + |digits|]) == count
  {
    NatToStringRoundTrip(count);
    var digits := NatToString(count);
    var html := "<div><span>" + digits + "</span></div>";
    assert html[11..11 + |digits|] == digits;
  }

  /** `getSeverityStyle`: the marker colour for a severity. */
  function SeverityColor(severity: string): (colour: string)
    ensures colour == "gray" <==> severity !in {"Minor", "Major", "Severe", "Critical"}
  {
    if severity == "Minor" then "#ef4444"
    else if severity == "Major" then "#dc2626"
    else if severity == "Severe" then "#b91c1c"
    else if severity == "Critical" then "#991b1b"
    else "gray"
  }

  /** The four severities get four different colours, none of them gray,
      and any other value gets gray. */
  lemma SeverityColorsDistinct(s: string, t: string)
    requires s in {"Minor", "Major", "Severe", "Critical"} && t in {"Minor", "Major", "Severe", "Critical"}
    ensures SeverityColor(s) == SeverityColor(t) <==> s == t
    ensures SeverityColor(s) != "gray"
  {
  }

  lemma SeverityColorDefault(s: string)
    requires s !in {"Minor", "Major", "Severe", "Critical"}
    ensures SeverityColor(s) == "gray"
  {
  }

  /** A marker: where it stands and the report it opens. */
  datatype Marker = Marker(lat: real, lon: real, report: Pothole)

  /** The marker for a report: latitude is `coordinates[1]`, longitude `coordinates[0]`. */
  function MarkerFor(p: Pothole): (m: Marker)
    requires HasPair(p)
    ensures m.lat == Latitude(p) && m.lon == Longitude(p) && m.report == p
  {
    Marker(p.location.coordinates[1], p.location.coordinates[0], p)
  }

  /** The cluster group the markers are added to. */
  class ClusterGroup {
    var layers: seq<Marker>

    constructor ()
      ensures layers == []
    {
      layers := [];
    }

    method AddLayer(m: Marker)
      modifies this
      ensures layers == old(layers) + [m]
    {
      layers := layers + [m];
    }
  }

  /** The `forEach` over the reports in `Markers`: one marker per report, in
      list order, each added to the group. */
  method PlaceMarkers(group: ClusterGroup, potholes: seq<Pothole>)
    requires forall i :: 0 <= i < |potholes| ==> HasPair(potholes[i])
    modifies group
    ensures |group.layers| == |old(group.layers)| + |potholes|
    ensures group.layers[..|old(group.layers)|] == old(group.layers)
    ensures forall i :: 0 <= i < |potholes| ==> group.layers[|old(group.layers)| + i] == MarkerFor(potholes[i])
  {
    var i := 0;
    while i < |potholes|
      invariant 0 <= i <= |potholes|
      invariant |group.layers| == |old(group.layers)| + i
      invariant group.layers[..|old(group.layers)|] == old(group.layers)
      invariant forall k :: 0 <= k < i ==> group.layers[|old(group.layers)| + k] == MarkerFor(potholes[k])
    {
      group.AddLayer(MarkerFor(potholes[i]));
      i := i + 1;
    }
  }

  /** The legend's expand state. */
  class Legend {
    var isExpanded: bool

    constructor ()
      ensures !isExpanded
    {
      isExpanded := false;
    }

    /** The info button flips the state. */
    method Toggle()
      modifies this
      ensures isExpanded == !old(isExpanded)
    {
      isExpanded := !isExpanded;
    }
  }

  /** The map's view: its centre as (latitude, longitude) and its zoom. */
  class Viewport {
    var center: (real, real)
    var zoom: int

    /** The map opens at the initial centre and zoom 14. */
    constructor (initialCenter: (real, real))
      ensures center == initialCenter && zoom == InitialZoom
    {
      center, zoom := initialCenter, InitialZoom;
    }

    /** The reset control: back to the initial centre and zoom 14. */
    method ResetView(initialCenter: (real, real))
      modifies this
      ensures center == initialCenter && zoom == 14
    {
      center, zoom := initialCenter, InitialZoom;
    }
  }
}
