/** The `/api/potholes` route handlers: `POST` validates the JSON body,
    builds the GeoJSON Point `[longitude, latitude]` and creates a report;
    `GET` lists every report, newest first. The document store is the
    `Store` class, whose `reports` field holds the documents in insertion
    order. */
module PotholesRoute {
  import opened Common
  import opened PotholeSchema

  /** The five fields the handler takes out of the JSON body; each may be
      absent. */
  datatype ReportBody = ReportBody(
    longitude: Option<real>,
    latitude: Option<real>,
    imageUrl: Option<string>,
    description: Option<string>,
    severity: Option<string>)

  /** The object the handler passes to the store. */
  datatype PotholeData = PotholeData(imageUrl: string, description: Option<string>, location: GeoPoint, severity: string)

  datatype Reply = Created(report: Pothole) | Listed(reports: seq<Pothole>) | Message(message: string)

  /** An HTTP response: status code, the `success` flag and the rest of the JSON. */
  datatype Response = Response(status: int, success: bool, reply: Reply)

  const MissingFields: string := "Missing required fields"
  const ServerError: string := "Server Error"

  /** The validation guard: each of the four fields is tested for truthiness,
      so an absent field, an empty string and the number 0 all count as missing. */
  predicate MissingRequired(b: ReportBody)
  {
    !TruthyNumber(b.longitude) || !TruthyNumber(b.latitude) || !TruthyText(b.imageUrl) || !TruthyText(b.severity)
  }

  /** `potholeData`: a Point with longitude first, and the other fields as given. */
  function BuildData(b: ReportBody): (d: PotholeData)
    requires !MissingRequired(b)
    ensures d.location.kind == "Point" && |d.location.coordinates| == 2
    ensures d.location.coordinates[0] == b.longitude.value && d.location.coordinates[1] == b.latitude.value
    ensures d.imageUrl == b.imageUrl.value && d.severity == b.severity.value && d.description == b.description
  {
    PotholeData(b.imageUrl.value, b.description, GeoPoint("Point", [b.longitude.value, b.latitude.value]), b.severity.value)
  }

  /** The plain object as the store reads it: the schema declares no
      `severity` path, so that field is dropped on creation. */
  function ToRaw(d: PotholeData): (raw: RawPothole)
    ensures raw.location == Some(RawLocation(Some(d.location.kind), Some(d.location.coordinates)))
    ensures raw.imageUrl == Some(d.imageUrl) && raw.description == d.description
    ensures raw.status.None? && raw.reportedBy.None? && raw.upvotes.None? && raw.comments.None?
  {
    RawPothole(Some(RawLocation(Some(d.location.kind), Some(d.location.coordinates))), Some(d.imageUrl),
               d.description, None, None, None, None)
  }

  /** The object built from any accepted body always passes the schema, and
      the stored report carries the body's coordinates, image and description
      with the schema's defaults. */
  lemma AcceptedBodyIsStorable(b: ReportBody, id: Id, now: int)
    requires !MissingRequired(b)
    ensures Create(ToRaw(BuildData(b)), id, now).Success?
    ensures var p := Create(ToRaw(BuildData(b)), id, now).value;
            && p.location == GeoPoint("Point", [b.longitude.value, b.latitude.value])
            && p.imageUrl == b.imageUrl.value && p.description == b.description
            && p.status == Reported && p.upvotes == [] && p.comments == []
            && p.createdAt == now
  {
    var raw := ToRaw(BuildData(b));
    assert forall p :: p in ReportPaths ==> !Fails(raw, p);
  }

  /** Reports ordered by `createdAt`, newest first. */
  predicate NewestFirstOrder(s: seq<Pothole>)
  {
    forall i, j :: 0 <= i < j < |s| ==> s[i].createdAt >= s[j].createdAt
  }

  /** Putting a report no older than any of a newest-first list in front of
      it keeps the list newest-first. */
  lemma ConsNewestFirst(h: Pothole, t: seq<Pothole>)
    requires NewestFirstOrder(t)
    requires forall x :: x in t ==> x.createdAt <= h.createdAt
    ensures NewestFirstOrder([h] + t)
  {
    forall i, j | 0 <= i < j < |[h] + t| ensures ([h] + t)[i].createdAt >= ([h] + t)[j].createdAt {
      if i > 0 {
        assert ([h] + t)[i] == t[i - 1] && ([h] + t)[j] == t[j - 1];
      } else {
        assert ([h] + t)[j] in t;
      }
    }
  }

  function InsertByDate(p: Pothole, s: seq<Pothole>): (r: seq<Pothole>)
    requires NewestFirstOrder(s)
    ensures NewestFirstOrder(r)
    ensures multiset(r) == multiset(s) + multiset{p}
    ensures forall x :: x in r ==> x == p || x in s
  {
    if s == [] || p.createdAt >= s[0].createdAt then
      assert forall x :: x in s ==> x.createdAt <= s[0].createdAt by {
        forall x | x in s ensures x.createdAt <= s[0].createdAt {
          var k :| 0 <= k < |s| && s[k] == x;
          if k > 0 { assert s[0].createdAt >= s[k].createdAt; }
        }
      }
      ConsNewestFirst(p, s);
      [p] + s
    else
      var rest := s[1..];
      assert s == [s[0]] + rest;
      assert NewestFirstOrder(rest) by {
        forall i, j | 0 <= i < j < |rest| ensures rest[i].createdAt >= rest[j].createdAt {
          assert rest[i] == s[i + 1] && rest[j] == s[j + 1];
        }
      }
      var tail := InsertByDate(p, rest);
      assert forall x :: x in rest ==> x.createdAt <= s[0].createdAt by {
        forall x | x in rest ensures x.createdAt <= s[0].createdAt {
          var k :| 0 <= k < |rest| && rest[k] == x;
          assert s[k + 1] == x;
        }
      }
      ConsNewestFirst(s[0], tail);
      [s[0]] + tail
  }

  /** The store's `sort({ createdAt: -1 })`: a newest-first arrangement of
      the same reports. Reports with equal timestamps keep their insertion
      order here; the store promises no particular order among them. */
  function NewestFirst(s: seq<Pothole>): (r: seq<Pothole>)
    ensures NewestFirstOrder(r)
    ensures multiset(r) == multiset(s)
  {
    if s == [] then [] else
      assert s == [s[0]] + s[1..];
      InsertByDate(s[0], NewestFirst(s[1..]))
  }

  /** The response of `POST /api/potholes`. `body` is None when the request
      body is not JSON; `id` and `now` are what the store assigns;
      `writeFails` says whether the store's write throws. */
  function PostResponse(body: Option<ReportBody>, id: Id, now: int, writeFails: bool): (resp: Response)
    ensures body.None? ==> resp == Response(500, false, Message(ServerError))
    ensures body.Some? && MissingRequired(body.value) ==> resp == Response(400, false, Message(MissingFields))
    ensures body.Some? && !MissingRequired(body.value) && writeFails ==> resp == Response(500, false, Message(ServerError))
    ensures body.Some? && !MissingRequired(body.value) && !writeFails ==>
              && resp.status == 201 && resp.success && resp.reply.Created?
              && resp.reply.report.location == GeoPoint("Point", [body.value.longitude.value, body.value.latitude.value])
              && resp.reply.report.imageUrl == body.value.imageUrl.value
              && resp.reply.report.description == body.value.description
              && resp.reply.report.status == Reported
              && resp.reply.report.upvotes == [] && resp.reply.report.comments == []
              && resp.reply.report.id == id && resp.reply.report.createdAt == now
    ensures resp.status == 201 <==> body.Some? && !MissingRequired(body.value) && !writeFails
  {
    if body.None? then Response(500, false, Message(ServerError))
    else if MissingRequired(body.value) then Response(400, false, Message(MissingFields))
    else
      AcceptedBodyIsStorable(body.value, id, now);
      var created := Create(ToRaw(BuildData(body.value)), id, now);
      if writeFails || created.Failure? then Response(500, false, Message(ServerError))
      else Response(201, true, Created(created.value))
  }

  /** The response of `GET /api/potholes` over the stored reports: all of
      them, newest first, or 500 when the store's read throws. */
  function ListResponse(reports: seq<Pothole>, readFails: bool): (resp: Response)
    ensures readFails ==> resp == Response(500, false, Message(ServerError))
    ensures !readFails ==>
              && resp.status == 200 && resp.success && resp.reply.Listed?
              && NewestFirstOrder(resp.reply.reports)
              && multiset(resp.reply.reports) == multiset(reports)
  {
    if readFails then Response(500, false, Message(ServerError))
    else Response(200, true, Listed(NewestFirst(reports)))
  }

  /** The document store behind the route. */
  class Store {
    /** Every stored report, in the order it was created. */
    var reports: seq<Pothole>

    constructor ()
      ensures reports == []
    {
      reports := [];
    }

    /** `POST /api/potholes`: the response above, and the created report
        appended to the store exactly when the response is 201. */
    method Post(body: Option<ReportBody>, id: Id, now: int, writeFails: bool) returns (resp: Response)
      modifies this
      ensures resp == PostResponse(body, id, now, writeFails)
      ensures reports == old(reports) + (if resp.status == 201 then [resp.reply.report] else [])
    {
      resp := PostResponse(body, id, now, writeFails);
      if resp.status == 201 {
        reports := reports + [resp.reply.report];
      }
    }

    /** `GET /api/potholes`: reads the store and changes nothing. */
    method Get(readFails: bool) returns (resp: Response)
      ensures resp == ListResponse(reports, readFails)
    {
      resp := ListResponse(reports, readFails);
    }
  }

  /** A longitude or latitude of exactly 0 is treated as missing, although
      both are valid coordinates (the equator and the prime meridian). */
  lemma ZeroCoordinateRejected(b: ReportBody)
    requires b.longitude == Some(0.0) || b.latitude == Some(0.0)
    ensures MissingRequired(b)
  {
  }

  /** The description plays no part in validation: two bodies that differ
      only in their description are accepted or rejected together. */
  lemma DescriptionOptional(b: ReportBody, description: Option<string>)
    ensures MissingRequired(b) <==> MissingRequired(b.(description := description))
  {
  }
}
