/** The document schema for a pothole report and its embedded comments:
    which paths are required, which values an enum admits, and which
    defaults a newly created document receives. `Create` is what the
    document store does with a plain object before it persists it. */
module PotholeSchema {
  import opened Common

  /** An object id, kept opaque. */
  type Id = string

  datatype Status = Reported | InProgress | Resolved

  /** The stored spelling of each status. */
  function StatusName(s: Status): string
  {
    match s
    case Reported => "Reported"
    case InProgress => "In Progress"
    case Resolved => "Resolved"
  }

  /** The `enum` check on `status`: only the three stored spellings pass. */
  function ParseStatus(name: string): (r: Option<Status>)
    ensures r.Some? ==> StatusName(r.value) == name
  {
    if name == "Reported" then Some(Reported)
    else if name == "In Progress" then Some(InProgress)
    else if name == "Resolved" then Some(Resolved)
    else None
  }

  /** Every status survives the enum check under its own name, and no other
      spelling is admitted. */
  lemma StatusEnumExact(s: Status, name: string)
    ensures ParseStatus(StatusName(s)) == Some(s)
    ensures ParseStatus(name).Some? <==> name in {"Reported", "In Progress", "Resolved"}
  {
  }

  /** A plain object as handed to the store: every schema path may be absent. */
  datatype RawComment = RawComment(user: Option<Id>, text: Option<string>, createdAt: Option<int>)

  datatype RawLocation = RawLocation(kind: Option<string>, coordinates: Option<seq<real>>)

  datatype RawPothole = RawPothole(
    location: Option<RawLocation>,
    imageUrl: Option<string>,
    description: Option<string>,
    status: Option<string>,
    reportedBy: Option<Id>,
    upvotes: Option<seq<Id>>,
    comments: Option<seq<RawComment>>)

  /** A stored comment. */
  datatype Comment = Comment(user: Id, text: string, createdAt: int)

  /** A GeoJSON Point; `coordinates` holds longitude first, then latitude. */
  datatype GeoPoint = GeoPoint(kind: string, coordinates: seq<real>)

  /** A stored report, with the two timestamps the schema maintains. */
  datatype Pothole = Pothole(
    id: Id,
    location: GeoPoint,
    imageUrl: string,
    description: Option<string>,
    status: Status,
    reportedBy: Option<Id>,
    upvotes: seq<Id>,
    comments: seq<Comment>,
    createdAt: int,
    updatedAt: int)

  /** A `required` string path is satisfied by a present, non-empty string. */
  predicate RequiredText(s: Option<string>)
  {
    s.Some? && s.value != ""
  }

  /** The schema paths that can fail validation. */
  datatype Path = LocationType | LocationCoordinates | ImageUrl | StatusPath | CommentsPath | User | Text

  /** The paths of one comment that fail validation. */
  function CommentViolations(c: RawComment): (v: seq<Path>)
    ensures User in v <==> c.user.None?
    ensures Text in v <==> !RequiredText(c.text)
    ensures forall p :: p in v ==> p in {User, Text}
  {
    (if c.user.None? then [User] else []) + (if !RequiredText(c.text) then [Text] else [])
  }

  /** A comment that passes validation; `createdAt` defaults to `now`. */
  function NewComment(c: RawComment, now: int): (r: Comment)
    requires CommentViolations(c) == []
    ensures r.user == c.user.value && r.text == c.text.value && r.text != ""
    ensures r.createdAt == (if c.createdAt.Some? then c.createdAt.value else now)
  {
    Comment(c.user.value, c.text.value, if c.createdAt.Some? then c.createdAt.value else now)
  }

  predicate CommentsValid(cs: seq<RawComment>)
  {
    forall i :: 0 <= i < |cs| ==> CommentViolations(cs[i]) == []
  }

  /** Whether the report path `p` fails its `required` or `enum` validator. */
  predicate Fails(raw: RawPothole, p: Path)
  {
    match p
    case LocationType =>
      raw.location.None? || raw.location.value.kind.None? || raw.location.value.kind.value != "Point"
    case LocationCoordinates => raw.location.None? || raw.location.value.coordinates.None?
    case ImageUrl => !RequiredText(raw.imageUrl)
    case StatusPath => raw.status.Some? && ParseStatus(raw.status.value).None?
    case CommentsPath => raw.comments.Some? && !CommentsValid(raw.comments.value)
    case User => false
    case Text => false
  }

  /** The report's own paths, in schema order. */
  const ReportPaths: seq<Path> := [LocationType, LocationCoordinates, ImageUrl, StatusPath, CommentsPath]

  function FailingAmong(raw: RawPothole, paths: seq<Path>): (v: seq<Path>)
    ensures forall p :: p in v <==> p in paths && Fails(raw, p)
  {
    if paths == [] then []
    else (if Fails(raw, paths[0]) then [paths[0]] else []) + FailingAmong(raw, paths[1..])
  }

  /** The paths of a report that fail validation, in schema order. */
  function Violations(raw: RawPothole): (v: seq<Path>)
    ensures forall p :: p in v <==> p in ReportPaths && Fails(raw, p)
    ensures v == [] <==> forall p :: p in ReportPaths ==> !Fails(raw, p)
  {
    var v := FailingAmong(raw, ReportPaths);
    assert v != [] ==> v[0] in v;
    v
  }

  function NewComments(cs: seq<RawComment>, now: int): (r: seq<Comment>)
    requires CommentsValid(cs)
    ensures |r| == |cs|
    ensures forall i :: 0 <= i < |cs| ==> r[i] == NewComment(cs[i], now)
  {
    seq(|cs|, i requires 0 <= i < |cs| => NewComment(cs[i], now))
  }

  /** `Model.create(raw)`: validate, then apply the defaults (`status`
      Reported, empty `upvotes` and `comments`, comment timestamps) and set
      both timestamps to `now`. `id` is the identifier the store assigns. */
  function Create(raw: RawPothole, id: Id, now: int): (r: Result<Pothole, seq<Path>>)
    ensures r.Failure? <==> Violations(raw) != []
    ensures r.Failure? ==> r.error == Violations(raw)
    ensures r.Success? ==>
              && !Fails(raw, LocationType) && !Fails(raw, LocationCoordinates) && !Fails(raw, ImageUrl)
              && !Fails(raw, StatusPath) && !Fails(raw, CommentsPath)
    ensures r.Success? ==>
              && r.value.id == id
              && r.value.location == GeoPoint("Point", raw.location.value.coordinates.value)
              && r.value.imageUrl == raw.imageUrl.value && r.value.imageUrl != ""
              && r.value.description == raw.description
              && r.value.reportedBy == raw.reportedBy
              && r.value.createdAt == now && r.value.updatedAt == now
    ensures r.Success? ==>
              r.value.status == (if raw.status.None? then Reported else ParseStatus(raw.status.value).value)
    ensures r.Success? ==> r.value.upvotes == (if raw.upvotes.None? then [] else raw.upvotes.value)
    ensures r.Success? ==>
              r.value.comments == (if raw.comments.None? then [] else NewComments(raw.comments.value, now))
  {
    var v := Violations(raw);
    if v != [] then Failure(v)
    else
      assert !Fails(raw, LocationType) && !Fails(raw, LocationCoordinates) && !Fails(raw, ImageUrl);
      assert !Fails(raw, StatusPath) && !Fails(raw, CommentsPath);
      Success(Pothole(
        id,
        GeoPoint(raw.location.value.kind.value, raw.location.value.coordinates.value),
        raw.imageUrl.value,
        raw.description,
        if raw.status.None? then Reported else ParseStatus(raw.status.value).value,
        raw.reportedBy,
        if raw.upvotes.None? then [] else raw.upvotes.value,
        if raw.comments.None? then [] else NewComments(raw.comments.value, now),
        now,
        now))
  }

  /** A new report whose object names only the required paths starts as
      Reported, with no upvotes and no comments, and with no description or
      reporter: those two paths are optional. */
  lemma NewReportDefaults(coordinates: seq<real>, imageUrl: string, id: Id, now: int)
    requires imageUrl != ""
    ensures var r := Create(RawPothole(Some(RawLocation(Some("Point"), Some(coordinates))), Some(imageUrl),
                                       None, None, None, None, None), id, now);
            && r.Success?
            && r.value.status == Reported
            && r.value.upvotes == [] && r.value.comments == []
            && r.value.description == None && r.value.reportedBy == None
            && r.value.location.coordinates == coordinates
  {
    var raw := RawPothole(Some(RawLocation(Some("Point"), Some(coordinates))), Some(imageUrl), None, None, None, None, None);
    assert forall p :: p in ReportPaths ==> !Fails(raw, p);
  }

  /** Whatever object is created, a stored report is a Point and its status
      is one of the three admitted names. */
  lemma StoredReportShape(raw: RawPothole, id: Id, now: int)
    requires Create(raw, id, now).Success?
    ensures Create(raw, id, now).value.location.kind == "Point"
    ensures StatusName(Create(raw, id, now).value.status) in {"Reported", "In Progress", "Resolved"}
  {
  }
}
