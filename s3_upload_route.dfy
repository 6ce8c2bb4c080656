/** The `/api/s3-upload` route: given the MIME type of an image, derive an
    object key from a fresh id and the type's subtype, and ask the object
    store for a URL that allows one upload of that key for 60 seconds. */
module S3UploadRoute {
  import opened Common

  /** `fileType.split('/')[1]`: the text between the first and second '/',
      or undefined when there is no '/'. */
  function Subtype(fileType: string): (ex: Option<string>)
    ensures ex.Some? <==> '/' in fileType
    ensures ex.Some? ==> '/' !in ex.value
  {
    SplitCount(fileType, '/');
    SplitPartsClean(fileType, '/');
    var parts := Split(fileType, '/');
    if |parts| >= 2 then Some(parts[1]) else None
  }

  /** The key `${id}.${ex}`; an undefined subtype is rendered "undefined".
      Whatever the type, the key is the id and a dot followed by text with
      no '/', so it never names a deeper path. */
  function ObjectKey(id: string, fileType: string): (key: string)
    ensures |key| > |id| && key[..|id| + 1] == id + "."
    ensures '/' !in key[|id| + 1..]
  {
    var ex := Subtype(fileType);
    var ext := if ex.Some? then ex.value else "undefined";
    assert (id + "." + ext)[|id| + 1..] == ext;
    id + "." + ext
  }

  /** The key is the id, a dot, and the segment of the type between its
      first and second '/'. */
  lemma {:induction false} KeyTakesSecondSegment(id: string, top: string, sub: string, tail: string)
    requires '/' !in top && '/' !in sub
    requires tail == [] || tail[0] == '/'
    ensures ObjectKey(id, top + "/" + sub + tail) == id + "." + sub
  {
    var s := top + "/" + sub + tail;
    assert s == top + ['/'] + (sub + tail);
    SplitAfterFirst(top, sub + tail, '/');
    if tail == [] {
      assert sub + tail == sub;
      SplitWithoutSeparator(sub, '/');
    } else {
      assert sub + tail == sub + ['/'] + tail[1..];
      SplitAfterFirst(sub, tail[1..], '/');
    }
  }

  /** A type without any '/' yields the key `<id>.undefined`. */
  lemma KeyWithoutSlash(id: string, fileType: string)
    requires '/' !in fileType
    ensures ObjectKey(id, fileType) == id + ".undefined"
  {
    SplitWithoutSeparator(fileType, '/');
  }

  /** How "image/jpeg" is laid out around its '/'. */
  lemma JpegLayout()
    ensures "image/jpeg" == "image" + "/" + "jpeg" + ""
    ensures '/' !in "image" && '/' !in "jpeg"
  {
  }

  /** The common case: `image/jpeg` gives `<id>.jpeg`. */
  lemma JpegKey(id: string)
    ensures ObjectKey(id, "image/jpeg") == id + ".jpeg"
  {
    JpegLayout();
    KeyTakesSecondSegment(id, "image", "jpeg", "");
    assert id + "." + "jpeg" == id + ".jpeg";
  }

  /** The upload command handed to the signer. */
  datatype PutCommand = PutCommand(bucket: string, key: string, contentType: string)

  /** The signing request: a command and the URL's lifetime in seconds. */
  datatype SignRequest = SignRequest(command: PutCommand, expiresIn: nat)

  datatype Response =
    | Presigned(url: string, key: string)
    | Failed(status: int, message: string)

  /** The response together with the signing request the handler issued, if any. */
  datatype Handled = Handled(response: Response, issued: Option<SignRequest>)

  const ExpiresInSeconds: nat := 60
  const TypeRequired: string := "File type is required."
  const PresignFailed: string := "Error creating presigned URL."

  /** The lifetime handed to the signer. */
  function SignRequestFor(bucket: string, key: string, fileType: string): (r: SignRequest)
    ensures r.command.key == key && r.command.contentType == fileType && r.command.bucket == bucket
    ensures r.expiresIn == 60
  {
    SignRequest(PutCommand(bucket, key, fileType), ExpiresInSeconds)
  }

  /** `POST /api/s3-upload`. `fileType` is None when the body is not JSON
      and Some(None) when it has no `fileType`; `id` is the fresh id;
      `signed` is the signer's URL, or None when signing throws. */
  function Post(fileType: Option<Option<string>>, id: string, bucket: string, signed: Option<string>): (h: Handled)
    ensures fileType.None? ==> h == Handled(Failed(500, PresignFailed), None)
    ensures fileType.Some? && !TruthyText(fileType.value) ==> h == Handled(Failed(400, TypeRequired), None)
    ensures fileType.Some? && TruthyText(fileType.value) ==>
              && h.issued == Some(SignRequestFor(bucket, ObjectKey(id, fileType.value.value), fileType.value.value))
              && h.response == (if signed.Some? then Presigned(signed.value, ObjectKey(id, fileType.value.value))
                                else Failed(500, PresignFailed))
  {
    if fileType.None? then Handled(Failed(500, PresignFailed), None)
    else if !TruthyText(fileType.value) then Handled(Failed(400, TypeRequired), None)
    else
      var t := fileType.value.value;
      var key := ObjectKey(id, t);
      var request := SignRequestFor(bucket, key, t);
      if signed.Some? then Handled(Presigned(signed.value, key), Some(request))
      else Handled(Failed(500, PresignFailed), Some(request))
  }

  /** Whenever a URL is returned, the key in the response is the key the
      URL was signed for, the command's content type is the requested type,
      and the URL lives 60 seconds. */
  lemma ReturnedKeyIsSignedKey(fileType: Option<Option<string>>, id: string, bucket: string, signed: Option<string>)
    requires Post(fileType, id, bucket, signed).response.Presigned?
    ensures var h := Post(fileType, id, bucket, signed);
            && h.issued.Some?
            && h.issued.value.command.key == h.response.key
            && h.issued.value.command.contentType == fileType.value.value
            && h.issued.value.expiresIn == 60
            && h.response.url == signed.value
  {
  }
}
