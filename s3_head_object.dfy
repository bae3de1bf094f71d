/** S3 `head_object`: the simulated HEAD is the simulated GET with its body
    cleared; the real HEAD sends the GET descriptor with method HEAD.
    lib/fog/aws/requests/s3/head_object.rb */
module S3HeadObject {
  import opened FogCore
  import opened S3GetObject

  /** The mocked HEAD as a function of the store and the arguments: the GET
      outcome with a nil body. */
  function HeadObjectSpec(buckets: map<string, Bucket>, bucketName: string, objectName: string, options: Hash, parse: string -> int)
    : (r: Result<S3Envelope, Failure>)
    ensures var get := GetObjectSpec(buckets, bucketName, objectName, options, parse);
            && (r.Ok? <==> get.Ok?)
            && (r.Err? ==> r.error == get.error)
            && (r.Ok? ==> r.value.status == get.value.status
                          && r.value.headers == get.value.headers
                          && r.value.body == None)
  {
    match GetObjectSpec(buckets, bucketName, objectName, options, parse)
    case Err(e) => Err(e)
    case Ok(response) => Ok(response.(body := None))
  }

  /** HEAD decides conditions exactly as GET does: for a stored object its
      status is the precondition chain's, and a missing one raises the same
      404 status error. */
  lemma HeadStatusIsPrecondition(buckets: map<string, Bucket>, bucketName: string, objectName: string, options: Hash, parse: string -> int)
    ensures var r := HeadObjectSpec(buckets, bucketName, objectName, options, parse);
            if Found(buckets, bucketName, objectName) then
              var p := Precondition(options, buckets[bucketName].objects[objectName], parse);
              (r.Ok? <==> p.Ok?) && (r.Ok? ==> r.value.status == p.value)
            else
              r == Err(Missing())
  {
  }

  /** Simulated `head_object`: delegates to `get_object`, then clears the
      body of the response it got back; a raised error passes through. */
  method MockHeadObject(s3: S3Mock, bucketName: string, objectName: string, options: Hash, parse: string -> int)
    returns (r: Result<Response<Option<string>>, Failure>)
    ensures r.Ok? ==> fresh(r.value)
    ensures ViewOf(r) == HeadObjectSpec(s3.buckets, bucketName, objectName, options, parse)
  {
    r := s3.GetObject(bucketName, objectName, options, parse);
    if r.Ok? {
      r.value.body := None;
    }
  }

  /** Real `head_object`: the descriptor of the real GET with method HEAD,
      including the same If-Unmodified-Since guard quirk. */
  method RealHeadObject(s3: S3Real, bucketName: string, objectName: string, options: Hash, strftime: int -> string)
    returns (r: Result<Request, Failure>)
    ensures r.Err? <==> HeadersRaise(options)
    ensures r.Err? ==> r.error == NoMethodError("utc")
    ensures r.Ok? ==> r.value == Request(Head, OK, options, bucketName + "." + s3.host, objectName)
  {
    var headers :- ConditionalHeaders(options, strftime);
    return Ok(Request(Head, OK, headers, bucketName + "." + s3.host, objectName));
  }
}
