/** S3 `get_object`: the simulated conditional GET over the in-memory bucket
    store, and the real request descriptor with its header building.
    lib/fog/aws/requests/s3/get_object.rb */
module S3GetObject {
  import opened FogCore

  const IfMatchHeader := "If-Match"
  const IfModifiedSinceHeader := "If-Modified-Since"
  const IfNoneMatchHeader := "If-None-Match"
  const IfUnmodifiedSinceHeader := "If-Unmodified-Since"

  const OK := 200
  const NotModified := 304
  const NotFound := 404
  const PreconditionFailed := 412

  /** A stored object: its ETag, its LastModified text (as stored, and as
      returned in the Last-Modified header), its Size and its body. The
      comparisons read LastModified through `parse`, Ruby's `Time.parse`. */
  datatype ObjectRecord = ObjectRecord(etag: string, lastModified: string, size: int, body: string)

  datatype Bucket = Bucket(objects: map<string, ObjectRecord>)

  /** What the response of a mocked request holds; a nil body is `None`. */
  type S3Envelope = Envelope<Option<string>>

  /** Errors the two branches raise. `StatusError` is the status error built
      from the expected and the actual status and the response. */
  datatype Failure =
    | StatusError(expected: int, actual: int, response: S3Envelope)
    | ArgumentError(message: string)
    | NoMethodError(name: string)

  datatype Verb = Get | Head

  /** The descriptor handed to the transport by the real branch. */
  datatype Request = Request(verb: Verb, expects: int, headers: Hash, host: string, path: string)

  /** Ruby's `v > t` for an option value `v` and a parsed time `t`: only a
      Time compares with a Time. */
  function LaterThan(v: Value, t: int): Result<bool, Failure> {
    match v
    case Instant(s) => Ok(s > t)
    case _ => Err(ArgumentError("comparison with Time failed"))
  }

  /** Ruby's `v < t`, likewise. */
  function EarlierThan(v: Value, t: int): Result<bool, Failure> {
    match v
    case Instant(s) => Ok(s < t)
    case _ => Err(ArgumentError("comparison with Time failed"))
  }

  predicate IfMatchFails(options: Hash, obj: ObjectRecord) {
    IfMatchHeader in options && options[IfMatchHeader] != Text(obj.etag)
  }

  /** The precondition chain as written: If-Match, If-Modified-Since,
      If-None-Match, If-Unmodified-Since, first match wins. The result is
      the status the mock sets for a stored object. */
  function Precondition(options: Hash, obj: ObjectRecord, parse: string -> int): (r: Result<int, Failure>)
    ensures r.Ok? ==> r.value == OK || r.value == NotModified || r.value == PreconditionFailed
    ensures IfMatchFails(options, obj) ==> r == Ok(PreconditionFailed)
    ensures r == Ok(NotModified) ==>
              IfModifiedSinceHeader in options || IfNoneMatchHeader in options
    ensures !IfMatchFails(options, obj) && IfNoneMatchHeader !in options
            && IfModifiedSinceHeader in options
            && options[IfModifiedSinceHeader] == Instant(parse(obj.lastModified))
            ==> r != Ok(NotModified)
    ensures IfMatchHeader !in options && IfModifiedSinceHeader !in options
            && IfNoneMatchHeader !in options && IfUnmodifiedSinceHeader !in options
            ==> r == Ok(OK)
  {
    if IfMatchFails(options, obj) then
      Ok(PreconditionFailed)
    else
      var newer :- if IfModifiedSinceHeader in options
                   then LaterThan(options[IfModifiedSinceHeader], parse(obj.lastModified))
                   else Ok(false);
      if newer then
        Ok(NotModified)
      else if IfNoneMatchHeader in options && options[IfNoneMatchHeader] == Text(obj.etag) then
        Ok(NotModified)
      else
        var older :- if IfUnmodifiedSinceHeader in options
                     then EarlierThan(options[IfUnmodifiedSinceHeader], parse(obj.lastModified))
                     else Ok(false);
        if older then Ok(PreconditionFailed) else Ok(OK)
  }

  /** The four preconditions, each read on its own. */
  datatype Condition = IfMatch | IfModifiedSince | IfNoneMatch | IfUnmodifiedSince

  function HeaderOf(c: Condition): string {
    match c
    case IfMatch => IfMatchHeader
    case IfModifiedSince => IfModifiedSinceHeader
    case IfNoneMatch => IfNoneMatchHeader
    case IfUnmodifiedSince => IfUnmodifiedSinceHeader
  }

  /** The status a condition short-circuits to when it fires. */
  function StatusOf(c: Condition): int {
    match c
    case IfMatch => PreconditionFailed
    case IfModifiedSince => NotModified
    case IfNoneMatch => NotModified
    case IfUnmodifiedSince => PreconditionFailed
  }

  /** Whether condition `c` fires for `obj`; an absent header never fires,
      and a time condition holding a non-time raises. */
  function Fires(c: Condition, options: Hash, obj: ObjectRecord, parse: string -> int): Result<bool, Failure> {
    var h := HeaderOf(c);
    if h !in options then Ok(false)
    else
      match c
      case IfMatch => Ok(options[h] != Text(obj.etag))
      case IfModifiedSince => LaterThan(options[h], parse(obj.lastModified))
      case IfNoneMatch => Ok(options[h] == Text(obj.etag))
      case IfUnmodifiedSince => EarlierThan(options[h], parse(obj.lastModified))
  }

  /** The order in which the mock evaluates the conditions. */
  const EvaluationOrder: seq<Condition> := [IfMatch, IfModifiedSince, IfNoneMatch, IfUnmodifiedSince]

  /** Reference reading of "first match wins": walk `conds` in order, stop at
      the first that fires (or raises); 200 if none does. */
  function FirstFiring(conds: seq<Condition>, options: Hash, obj: ObjectRecord, parse: string -> int): Result<int, Failure> {
    if conds == [] then Ok(OK)
    else
      match Fires(conds[0], options, obj, parse)
      case Err(e) => Err(e)
      case Ok(fired) => if fired then Ok(StatusOf(conds[0])) else FirstFiring(conds[1..], options, obj, parse)
  }

  /** The walk proceeds (200) exactly when no condition fires. */
  lemma {:induction false} FirstFiringProceeds(conds: seq<Condition>, options: Hash, obj: ObjectRecord, parse: string -> int)
    ensures FirstFiring(conds, options, obj, parse) == Ok(OK)
            <==> forall i | 0 <= i < |conds| :: Fires(conds[i], options, obj, parse) == Ok(false)
  {
    if conds != [] {
      FirstFiringProceeds(conds[1..], options, obj, parse);
      assert forall i | 1 <= i < |conds| :: conds[i] == conds[1..][i - 1];
    }
  }

  /** When the conditions before `i` stay silent and condition `i` fires or
      raises, the walk ends there, whatever follows. */
  lemma {:induction false} FirstFiringStopsAt(conds: seq<Condition>, options: Hash, obj: ObjectRecord, parse: string -> int, i: nat)
    requires i < |conds|
    requires forall j | 0 <= j < i :: Fires(conds[j], options, obj, parse) == Ok(false)
    requires Fires(conds[i], options, obj, parse) != Ok(false)
    ensures FirstFiring(conds, options, obj, parse)
            == match Fires(conds[i], options, obj, parse)
               case Err(e) => Err(e)
               case Ok(_) => Ok(StatusOf(conds[i]))
  {
    if i > 0 {
      assert forall j | 0 <= j < i - 1 :: conds[1..][j] == conds[j + 1];
      FirstFiringStopsAt(conds[1..], options, obj, parse, i - 1);
    }
  }

  /** The `if/elsif` chain is the first-match walk over `EvaluationOrder`. */
  lemma ChainIsFirstFiring(options: Hash, obj: ObjectRecord, parse: string -> int)
    ensures Precondition(options, obj, parse) == FirstFiring(EvaluationOrder, options, obj, parse)
  {
    var o := EvaluationOrder;
    assert o[1..] == [IfModifiedSince, IfNoneMatch, IfUnmodifiedSince];
    assert o[1..][1..] == [IfNoneMatch, IfUnmodifiedSince];
    assert o[1..][1..][1..] == [IfUnmodifiedSince];
    var older := if IfUnmodifiedSinceHeader in options
                 then EarlierThan(options[IfUnmodifiedSinceHeader], parse(obj.lastModified)) else Ok(false);
    var last := match older case Err(e) => Err(e) case Ok(b) => if b then Ok(PreconditionFailed) else Ok(OK);
    assert FirstFiring(o[1..][1..][1..], options, obj, parse) == last by {
      assert o[1..][1..][1..][1..] == [];
    }
    var noneMatch := IfNoneMatchHeader in options && options[IfNoneMatchHeader] == Text(obj.etag);
    assert FirstFiring(o[1..][1..], options, obj, parse) == if noneMatch then Ok(NotModified) else last;
    var newer := if IfModifiedSinceHeader in options
                 then LaterThan(options[IfModifiedSinceHeader], parse(obj.lastModified)) else Ok(false);
    assert FirstFiring(o[1..], options, obj, parse)
           == match newer
              case Err(e) => Err(e)
              case Ok(b) => if b then Ok(NotModified) else if noneMatch then Ok(NotModified) else last;
  }

  /** The mock returns 200 exactly when none of the four conditions fires
      and none raises. */
  lemma ProceedsIffNothingFires(options: Hash, obj: ObjectRecord, parse: string -> int)
    ensures Precondition(options, obj, parse) == Ok(OK)
            <==> forall c: Condition :: Fires(c, options, obj, parse) == Ok(false)
  {
    ChainIsFirstFiring(options, obj, parse);
    FirstFiringProceeds(EvaluationOrder, options, obj, parse);
    var o := EvaluationOrder;
    assert o[0] == IfMatch && o[1] == IfModifiedSince && o[2] == IfNoneMatch && o[3] == IfUnmodifiedSince;
    if forall i | 0 <= i < |o| :: Fires(o[i], options, obj, parse) == Ok(false) {
      forall c: Condition ensures Fires(c, options, obj, parse) == Ok(false) {
        var k := match c case IfMatch => 0 case IfModifiedSince => 1 case IfNoneMatch => 2 case IfUnmodifiedSince => 3;
        assert o[k] == c;
      }
    }
  }

  /** The order differs from the precedence in section 6 of RFC 7232, which
      evaluates If-Unmodified-Since before If-Modified-Since: here a later
      If-Modified-Since answers 304 although If-Unmodified-Since fails. */
  lemma ModifiedSinceBeatsUnmodifiedSince(parse: string -> int)
    requires parse("Thu, 01 Jan 1970 00:00:05 GMT") == 5
    ensures var options := map[IfModifiedSinceHeader := Instant(10), IfUnmodifiedSinceHeader := Instant(0)];
            var obj := ObjectRecord("e", "Thu, 01 Jan 1970 00:00:05 GMT", 0, "");
            Fires(IfUnmodifiedSince, options, obj, parse) == Ok(true)
            && Precondition(options, obj, parse) == Ok(NotModified)
  {
  }

  predicate Found(buckets: map<string, Bucket>, bucketName: string, objectName: string) {
    bucketName in buckets && objectName in buckets[bucketName].objects
  }

  /** The error a missing bucket or object raises. */
  function Missing(): Failure {
    StatusError(OK, NotFound, Envelope(NotFound, map[], None))
  }

  /** The headers a 200 carries: Content-Length, ETag and Last-Modified of the record. */
  function ObjectHeaders(obj: ObjectRecord): Hash {
    map[
      "Content-Length" := Number(obj.size),
      "ETag" := Text(obj.etag),
      "Last-Modified" := Text(obj.lastModified)
    ]
  }

  /** The Last-Modified a 200 returns is the stored text, so sending it back
      as If-Modified-Since compares a String with a Time and raises. */
  lemma LastModifiedIsNotATime(buckets: map<string, Bucket>, bucketName: string, objectName: string, parse: string -> int)
    requires Found(buckets, bucketName, objectName)
    ensures var served := GetObjectSpec(buckets, bucketName, objectName, map[], parse);
            && served.Ok? && served.value.status == OK
            && var options := map[IfModifiedSinceHeader := served.value.headers["Last-Modified"]];
               GetObjectSpec(buckets, bucketName, objectName, options, parse).Err?
               && GetObjectSpec(buckets, bucketName, objectName, options, parse).error.ArgumentError?
  {
  }

  /** The mocked GET as a function of the store and the arguments. */
  function GetObjectSpec(buckets: map<string, Bucket>, bucketName: string, objectName: string, options: Hash, parse: string -> int)
    : (r: Result<S3Envelope, Failure>)
    ensures !Found(buckets, bucketName, objectName) <==> r == Err(Missing())
    ensures Found(buckets, bucketName, objectName) ==>
              var obj := buckets[bucketName].objects[objectName];
              && (r.Ok? <==> Precondition(options, obj, parse).Ok?)
              && (r.Ok? ==> r.value.status == Precondition(options, obj, parse).value)
              && (r.Err? ==> r.error == Precondition(options, obj, parse).error)
              && (r.Ok? && r.value.status == OK ==>
                    r.value.headers == ObjectHeaders(obj) && r.value.body == Some(obj.body))
    ensures r.Ok? && r.value.status != OK ==> r.value.headers == map[] && r.value.body == None
    ensures r.Err? && r.error.StatusError? ==> r == Err(Missing())
  {
    if Found(buckets, bucketName, objectName) then
      var obj := buckets[bucketName].objects[objectName];
      match Precondition(options, obj, parse)
      case Err(e) => Err(e)
      case Ok(status) =>
        if status == OK then Ok(Envelope(OK, ObjectHeaders(obj), Some(obj.body)))
        else Ok(Envelope(status, map[], None))
    else
      Err(Missing())
  }

  /** `Fog::AWS::S3` in simulation: `buckets` is the store the mock reads. */
  class S3Mock {
    var buckets: map<string, Bucket>

    constructor (buckets: map<string, Bucket>)
      ensures this.buckets == buckets
    {
      this.buckets := buckets;
    }

    /** Reads the store only: with no `modifies` clause, `buckets` is unchanged. */
    method GetObject(bucketName: string, objectName: string, options: Hash, parse: string -> int)
      returns (r: Result<Response<Option<string>>, Failure>)
      ensures r.Ok? ==> fresh(r.value)
      ensures ViewOf(r) == GetObjectSpec(buckets, bucketName, objectName, options, parse)
    {
      var response := new Response(0, map[], None);
      if bucketName in buckets && objectName in buckets[bucketName].objects {
        var obj := buckets[bucketName].objects[objectName];
        if IfMatchHeader in options && options[IfMatchHeader] != Text(obj.etag) {
          response.status := PreconditionFailed;
        } else {
          var newer := false;
          if IfModifiedSinceHeader in options {
            newer :- LaterThan(options[IfModifiedSinceHeader], parse(obj.lastModified));
          }
          if newer {
            response.status := NotModified;
          } else if IfNoneMatchHeader in options && options[IfNoneMatchHeader] == Text(obj.etag) {
            response.status := NotModified;
          } else {
            var older := false;
            if IfUnmodifiedSinceHeader in options {
              older :- EarlierThan(options[IfUnmodifiedSinceHeader], parse(obj.lastModified));
            }
            if older {
              response.status := PreconditionFailed;
            } else {
              response.status := OK;
              response.headers := ObjectHeaders(obj);
              response.body := Some(obj.body);
            }
          }
        }
      } else {
        response.status := NotFound;
        return Err(StatusError(OK, NotFound, response.View()));
      }
      return Ok(response);
    }
  }

  /** Ruby's `v.utc`: only a Time answers it. */
  function Utc(v: Value): Result<int, Failure> {
    match v
    case Instant(s) => Ok(s)
    case _ => Err(NoMethodError("utc"))
  }

  /** Whether building the headers raises: If-Unmodified-Since is formatted
      under the If-Modified-Since guard, so If-Modified-Since without a
      usable If-Unmodified-Since calls `utc` on nil or on a non-time. */
  predicate HeadersRaise(options: Hash) {
    IfModifiedSinceHeader in options
    && (!options[IfModifiedSinceHeader].Instant?
        || IfUnmodifiedSinceHeader !in options
        || !options[IfUnmodifiedSinceHeader].Instant?)
  }

  /** The request headers of the real GET and HEAD. The formatted time
      entries are overwritten by the final merge, so on success the headers
      are exactly the options, whatever `strftime` does. */
  method ConditionalHeaders(options: Hash, strftime: int -> string) returns (r: Result<Hash, Failure>)
    ensures r.Err? <==> HeadersRaise(options)
    ensures r.Err? ==> r.error == NoMethodError("utc")
    ensures r.Ok? ==> r.value == options
  {
    var headers: Hash := map[];
    if IfModifiedSinceHeader in options {
      var since :- Utc(options[IfModifiedSinceHeader]);
      headers := headers[IfModifiedSinceHeader := Text(strftime(since))];
    }
    if IfModifiedSinceHeader in options {
      if IfUnmodifiedSinceHeader !in options {
        return Err(NoMethodError("utc"));  // `nil.utc`
      }
      var unmodified :- Utc(options[IfUnmodifiedSinceHeader]);
      headers := headers[IfUnmodifiedSinceHeader := Text(strftime(unmodified))];
    }
    headers := headers + options;
    return Ok(headers);
  }

  /** `Fog::AWS::S3` against the network: `host` is the service endpoint. */
  class S3Real {
    const host: string

    constructor (host: string)
      ensures this.host == host
    {
      this.host := host;
    }

    /** The descriptor passed to the transport; the transport itself is not
        modelled. */
    method GetObject(bucketName: string, objectName: string, options: Hash, strftime: int -> string)
      returns (r: Result<Request, Failure>)
      ensures r.Err? <==> HeadersRaise(options)
      ensures r.Err? ==> r.error == NoMethodError("utc")
      ensures r.Ok? ==> r.value == Request(Get, OK, options, bucketName + "." + host, objectName)
    {
      var headers :- ConditionalHeaders(options, strftime);
      return Ok(Request(Get, OK, headers, bucketName + "." + host, objectName));
    }
  }
}
