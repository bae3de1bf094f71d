# fog core: conditional S3 reads, the Linode service, the Bluebox image collection

A Dafny model of four pieces of decision logic in the fog cloud library:

- **S3 `get_object`**. The simulated GET looks up a bucket and an object in
  the in-memory store. It then evaluates the precondition options with a
  first-match-wins chain: If-Match, then If-Modified-Since, then
  If-None-Match, then If-Unmodified-Since. The result is 412, 304 or 200,
  and a missing bucket or object raises a 404 status error. The real GET
  builds the request headers and the request descriptor.
- **S3 `head_object`**. The simulated HEAD is the simulated GET with the
  body cleared. The real HEAD sends the GET descriptor with method HEAD.
- **Linode DNS service**. The simulated store is a class-level hash shared
  by every mock instance and partitioned by API key. A partition is created
  on first access, and there is a global reset and a reset per key. The
  real `request` adds the API key to the query, forces the host, and turns
  the first ERRORARRAY entry of a non-empty body into `NotFound` (code 5) or
  `Error` (any other code).
- **Bluebox `Images`**. `get` turns a `NotFound` from the request into nil
  and lets every other error through. `all` loads the template listing.

The model follows the code, not RFC 7232:

- The order of the chain is not the precedence of section 6 of RFC 7232
  (`S3GetObject.ModifiedSinceBeatsUnmodifiedSince` shows an input where
  this matters).
- ETags are compared by exact equality, with no `*`, no lists and no weak
  tags.
- Both time tests are strict: on a time equal to the object's
  last-modified time, the If-Modified-Since test does not fire.

The real header building also keeps two quirks of the code:

- It guards the If-Unmodified-Since entry on If-Modified-Since. Giving
  If-Modified-Since without If-Unmodified-Since therefore raises
  `NoMethodError` (`nil.utc`) before any request is made.
- Its final merge overwrites the formatted time entries, so on success the
  headers sent are exactly the caller's options.

Modelling choices:

- Option and header hashes are `map<string, Value>`, where a `Value` is a
  string, a time (whole seconds, UTC) or a number. An object's LastModified
  is the stored text; it is returned as is in the Last-Modified header and
  read through `parse`, a parameter standing for Ruby's `Time.parse`, when
  it is compared. Ruby does not type
  these entries, so the model handles the wrong-type cases as Ruby does.
  Comparing a non-time with a time raises `ArgumentError`, and calling
  `utc` on a non-time raises `NoMethodError`.
- Raised errors are the `Err` side of a `Result`.
- State that the code updates in place is a class:
  - the S3 response object;
  - the Linode class-level hash (`MockStore`) and its instances (`Mock`);
  - the Linode `params` hash (`Params`).

  Each class method is proved against a specification function on values,
  and the lemmas are stated about that function.
- The store of the S3 mock is the field `S3Mock.buckets`. `GetObject` and
  `MockHeadObject` have no `modifies` clause, so Dafny checks that they
  leave the store unchanged.
- The following collaborators are parameters of the operations that use
  them: the transport (`connection`), the JSON decoder (`decode`), the
  time parser (`parse`), the time formatter (`strftime`) and the Bluebox
  requests (`Connection`).

## Model

| member | source | states |
|---|---|---|
| `S3GetObject.Precondition` | lib/fog/aws/requests/s3/get_object.rb:53-62 | the status is 200, 304 or 412; a failing If-Match gives 412 whatever else is given; 304 needs If-Modified-Since or If-None-Match; on a time equal to LastModified the If-Modified-Since test does not fire (with If-Match not failing and no If-None-Match, no 304); no precondition option gives 200 |
| `S3GetObject.FirstFiringProceeds` | lib/fog/aws/requests/s3/get_object.rb:53-62 | first-match evaluation yields 200 exactly when no condition in the list fires |
| `S3GetObject.FirstFiringStopsAt` | lib/fog/aws/requests/s3/get_object.rb:53-62 | when the conditions before position i are silent and condition i fires or raises, its status (or its error) is the result, whatever follows |
| `S3GetObject.ChainIsFirstFiring` | lib/fog/aws/requests/s3/get_object.rb:53-62 | the if/elsif chain equals first-match evaluation in the order If-Match, If-Modified-Since, If-None-Match, If-Unmodified-Since |
| `S3GetObject.ProceedsIffNothingFires` | lib/fog/aws/requests/s3/get_object.rb:53-62 | a stored object is served (200) exactly when none of the four conditions fires or raises |
| `S3GetObject.ModifiedSinceBeatsUnmodifiedSince` | lib/fog/aws/requests/s3/get_object.rb:55-60 | a later If-Modified-Since answers 304 even though If-Unmodified-Since fails, so the order is not the precedence of section 6 of RFC 7232 |
| `S3GetObject.LastModifiedIsNotATime` | lib/fog/aws/requests/s3/get_object.rb:55-66 | the Last-Modified a 200 returns is the stored text, so sending it back as If-Modified-Since raises ArgumentError |
| `S3GetObject.GetObjectSpec` | lib/fog/aws/requests/s3/get_object.rb:50-75 | a missing bucket or object always raises the status error with expected 200 and actual 404; a found object gets the chain's status or its error; 200 carries Content-Length, ETag and the stored Last-Modified text from the record and the stored body; 304 and 412 are returned, not raised, with no headers and a nil body |
| `S3GetObject.S3Mock.GetObject` | lib/fog/aws/requests/s3/get_object.rb:50-75 | returns a fresh response whose fields equal `GetObjectSpec`, or raises its error; the store is left unchanged |
| `S3GetObject.ConditionalHeaders` | lib/fog/aws/requests/s3/get_object.rb:27-30 | raises NoMethodError exactly when If-Modified-Since is given without a time-valued If-Unmodified-Since (or is not a time itself); otherwise the headers equal the options, for any formatter |
| `S3GetObject.S3Real.GetObject` | lib/fog/aws/requests/s3/get_object.rb:26-37 | raises under the same condition, before any request; otherwise the request is GET, expects 200, has headers equal to the options, host `bucket + "." + host` and path the object name |
| `S3HeadObject.HeadObjectSpec` | lib/fog/aws/requests/s3/head_object.rb:51-55 | HEAD succeeds exactly when GET does, raises GET's error unchanged, and has GET's status and headers with a nil body |
| `S3HeadObject.HeadStatusIsPrecondition` | lib/fog/aws/requests/s3/head_object.rb:51-52 | HEAD's status for a stored object is the precondition chain's, including the 304 and 412 short-circuits, and a missing object raises the 404 status error |
| `S3HeadObject.MockHeadObject` | lib/fog/aws/requests/s3/head_object.rb:51-55 | the response `get_object` returns, with its body cleared in place, equals `HeadObjectSpec` |
| `S3HeadObject.RealHeadObject` | lib/fog/aws/requests/s3/head_object.rb:27-38 | the real GET descriptor with method HEAD, with the same headers, host, path, expected 200 and the same raising condition |
| `LinodeDns.Access` | lib/fog/dns/linode.rb:26-29 | access under a key returns what that key last held, or a new empty hash that is then stored; the first access ever creates the table with just that key; no key's view changes |
| `LinodeDns.Step` | lib/fog/dns/linode.rb:26-46 | an access changes no key's view; a write is seen under its own key; reset_data empties its key; reset empties every key; no operation other than reset changes the view of another key |
| `LinodeDns.OtherKeysInvisible` | lib/fog/dns/linode.rb:26-46 | any sequence of accesses, writes and reset_data calls under other keys leaves the partition a key sees unchanged |
| `LinodeDns.FreshAfterReset` | lib/fog/dns/linode.rb:32-34 | after reset, or after reset_data under the key, that key's next access yields an empty hash, whatever other keys do in between |
| `LinodeDns.MockStore.Data` | lib/fog/dns/linode.rb:26-30 | creates the table when nil and returns it; no key's view changes |
| `LinodeDns.MockStore.Reset` | lib/fog/dns/linode.rb:32-34 | the table becomes nil |
| `LinodeDns.Mock.Data` | lib/fog/dns/linode.rb:40-42 | the new table and the returned partition are those of `Access` under the instance's key |
| `LinodeDns.Mock.Write` | lib/fog/dns/linode.rb:40-42 | a write through the hash `data` returns updates the table as `Step` says |
| `LinodeDns.Mock.ResetData` | lib/fog/dns/linode.rb:44-46 | deletes only the instance's key, as `Step` says, and returns the deleted partition or nil |
| `LinodeDns.Classify` | lib/fog/dns/linode.rb:73-80 | no error exactly when ERRORARRAY is empty; otherwise the error carries the first entry's message and is NotFound exactly when that entry's code is 5, Error otherwise |
| `LinodeDns.WithApiKey` | lib/fog/dns/linode.rb:66-67 | the query holds `api_key` equal to the key and every other entry of the caller's query; an absent query becomes just `{api_key}` |
| `LinodeDns.Finish` | lib/fog/dns/linode.rb:71-83 | an empty body is returned undecoded with no error; a non-empty body succeeds exactly when its ERRORARRAY is empty, with the decoded body; a missing ERRORARRAY raises NoMethodError; otherwise the error is the one `Classify` gives |
| `LinodeDns.Real.constructor` | lib/fog/dns/linode.rb:52-57 | host, port and scheme default to "api.linode.com", 443 and "https" when the options omit them |
| `LinodeDns.Real.Request` | lib/fog/dns/linode.rb:65-84 | params' query becomes `WithApiKey` of the old query and params' host the instance's host, other entries untouched; the transport receives exactly that; the outcome is `Finish` of its response |
| `BlueboxImages.Load` | lib/fog/compute/models/bluebox/images.rb:14 | one image per entry, in the listing's order, built from that entry |
| `BlueboxImages.All` | lib/fog/compute/models/bluebox/images.rb:12-15 | succeeds exactly when the listing request does, with one image per entry in order; its error propagates unchanged |
| `BlueboxImages.Get` | lib/fog/compute/models/bluebox/images.rb:17-22 | nil exactly when the request raises NotFound; an image built from the body on success; any other error propagates unchanged, and NotFound never escapes |

## Left out

- The load-time `Fog.mocking?` switch: the real and the simulated branches are separate classes (`S3Real`, `S3Mock`; `Real`, `Mock`).
- Fog::Connection and Excon, `reload` and the connection URL built in the Linode constructor: network I/O. The transport is a function from what is sent to the response received, so it is deterministic in the model.
- `MultiJson.decode` failures on malformed bodies: the decoder is a total function parameter.
- `Time.parse` and `strftime`: both are function parameters. `parse` is total, so a malformed LastModified does not raise, and the output of `strftime` is discarded by the final merge anyway.
- The Content-Type header and `Range`: the mock never sets the first and never looks at the second.
- The defaults of a fresh `Fog::Response`, defined outside these files, are taken as status 0, empty headers and a nil body.
- Fog::Errors.status_error is not part of this model: its error is the value `StatusError(expected, actual, response)`.
- Fog::Collection `load` and `new` are not part of this model: `new` is the constructor `Image`, and `load` gives one image per entry in order.
- BlueboxImages.Get: the model does not state that `get_template` is called exactly once, because a function cannot count calls; its definition applies the request once to the identifier.
- LinodeDns.Mock.Write: Ruby hands out the partition by reference, and callers mutate it in place. The model returns the partition as a value, so such writes go through this method instead of through an alias.
- LinodeDns.WithApiKey and LinodeDns.Finish: Ruby keys are not all strings here. The query is merged under the Symbol `:api_key`, so a caller's String key `"api_key"` would survive beside it in Ruby, while the model's single string key overwrites it. A `null` first ERRORARRAY entry is falsy in Ruby and returns the response without raising, but `ErrorEntry` cannot express a null entry.
- Concurrent use of the shared mock store: the code has no synchronisation.
- The Slicehost and Brightbox request descriptors: constant fields handed to an unseen `request`.
