/** The Linode DNS service: the simulated store shared by every mock and
    partitioned by API key, and the real request wrapper that adds the key
    to the query and turns the first ERRORARRAY entry into an error.
    lib/fog/dns/linode.rb */
module LinodeDns {
  import opened FogCore

  /** The hash one API key sees; other mock requests fill it. */
  type Partition<V> = map<string, V>

  /** The class-level hash from API key to partition. */
  type Table<V> = map<string, Partition<V>>

  /** `@data ||= Hash.new { ... }`: the table, made empty when still nil. */
  function Materialize<V>(data: Option<Table<V>>): Table<V> {
    if data.Some? then data.value else map[]
  }

  /** The partition the next access under `key` hands back. */
  function Observed<V>(data: Option<Table<V>>, key: string): Partition<V> {
    if data.Some? && key in data.value then data.value[key] else map[]
  }

  /** An access to the partition of `key`: the default block stores an
      empty hash for a key seen for the first time and returns it. */
  function Access<V>(data: Option<Table<V>>, key: string): (r: (Option<Table<V>>, Partition<V>))
    ensures r.0.Some? && key in r.0.value && r.0.value[key] == r.1
    ensures data.None? ==> r.0 == Some(map[key := map[]]) && r.1 == map[]
    ensures r.1 == Observed(data, key)
    ensures forall k :: Observed(r.0, k) == Observed(data, k)
  {
    var table := Materialize(data);
    if key in table then (Some(table), table[key]) else (Some(table[key := map[]]), map[])
  }

  /** What can happen to the class-level hash: an access under a key, a
      write through the hash an access returned, `reset_data` under a key,
      and the global `reset`. */
  datatype Op<V> = Read(key: string) | Write(key: string, name: string, v: V) | ResetData(key: string) | Reset

  function Step<V>(data: Option<Table<V>>, op: Op<V>): (r: Option<Table<V>>)
    ensures op.Read? ==> forall k :: Observed(r, k) == Observed(data, k)
    ensures op.Write? ==> Observed(r, op.key) == Observed(data, op.key)[op.name := op.v]
    ensures op.ResetData? ==> Observed(r, op.key) == map[]
    ensures op.Reset? ==> r == None && forall k :: Observed(r, k) == map[]
    ensures !op.Reset? ==> forall k :: k != op.key ==> Observed(r, k) == Observed(data, k)
  {
    match op
    case Read(key) => Access(data, key).0
    case Write(key, name, v) =>
      var (accessed, partition) := Access(data, key);
      Some(accessed.value[key := partition[name := v]])
    case ResetData(key) => Some(Materialize(data) - {key})
    case Reset => None
  }

  /** The table after `ops`, one after the other. */
  function Run<V>(data: Option<Table<V>>, ops: seq<Op<V>>): Option<Table<V>>
    decreases |ops|
  {
    if ops == [] then data else Run(Step(data, ops[0]), ops[1..])
  }

  /** No sequence of operations under other keys, global reset aside, changes
      what an access under `key` sees. */
  lemma {:induction false} OtherKeysInvisible<V>(data: Option<Table<V>>, ops: seq<Op<V>>, key: string)
    requires forall i | 0 <= i < |ops| :: !ops[i].Reset? && ops[i].key != key
    ensures Observed(Run(data, ops), key) == Observed(data, key)
    decreases |ops|
  {
    if ops != [] {
      assert forall i | 0 <= i < |ops| - 1 :: ops[1..][i] == ops[i + 1];
      OtherKeysInvisible(Step(data, ops[0]), ops[1..], key);
    }
  }

  /** After `reset`, or after `reset_data` under `key`, the partition of `key`
      starts empty again, whatever other keys do afterwards. */
  lemma FreshAfterReset<V>(data: Option<Table<V>>, reset: Op<V>, ops: seq<Op<V>>, key: string)
    requires reset.Reset? || reset == ResetData(key)
    requires forall i | 0 <= i < |ops| :: !ops[i].Reset? && ops[i].key != key
    ensures Observed(Run(data, [reset] + ops), key) == map[]
  {
    assert ([reset] + ops)[1..] == ops;
    OtherKeysInvisible(Step(data, reset), ops, key);
  }

  /** The class-level state of `Fog::DNS::Linode::Mock`, shared by every
      mock instance; nil until first used. */
  class MockStore<V> {
    var table: Option<Table<V>>

    constructor ()
      ensures table == None
    {
      table := None;
    }

    /** `self.data`: creates the table when nil. */
    method Data() returns (t: Table<V>)
      modifies this
      ensures table == Some(t) && t == Materialize(old(table))
      ensures forall k :: Observed(table, k) == Observed(old(table), k)
    {
      if table.None? {
        table := Some(map[]);
      }
      t := table.value;
    }

    /** `self.reset`: drops every partition. */
    method Reset()
      modifies this
      ensures table == Step(old(table), Op.Reset)
    {
      table := None;
    }
  }

  /** A mock service instance; it only ever touches the partition of its
      own API key. */
  class Mock<V> {
    const apiKey: string
    const store: MockStore<V>

    constructor (store: MockStore<V>, linodeApiKey: string)
      ensures this.store == store && apiKey == linodeApiKey
    {
      this.store := store;
      this.apiKey := linodeApiKey;
    }

    /** `data`: this key's partition, created empty on first access. */
    method Data() returns (p: Partition<V>)
      modifies store
      ensures (store.table, p) == Access(old(store.table), apiKey)
    {
      var t := store.Data();
      if apiKey !in t {
        store.table := Some(t[apiKey := map[]]);
      }
      p := store.table.value[apiKey];
    }

    /** A write into the hash `data` returns, which Ruby shares by reference. */
    method Write(name: string, v: V)
      modifies store
      ensures store.table == Step(old(store.table), Op.Write(apiKey, name, v))
    {
      var p := Data();
      store.table := Some(store.table.value[apiKey := p[name := v]]);
    }

    /** `reset_data`: deletes this key's partition and returns it (nil if absent). */
    method ResetData() returns (deleted: Option<Partition<V>>)
      modifies store
      ensures store.table == Step(old(store.table), Op.ResetData(apiKey))
      ensures deleted == if old(store.table).Some? && apiKey in old(store.table).value
                         then Some(old(store.table).value[apiKey]) else None
    {
      var t := store.Data();
      deleted := if apiKey in t then Some(t[apiKey]) else None;
      store.table := Some(t - {apiKey});
    }
  }

  const NotFoundCode := 5
  const ApiKeyParam := "api_key"
  const DefaultHost := "api.linode.com"
  const DefaultPort := 443
  const DefaultScheme := "https"

  /** One entry of the decoded ERRORARRAY. */
  datatype ErrorEntry = ErrorEntry(code: int, message: string)

  /** A decoded response body: its ERRORARRAY (nil when the key is absent)
      and the rest of its entries. */
  datatype Json = Json(errorArray: Option<seq<ErrorEntry>>, fields: Hash)

  /** The body of a response: as received, or after decoding. */
  datatype Body = Raw(text: string) | Decoded(json: Json)

  /** Errors `request` raises: `Linode::NotFound`, `Linode::Error`, and
      Ruby's NoMethodError for `nil.first`. */
  datatype Failure = NotFound(message: string) | Error(message: string) | NoMethodError(name: string)

  /** The error the first ERRORARRAY entry stands for, if any: code 5 is
      NotFound, any other code a generic Error, each with the entry's message. */
  function Classify(errors: seq<ErrorEntry>): (r: Option<Failure>)
    ensures r.None? <==> errors == []
    ensures r.Some? ==> !r.value.NoMethodError? && r.value.message == errors[0].message
    ensures r.Some? ==> (r.value.NotFound? <==> errors[0].code == NotFoundCode)
  {
    if errors == [] then None
    else if errors[0].code == NotFoundCode then Some(NotFound(errors[0].message))
    else Some(Error(errors[0].message))
  }

  /** Only the first entry of ERRORARRAY decides. */
  lemma ClassifyFirstOnly(e: ErrorEntry, rest1: seq<ErrorEntry>, rest2: seq<ErrorEntry>)
    ensures Classify([e] + rest1) == Classify([e] + rest2)
  {
  }

  /** The query the request sends: the caller's query (or an empty one) with
      `api_key` set to the instance's key. */
  function WithApiKey(query: Option<Hash>, key: string): (q: Hash)
    ensures ApiKeyParam in q && q[ApiKeyParam] == Text(key)
    ensures q.Keys == {ApiKeyParam} + (if query.Some? then query.value.Keys else {})
    ensures query.Some? ==> forall n | n in query.value && n != ApiKeyParam :: q[n] == query.value[n]
  {
    (if query.Some? then query.value else map[])[ApiKeyParam := Text(key)]
  }

  /** What the transport receives. */
  datatype Sent = Sent(query: Hash, host: string, others: Hash)

  /** The post-processing of the transport's response: an empty body is
      kept as received; otherwise the body is decoded and the first
      ERRORARRAY entry, if any, is raised. */
  function Finish(raw: Envelope<string>, decode: string -> Json): (r: Result<Envelope<Body>, Failure>)
    ensures raw.body == [] ==> r == Ok(Envelope(raw.status, raw.headers, Raw(raw.body)))
    ensures raw.body != [] ==>
              var json := decode(raw.body);
              && (r.Ok? <==> json.errorArray == Some([]))
              && (r.Ok? ==> r.value == Envelope(raw.status, raw.headers, Decoded(json)))
              && (json.errorArray.None? ==> r == Err(NoMethodError("first")))
              && (json.errorArray.Some? && r.Err? ==> Classify(json.errorArray.value) == Some(r.error))
  {
    if raw.body == [] then
      Ok(Envelope(raw.status, raw.headers, Raw(raw.body)))
    else
      var json := decode(raw.body);
      match json.errorArray
      case None => Err(NoMethodError("first"))
      case Some(errors) =>
        match Classify(errors)
        case Some(e) => Err(e)
        case None => Ok(Envelope(raw.status, raw.headers, Decoded(json)))
  }

  /** Constructor options; absent entries are nil. */
  datatype Options = Options(linodeApiKey: string, host: Option<string>, port: Option<int>, scheme: Option<string>)

  /** The parameters hash a request method passes in; `request` updates it
      in place. `others` holds the entries it does not touch (method, path,
      expects, ...). */
  class Params {
    var query: Option<Hash>
    var host: Option<string>
    var others: Hash

    constructor (query: Option<Hash>, host: Option<string>, others: Hash)
      ensures this.query == query && this.host == host && this.others == others
    {
      this.query := query;
      this.host := host;
      this.others := others;
    }
  }

  /** A service instance talking to the Linode API. */
  class Real {
    const apiKey: string
    const host: string
    const port: int
    const scheme: string

    constructor (options: Options)
      ensures apiKey == options.linodeApiKey
      ensures host == if options.host.Some? then options.host.value else DefaultHost
      ensures port == if options.port.Some? then options.port.value else DefaultPort
      ensures scheme == if options.scheme.Some? then options.scheme.value else DefaultScheme
    {
      apiKey := options.linodeApiKey;
      host := if options.host.Some? then options.host.value else DefaultHost;
      port := if options.port.Some? then options.port.value else DefaultPort;
      scheme := if options.scheme.Some? then options.scheme.value else DefaultScheme;
    }

    /** `request`: `connection` stands for the transport and `decode` for
        the JSON decoder. */
    method Request(params: Params, connection: Sent -> Envelope<string>, decode: string -> Json)
      returns (r: Result<Response<Body>, Failure>)
      modifies params
      ensures params.query == Some(WithApiKey(old(params.query), apiKey))
      ensures params.host == Some(host) && params.others == old(params.others)
      ensures r.Ok? ==> fresh(r.value)
      ensures ViewOf(r) == Finish(connection(Sent(WithApiKey(old(params.query), apiKey), host, old(params.others))), decode)
    {
      if params.query.None? {
        params.query := Some(map[]);
      }
      params.query := Some(params.query.value[ApiKeyParam := Text(apiKey)]);
      params.host := Some(host);
      var raw := connection(Sent(params.query.value, host, params.others));
      var response := new Response(raw.status, raw.headers, Raw(raw.body));
      if raw.body != [] {
        var json := decode(raw.body);
        response.body := Decoded(json);
        if json.errorArray.None? {
          return Err(NoMethodError("first"));
        }
        var error := Classify(json.errorArray.value);
        if error.Some? {
          return Err(error.value);
        }
      }
      return Ok(response);
    }
  }
}
