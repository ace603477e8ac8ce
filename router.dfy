/**
 * The request handler: `isAuthorized` and the dispatch between starting an
 * upload, looking a path up in the store, and `404`; the server object that
 * ties the validated options, the store and the sessions together; and the
 * properties that span them (round trip, the secret path is never served).
 */
module Router {
  import opened Common
  import opened Http
  import Hex
  import ObjectStore
  import Ingest
  import Config
  import opened Js

  datatype Route = Upload | Fetch | Reject

  /** `isAuthorized`: exactly a POST whose url is `/` followed by the whole secret. */
  predicate IsAuthorized(verb: string, url: string, secret: string): (b: bool)
    ensures b <==> verb == "POST" && |url| == |secret| + 1 && url[0] == '/' && url[1..] == secret
  {
    verb == "POST" && url == "/" + secret
  }

  /**
   * How a request is handled. Only an authorized POST uploads; every other
   * GET, including one of `/<secret>`, is a lookup; everything else is 404.
   */
  function Classify(verb: string, url: string, secret: string): (r: Route)
    ensures r == Upload <==> verb == "POST" && url == "/" + secret
    ensures r == Fetch <==> verb == "GET"
    ensures r == Reject <==> verb != "GET" && (verb != "POST" || url != "/" + secret)
  {
    if IsAuthorized(verb, url, secret) then Upload
    else if verb != "GET" then Reject
    else Fetch
  }

  /** The answer to a lookup, given what the store holds under the url. */
  function LookupResponse(found: Option<Bytes>): (r: Response)
    ensures r.status == 200 <==> found.Some?
    ensures found.Some? ==> r.body == Raw(found.value)
    ensures found.None? ==> r == NotFound
  {
    match found
    case None => NotFound
    case Some(bytes) => Found(bytes)
  }

  /** The path an upload is stored under: `/` and a key. */
  predicate IsKeyPath(p: string)
  {
    |p| == 13 && p[0] == '/' && Hex.IsKey(p[1..])
  }

  /** Every key in the store is an upload path: the server stores nothing else. */
  predicate AllKeyPaths(es: seq<ObjectStore.Entry>)
  {
    forall k :: k in ObjectStore.Keys(es) ==> IsKeyPath(k)
  }

  lemma KeyPathOfKey(kb: Hex.KeyBytes)
    ensures IsKeyPath("/" + Hex.Key(kb))
  {
    assert ("/" + Hex.Key(kb))[1..] == Hex.Key(kb);
  }

  /** Storing a finished upload keeps every stored key an upload path. */
  lemma KeyPathsKeptByPut(es: seq<ObjectStore.Entry>, kb: Hex.KeyBytes, v: Bytes, max: nat)
    requires AllKeyPaths(es) && ObjectStore.Distinct(es) && |es| <= max && 1 <= max
    ensures AllKeyPaths(ObjectStore.Put(es, "/" + Hex.Key(kb), v, max))
  {
    ObjectStore.PutShape(es, "/" + Hex.Key(kb), v, max);
    KeyPathOfKey(kb);
  }

  /**
   * A GET of `/<secret>` answers 404 whenever the secret is not itself
   * shaped like a key: the secret path is never served.
   */
  lemma SecretNeverServed(es: seq<ObjectStore.Entry>, secret: string)
    requires AllKeyPaths(es) && !Hex.IsKey(secret)
    ensures Classify("GET", "/" + secret, secret) == Fetch
    ensures LookupResponse(ObjectStore.Lookup(es, "/" + secret)) == NotFound
  {
    assert ("/" + secret)[1..] == secret;
  }

  /**
   * Round trip: chunks within `maxSize` followed by the end of the stream
   * answer 200 with the key, and a GET of `/<key>` right after the store
   * update answers 200 with the chunks' bytes in order.
   */
  lemma UploadThenFetch(maxSize: int, chunks: seq<Bytes>, kb: Hex.KeyBytes,
                        es: seq<ObjectStore.Entry>, max: nat, secret: string)
    requires TotalLength(chunks) <= maxSize
    requires ObjectStore.Distinct(es) && |es| <= max && 1 <= max
    ensures Ingest.Run(Ingest.Initial, maxSize, Ingest.Datas(chunks) + [Ingest.End(kb)]).outcomes
      == [Ingest.Completed(Hex.Key(kb), Concat(chunks))]
    ensures Ingest.ResponseOf(Ingest.Completed(Hex.Key(kb), Concat(chunks))) == Some(Uploaded(Hex.Key(kb)))
    ensures Classify("GET", "/" + Hex.Key(kb), secret) == Fetch
    ensures LookupResponse(ObjectStore.Lookup(ObjectStore.Put(es, "/" + Hex.Key(kb), Concat(chunks), max), "/" + Hex.Key(kb)))
      == Found(Concat(chunks))
  {
    Ingest.UploadCompletes(maxSize, chunks, kb);
    ObjectStore.PutShape(es, "/" + Hex.Key(kb), Concat(chunks), max);
  }

  /** How the handler disposed of a request. */
  datatype Handled = Started(session: Ingest.Session) | Replied(response: Response)

  /** The running server: its secret, its size limit and its store. */
  class Server {
    const secret: string
    const maxSize: int
    const store: ObjectStore.Store

    /** The store is well formed and holds nothing but uploads. */
    ghost predicate Valid()
      reads this, store
    {
      store.Valid() && AllKeyPaths(store.entries)
    }

    /** `createLRU({ max, maxAge })` and the handler, from validated options. */
    constructor (s: Config.Settings)
      requires 1.0 <= s.max
      ensures Valid() && fresh(store)
      ensures secret == s.secret && maxSize == s.maxSize
      ensures store.max == Config.Capacity(s) && store.entries == []
    {
      secret := s.secret;
      maxSize := s.maxSize;
      store := new ObjectStore.Store(Config.Capacity(s));
    }

    /** The request handler. */
    method Handle(verb: string, url: string) returns (h: Handled)
      requires Valid()
      modifies store
      ensures Valid()
      ensures h.Started? <==> Classify(verb, url, secret) == Upload
      ensures h.Started? ==>
        && fresh(h.session) && h.session.Valid()
        && h.session.State() == Ingest.Initial && h.session.response == None
        && h.session.store == store && h.session.maxSize == maxSize
        && store.entries == old(store.entries)
      ensures Classify(verb, url, secret) == Reject ==>
        h == Replied(NotFound) && store.entries == old(store.entries)
      ensures Classify(verb, url, secret) == Fetch ==>
        && h == Replied(LookupResponse(ObjectStore.Lookup(old(store.entries), url)))
        && store.entries == ObjectStore.Touch(old(store.entries), url)
      ensures verb != "POST" && url == "/" + secret && !Hex.IsKey(secret) ==> h == Replied(NotFound)
    {
      if verb == "GET" && url == "/" + secret && !Hex.IsKey(secret) {
        SecretNeverServed(store.entries, secret);
      }
      if IsAuthorized(verb, url, secret) {
        var session := new Ingest.Session(maxSize, store);
        h := Started(session);
      } else if verb != "GET" {
        h := Replied(NotFound);
      } else {
        var data := store.Get(url);
        if data.None? {
          h := Replied(NotFound);
        } else {
          h := Replied(Found(data.value));
        }
      }
    }
  }

  /**
   * Startup: invalid options reject with `EARG` before anything is built.
   * Startup runs the corrected checks, so a running server always has a
   * positive `maxSize`.
   */
  method Start(o: Config.Options) returns (r: Result<Server, Config.ConfigError>)
    ensures r.Err? <==> Config.ValidateIntended(o).Err?
    ensures r.Err? ==> r.error == Config.ValidateIntended(o).error
    ensures r.Ok? ==>
      && fresh(r.value) && fresh(r.value.store) && r.value.Valid()
      && r.value.secret == Config.ValidateIntended(o).value.secret
      && r.value.maxSize == Config.ValidateIntended(o).value.maxSize && 1 <= r.value.maxSize
      && r.value.store.max == Config.Capacity(Config.ValidateIntended(o).value)
      && r.value.store.entries == []
  {
    var v := Config.ValidateIntended(o);
    if v.Err? {
      return Err(v.error);
    }
    var server := new Server(v.value);
    r := Ok(server);
  }

  /** The bytes of `hello world`. */
  const HelloWorld: Bytes := [104, 101, 108, 108, 111, 32, 119, 111, 114, 108, 100]

  lemma ConcatSingle(b: Bytes)
    ensures Concat([b]) == b
  {
    assert [b][..0] == [];
  }

  /** A client posting one chunk to the secret path and then ending the stream. */
  method UploadChunk(server: Server, data: Bytes, kb: Hex.KeyBytes) returns (answer: Option<Response>)
    requires server.Valid() && |data| <= server.maxSize
    modifies server.store
    ensures server.Valid()
    ensures answer == Some(Uploaded(Hex.Key(kb)))
    ensures server.store.entries == ObjectStore.Put(old(server.store.entries), "/" + Hex.Key(kb), data, server.store.max)
  {
    KeyPathsKeptByPut(server.store.entries, kb, data, server.store.max);
    var h := server.Handle("POST", "/" + server.secret);
    h.session.OnData(data);
    ConcatSingle(data);
    h.session.OnEnd(kb);
    answer := h.session.response;
  }

  /** The server for the options `{ secret: 'abcd', max, maxSize, timeout }`, started. */
  method StartAbcd(max: real, maxSize: NumericValue, timeout: NumericValue) returns (server: Server)
    requires 1.0 <= max
    requires maxSize.Num? ==> 1.0 <= maxSize.n
    ensures fresh(server) && fresh(server.store) && server.Valid()
    ensures server.secret == "abcd" && server.store.entries == []
    ensures server.maxSize == if maxSize.Num? then maxSize.n.Floor else Config.DEFAULT_MAX_SIZE
    ensures server.store.max == max.Floor
  {
    var r := Start(Config.Options(Str("abcd"), Num(max), maxSize, timeout));
    if r.Err? {
      assert false;
    }
    server := r.value;
  }

  /** An upload of `hello world` answers with its key, and a GET of the key returns the bytes. */
  method BasicUpload(kb: Hex.KeyBytes) returns (answer: Option<Response>, fetched: Handled)
    ensures answer == Some(Uploaded(Hex.Key(kb)))
    ensures fetched == Replied(Found(HelloWorld))
  {
    var server := StartAbcd(1.0, Undefined, Undefined);
    answer := UploadChunk(server, HelloWorld, kb);
    ObjectStore.PutShape([], "/" + Hex.Key(kb), HelloWorld, 1);
    fetched := server.Handle("GET", "/" + Hex.Key(kb));
  }

  /** With `maxSize` 1, an eleven-byte upload answers 413 and stores nothing. */
  method UploadTooLarge(kb: Hex.KeyBytes) returns (answer: Option<Response>, stored: seq<ObjectStore.Entry>)
    ensures answer == Some(PayloadTooLarge)
    ensures stored == []
  {
    var server := StartAbcd(1.0, Num(1.0), Undefined);
    var h := server.Handle("POST", "/abcd");
    var session := h.session;
    session.OnData(HelloWorld);
    session.OnEnd(kb);
    answer := session.response;
    stored := server.store.entries;
  }

  /**
   * A client that writes and then stalls: the timer armed before the chunk
   * does nothing, the current one answers 408, and a late end stores nothing.
   */
  method UploadStalls(kb: Hex.KeyBytes)
    returns (afterStale: Option<Response>, stillListening: bool, answer: Option<Response>, stored: seq<ObjectStore.Entry>)
    ensures afterStale == None && stillListening
    ensures answer == Some(RequestTimeout)
    ensures stored == []
  {
    var server := StartAbcd(2.0, Undefined, Num(1.0));
    var h := server.Handle("POST", "/abcd");
    var session := h.session;
    session.OnData([109, 115, 103]);
    session.OnTimeout(0);
    afterStale, stillListening := session.response, session.listening;
    session.OnTimeout(session.timer);
    session.OnEnd(kb);
    answer := session.response;
    stored := server.store.entries;
  }

  /** With room for two, three uploads leave the last two fetchable and the first 404. */
  method MaxAmountRespected(ka: Hex.KeyBytes, kb: Hex.KeyBytes, kc: Hex.KeyBytes)
    returns (first: Handled, second: Handled, third: Handled)
    requires ka != kb && kb != kc && ka != kc
    ensures first == Replied(NotFound)
    ensures second == Replied(Found([116, 101, 115, 116, 45, 98]))
    ensures third == Replied(Found([116, 101, 115, 116, 45, 99]))
  {
    var a: Bytes := [116, 101, 115, 116, 45, 97];
    var b: Bytes := [116, 101, 115, 116, 45, 98];
    var c: Bytes := [116, 101, 115, 116, 45, 99];
    var pa, pb, pc := "/" + Hex.Key(ka), "/" + Hex.Key(kb), "/" + Hex.Key(kc);
    DistinctPaths(ka, kb, kc);
    var server := StartAbcd(2.0, Undefined, Undefined);
    var answerA := UploadChunk(server, a, ka);
    var answerB := UploadChunk(server, b, kb);
    var answerC := UploadChunk(server, c, kc);
    FetchAfterThree(pa, pb, pc, a, b, c);
    second := server.Handle("GET", pb);
    third := server.Handle("GET", pc);
    first := server.Handle("GET", pa);
  }

  lemma DistinctPaths(ka: Hex.KeyBytes, kb: Hex.KeyBytes, kc: Hex.KeyBytes)
    requires ka != kb && kb != kc && ka != kc
    ensures "/" + Hex.Key(ka) != "/" + Hex.Key(kb)
    ensures "/" + Hex.Key(kb) != "/" + Hex.Key(kc)
    ensures "/" + Hex.Key(ka) != "/" + Hex.Key(kc)
  {
    Hex.EncodeInjective(ka, kb);
    Hex.EncodeInjective(kb, kc);
    Hex.EncodeInjective(ka, kc);
    assert ("/" + Hex.Key(ka))[1..] == Hex.Key(ka);
    assert ("/" + Hex.Key(kb))[1..] == Hex.Key(kb);
    assert ("/" + Hex.Key(kc))[1..] == Hex.Key(kc);
  }

  /** After storing A, B, C with room for two, fetching B, then C, then A finds B and C and misses A. */
  lemma FetchAfterThree(pa: string, pb: string, pc: string, a: Bytes, b: Bytes, c: Bytes)
    requires pa != pb && pb != pc && pa != pc
    ensures var es := ObjectStore.Put(ObjectStore.Put(ObjectStore.Put([], pa, a, 2), pb, b, 2), pc, c, 2);
      && ObjectStore.Distinct(es)
      && ObjectStore.Lookup(es, pb) == Some(b)
      && ObjectStore.Lookup(ObjectStore.Touch(es, pb), pc) == Some(c)
      && ObjectStore.Lookup(ObjectStore.Touch(ObjectStore.Touch(es, pb), pc), pa) == None
  {
    var s1 := ObjectStore.Put([], pa, a, 2);
    ObjectStore.PutShape([], pa, a, 2);
    var s2 := ObjectStore.Put(s1, pb, b, 2);
    ObjectStore.PutShape(s1, pb, b, 2);
    var es := ObjectStore.Put(s2, pc, c, 2);
    ObjectStore.PutShape(s2, pc, c, 2);
    ObjectStore.KeepsNewestTwo(pa, pb, pc, a, b, c);
    ObjectStore.TouchShape(es, pb, pc);
    ObjectStore.TouchShape(es, pb, pa);
    ObjectStore.TouchShape(ObjectStore.Touch(es, pb), pc, pa);
  }
}
