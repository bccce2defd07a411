/**
 * The HTTP adapter over the secret store: how `secretHandler` turns a
 * request into store calls and a status code with a body.
 *
 * A request is reduced to what the handlers inspect: the method, the
 * `Content-Type` header, the result of decoding the body as
 * `{"plain_text": ...}` and the URL path. Writes to the response writer
 * become a returned `Response`; the store call is the store's specification
 * function, so a handler maps (request, file contents, I/O outcomes) to
 * (response, new file contents).
 */
module Server {
  import opened Ids
  import opened Secrets

  const CtypeJSON := "application/json"

  /** The literal body `sendSecretNotFound` prints (Fprintln adds the newline). */
  const NotFoundBody := "{\"data\":\"\"}\n"

  /**
   * The body decoded as `postInput`. A missing or null `plain_text` decodes
   * to "", as Go leaves the field at its zero value.
   */
  datatype PostBody = BadJson(err: string) | PostInput(plainText: string)

  datatype Request = Request(verb: string, contentType: string, body: PostBody, path: string)

  /**
   * What is written after the status line: nothing, literal text, or a JSON
   * object with one string field as `json.Encoder` writes it.
   */
  datatype Payload = NoBody | Text(text: string) | JsonField(key: string, value: string)

  /** A status and a payload, or no response at all because the handler panicked. */
  datatype Response = Reply(status: int, payload: Payload) | Dropped

  datatype Exchange = Exchange(response: Response, secrets: SecretsMap)

  /** `contentTypeIs`: compares against application/json whatever `expected` is. */
  function ContentTypeIs(contentType: string, expected: string): (r: bool)
    ensures r <==> contentType == CtypeJSON
  {
    contentType == CtypeJSON
  }

  /** The verdict of `contentTypeIs` does not depend on the header it is asked to expect. */
  lemma ContentTypeIgnoresExpected(contentType: string, expected: string, other: string)
    ensures ContentTypeIs(contentType, expected) == ContentTypeIs(contentType, other)
  {
  }

  /** `sendError`: the status, then the message behind a prefix chosen by the status class. */
  function SendError(status: int, msg: string): (r: Response)
    ensures r.Reply? && r.status == status
    ensures r.payload == NoBody <==> msg == ""
    ensures msg != "" && status >= 500 ==> r.payload == Text("Server Error: " + msg)
    ensures msg != "" && 400 <= status < 500 ==> r.payload == Text("Bad Request: " + msg)
    ensures msg != "" && status < 400 ==> r.payload == Text(msg)
  {
    if msg == "" then Reply(status, NoBody)
    else
    if status >= 500 then Reply(status, Text("Server Error: " + msg))
    else if status >= 400 then Reply(status, Text("Bad Request: " + msg))
    else Reply(status, Text(msg))
  }

  /** `badRequest`: status 400, the message behind `Bad Request: `. */
  function BadRequest(msg: string): (r: Response)
    ensures r == Reply(400, if msg == "" then NoBody else Text("Bad Request: " + msg))
  {
    SendError(400, msg)
  }

  /** `serverError`: status 500, the message behind `Server Error: `. */
  function ServerError(msg: string): (r: Response)
    ensures r == Reply(500, if msg == "" then NoBody else Text("Server Error: " + msg))
  {
    SendError(500, msg)
  }

  /** `sendSecretNotFound`: status 404 with the body `{"data":""}`. */
  function SecretNotFound(): (r: Response)
    ensures r.Reply? && r.status == 404 && r.payload == Text("{\"data\":\"\"}\n")
  {
    Reply(404, Text(NotFoundBody))
  }

  /** A POST that passes every check before the store is called. */
  predicate ValidPost(req: Request) {
    req.contentType == CtypeJSON && req.body.PostInput? && req.body.plainText != ""
  }

  /** `postSecretHandler`. */
  function PostSecretHandler(req: Request, m: SecretsMap, io: Io, md5: string -> Digest): (x: Exchange)
    // rejected requests never reach the store
    ensures !ValidPost(req) ==> x.secrets == m && x.response.Reply? && x.response.status == 400
    ensures req.contentType != CtypeJSON ==>
              x == Exchange(BadRequest("Content-Type must be application/json"), m)
    ensures req.contentType == CtypeJSON && req.body.BadJson? ==>
              x == Exchange(BadRequest(req.body.err), m)
    ensures req.contentType == CtypeJSON && req.body == PostInput("") ==>
              x == Exchange(BadRequest("plain_text value is empty"), m)
    // a valid request: 200 with the id iff the save succeeds, 500 on an I/O error
    ensures ValidPost(req) ==>
              (x.response.Reply? && x.response.status == 200 <==> io == AllOk)
    ensures ValidPost(req) && io == AllOk ==>
              var id := SecretId(md5, req.body.plainText);
              x == Exchange(Reply(200, JsonField("id", id)), m[id := req.body.plainText])
    ensures ValidPost(req) && io != AllOk ==> x.secrets == m
    ensures ValidPost(req) && io.read.ReadFails? ==> x.response == ServerError(io.read.msg)
    ensures ValidPost(req) && io.read == ReadOk && io.write.WriteFails? ==>
              x == Exchange(ServerError(io.write.msg), m)
    ensures x.response == Dropped <==> ValidPost(req) && io.read == Undecodable
  {
    if !ContentTypeIs(req.contentType, CtypeJSON) then
      Exchange(BadRequest("Content-Type must be application/json"), m)
    else
      match req.body
      case BadJson(err) => Exchange(BadRequest(err), m)
      case PostInput(plainText) =>
        if plainText == "" then Exchange(BadRequest("plain_text value is empty"), m)
        else
          var saved := SaveEffect(m, plainText, io, md5);
          match saved.outcome
          case Panic => Exchange(Dropped, saved.secrets)
          case Err(msg) => Exchange(ServerError(msg), saved.secrets)
          case Ok => Exchange(Reply(200, JsonField("id", saved.id)), saved.secrets)
  }

  /** `getSecretHandler`: the id is the path without its leading '/'. */
  function GetSecretHandler(req: Request, m: SecretsMap, io: Io): (x: Exchange)
    // slicing an empty path panics
    ensures req.path == "" ==> x == Exchange(Dropped, m)
    ensures req.path != "" ==> x.response.Reply?
    ensures req.path != "" && req.path[1..] == "" ==> x == Exchange(SecretNotFound(), m)
    // 200 exactly when a live secret is handed out and its deletion is written
    ensures x.response.Reply? && x.response.status == 200 <==>
              req.path != "" && req.path[1..] != "" && Live(m, req.path[1..]) && io == AllOk
    ensures x.response.Reply? && x.response.status == 200 ==>
              var id := req.path[1..];
              x == Exchange(Reply(200, JsonField("data", m[id])), m - {id})
    ensures !(x.response.Reply? && x.response.status == 200) ==> x.secrets == m
    // 500 on a read error, or on a failed rewrite after finding a live secret
    ensures req.path != "" && req.path[1..] != "" && io.read.ReadFails? ==>
              x.response == ServerError(io.read.msg)
    ensures req.path != "" && req.path[1..] != "" && Live(m, req.path[1..]) &&
            io.read == ReadOk && io.write.WriteFails? ==>
              x.response == ServerError(io.write.msg)
    // an undecodable file reads as a nil map: 404 for every id
    ensures req.path != "" && req.path[1..] != "" && io.read == Undecodable ==>
              x == Exchange(SecretNotFound(), m)
    // a missing or empty secret is 404 {"data":""}
    ensures req.path != "" && !Live(m, req.path[1..]) && !io.read.ReadFails? ==>
              x == Exchange(SecretNotFound(), m)
  {
    if req.path == [] then Exchange(Dropped, m)
    else
      var id := req.path[1..];
      if id == "" then Exchange(SecretNotFound(), m)
      else
        var loaded := LoadEffect(m, id, io);
        if loaded.outcome.Err? then Exchange(ServerError(loaded.outcome.msg), loaded.secrets)
        else if loaded.value == "" then Exchange(SecretNotFound(), loaded.secrets)
        else Exchange(Reply(200, JsonField("data", loaded.value)), loaded.secrets)
  }

  /** `secretHandler`: dispatch on the method; anything but GET or POST is 405. */
  function SecretHandler(req: Request, m: SecretsMap, io: Io, md5: string -> Digest): (x: Exchange)
    ensures req.verb != "GET" && req.verb != "POST" ==> x == Exchange(Reply(405, NoBody), m)
    // the file changes only by a successful save (POST) or a hand-out (GET)
    ensures x.secrets != m ==> x.response.Reply? && x.response.status == 200
    ensures req.verb == "GET" ==> x == GetSecretHandler(req, m, io)
    ensures req.verb == "POST" ==> x == PostSecretHandler(req, m, io, md5)
  {
    match req.verb
    case "GET" => GetSecretHandler(req, m, io)
    case "POST" => PostSecretHandler(req, m, io, md5)
    case _ => Exchange(Reply(405, NoBody), m)
  }

  // ---------------------------------------------------------------------
  // The adapter against the store model

  /** A GET answers 200 exactly when the store call is a hand-out, and shows only that value. */
  lemma GetShowsOnlyHandedOutValues(req: Request, m: SecretsMap, io: Io, md5: string -> Digest)
    requires req.verb == "GET" && req.path != "" && req.path[1..] != ""
    ensures var x := SecretHandler(req, m, io, md5);
            var id := req.path[1..];
            (x.response.Reply? && x.response.status == 200 <==> Reveals(m, LoadCall(id, io), id)) &&
            (x.response.Reply? && x.response.payload.JsonField? ==>
               x.response.payload == JsonField("data", LoadEffect(m, id, io).value))
  {
  }

  /** A failed rewrite after a lookup returns 500 and the secret stays stored. */
  lemma FailedDeleteKeepsSecret(req: Request, m: SecretsMap, msg: string, md5: string -> Digest)
    requires req.verb == "GET" && req.path != "" && req.path[1..] != "" && Live(m, req.path[1..])
    ensures var x := SecretHandler(req, m, Io(ReadOk, WriteFails(msg)), md5);
            x.response == ServerError(msg) && x.secrets == m
  {
  }

  /** End to end: POST a secret, GET it once (200 with the plaintext), GET it again (404). */
  lemma PostThenGetTwice(m: SecretsMap, plainText: string, md5: string -> Digest, second: Io)
    requires plainText != ""
    ensures var post := SecretHandler(Request("POST", CtypeJSON, PostInput(plainText), "/"), m, AllOk, md5);
            var id := SecretId(md5, plainText);
            var get := Request("GET", "", BadJson(""), "/" + id);
            var first := SecretHandler(get, post.secrets, AllOk, md5);
            var again := SecretHandler(get, first.secrets, second, md5);
            post.response == Reply(200, JsonField("id", id)) &&
            first.response == Reply(200, JsonField("data", plainText)) &&
            first.secrets == m - {id} &&
            again.response.Reply? && again.response.status != 200 && again.secrets == first.secrets
  {
    var id := SecretId(md5, plainText);
    var path := "/" + id;
    assert path[1..] == id;
    assert (m[id := plainText]) - {id} == m - {id};
  }

  // ---------------------------------------------------------------------
  // Serialized request histories

  /** One request together with the I/O outcomes its store call sees. */
  datatype Arrival = Arrival(req: Request, io: Io)

  function Serve(m: SecretsMap, arrivals: seq<Arrival>, md5: string -> Digest): SecretsMap
    decreases |arrivals|
  {
    if arrivals == [] then m
    else Serve(SecretHandler(arrivals[0].req, m, arrivals[0].io, md5).secrets, arrivals[1..], md5)
  }

  /** The arrival is a GET of `/id` answered 200. */
  predicate Served(m: SecretsMap, a: Arrival, id: string, md5: string -> Digest) {
    a.req.verb == "GET" && a.req.path != "" && a.req.path[1..] == id &&
    var x := SecretHandler(a.req, m, a.io, md5);
    x.response.Reply? && x.response.status == 200
  }

  /** The arrival is a valid POST whose save under `id` succeeds. */
  predicate Posted(a: Arrival, id: string, md5: string -> Digest) {
    a.req.verb == "POST" && ValidPost(a.req) && a.io == AllOk &&
    SecretId(md5, a.req.body.plainText) == id
  }

  function ServedCount(m: SecretsMap, arrivals: seq<Arrival>, id: string, md5: string -> Digest): nat
    decreases |arrivals|
  {
    if arrivals == [] then 0
    else Indicator(Served(m, arrivals[0], id, md5)) +
         ServedCount(SecretHandler(arrivals[0].req, m, arrivals[0].io, md5).secrets, arrivals[1..], id, md5)
  }

  function PostedCount(arrivals: seq<Arrival>, id: string, md5: string -> Digest): nat
    decreases |arrivals|
  {
    if arrivals == [] then 0
    else Indicator(Posted(arrivals[0], id, md5)) + PostedCount(arrivals[1..], id, md5)
  }

  lemma ServeStepAccounting(m: SecretsMap, a: Arrival, id: string, md5: string -> Digest)
    ensures var after := SecretHandler(a.req, m, a.io, md5).secrets;
            Indicator(Served(m, a, id, md5)) + Indicator(Live(after, id))
            <= Indicator(Live(m, id)) + Indicator(Posted(a, id, md5))
  {
    var x := SecretHandler(a.req, m, a.io, md5);
    if a.req.verb == "GET" && a.req.path != "" && a.req.path[1..] != id {
      assert Live(x.secrets, id) == Live(m, id);
    }
    if a.req.verb == "POST" && ValidPost(a.req) && a.io == AllOk &&
       SecretId(md5, a.req.body.plainText) != id {
      assert Live(x.secrets, id) == Live(m, id);
    }
  }

  /**
   * Over any serialized history of requests, the 200 answers to `GET /id`
   * plus the entry still live at the end never exceed the entry live at the
   * start plus the successful POSTs whose plaintext hashes to `id`.
   */
  lemma {:induction false} ServedBoundedByPosted(m: SecretsMap, arrivals: seq<Arrival>, id: string, md5: string -> Digest)
    ensures ServedCount(m, arrivals, id, md5) + Indicator(Live(Serve(m, arrivals, md5), id))
            <= Indicator(Live(m, id)) + PostedCount(arrivals, id, md5)
    decreases |arrivals|
  {
    if arrivals != [] {
      ServeStepAccounting(m, arrivals[0], id, md5);
      ServedBoundedByPosted(SecretHandler(arrivals[0].req, m, arrivals[0].io, md5).secrets, arrivals[1..], id, md5);
    }
  }
}
