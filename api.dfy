/**
 * The two request handlers of api/api.go over the shared code store.
 *
 * The store is the `map[string]string` that the handlers close over and mutate
 * in place; here it is the `db` field of a Store object. Everything a handler
 * writes to its `http.ResponseWriter` is returned as a Reply value, in the order
 * it is written. The outcomes of JSON decoding and of `url.Parse` come in as a
 * PostRequest; the random draws for the code come in as a sequence.
 */
module Api {
  import opened CodeGen

  // HTTP status codes the handlers use (Go's net/http constants).
  const StatusCreated: int := 201
  const StatusPermanentRedirect: int := 308
  const StatusBadRequest: int := 400
  const StatusNotFound: int := 404
  const StatusUnprocessableEntity: int := 422

  // Messages the handlers write.
  const InvalidBody: string := "invalid body"
  const InvalidUrl: string := "invalid url passed"
  const UrlNotFound: string := "url não encontrada"

  datatype Option<T> = None | Some(value: T)

  /**
   * The JSON envelope `Response{Error, Data}`. Both fields are `omitempty`: an
   * empty `error` and an absent `data` are left out of the JSON object.
   */
  datatype Response = Response(error: string, data: Option<string>)

  /** What a handler writes to its response writer. */
  datatype Reply =
    | Json(status: int, body: Response)     // sendJSON(w, body, status)
    | PlainError(status: int, text: string) // http.Error(w, text, status)
    | Redirect(status: int, target: string)   // http.Redirect(w, r, target, status)

  /**
   * The request body as seen by handlePost: whether `json.Decode` into
   * PostBody succeeded, the `URL` field it left in the body, and whether
   * `url.Parse` accepted that field.
   */
  datatype PostRequest = PostRequest(decodeOk: bool, url: string, parseOk: bool)

  function InvalidBodyReply(): Reply { Json(StatusUnprocessableEntity, Response(InvalidBody, None)) }
  function InvalidUrlReply(): Reply { Json(StatusBadRequest, Response(InvalidUrl, None)) }
  function CreatedReply(code: string): Reply { Json(StatusCreated, Response("", Some(code))) }

  /** A reply that reports a client error. */
  predicate IsClientError(r: Reply) { 400 <= r.status < 500 }

  /** The envelope carries an error or a payload, never both and never neither. */
  predicate OneField(r: Reply) {
    r.Json? ==> (r.body.error != "" <==> r.body.data.None?)
  }

  /**
   * The replies handlePost writes, as the code stands: neither validation
   * branch returns, so each failed check writes its error and execution goes on
   * to the 201 reply carrying the new code.
   */
  function PostReplies(req: PostRequest, code: string): (written: seq<Reply>)
    ensures |written| == 1 + (if req.decodeOk then 0 else 1) + (if req.parseOk then 0 else 1)
    ensures written[|written| - 1] == CreatedReply(code)
    ensures |written| == 1 <==> req.decodeOk && req.parseOk
    ensures InvalidBodyReply() in written <==> !req.decodeOk
    ensures InvalidUrlReply() in written <==> !req.parseOk
    ensures !req.decodeOk ==> written[0] == InvalidBodyReply()
    ensures forall i :: 0 <= i < |written| - 1 ==> IsClientError(written[i])
    ensures forall i :: 0 <= i < |written| ==> OneField(written[i])
  {
    (if req.decodeOk then [] else [InvalidBodyReply()])
      + (if req.parseOk then [] else [InvalidUrlReply()])
      + [CreatedReply(code)]
  }

  /**
   * The reply of the early-return handler: the first failed check's error, or
   * 201 with the code when both checks pass.
   */
  function CheckedReply(req: PostRequest, code: string): (r: Reply)
    ensures r.status == StatusCreated <==> req.decodeOk && req.parseOk
    ensures !req.decodeOk ==> r == InvalidBodyReply()
    ensures req.decodeOk && !req.parseOk ==> r == InvalidUrlReply()
    ensures req.decodeOk && req.parseOk ==> r == CreatedReply(code)
    ensures OneField(r)
  {
    if !req.decodeOk then InvalidBodyReply()
    else if !req.parseOk then InvalidUrlReply()
    else CreatedReply(code)
  }

  /**
   * Finding: a body that fails to decode is answered with 422 and then with 201,
   * and its URL field is stored under the new code.
   */
  lemma InvalidBodyStillCreates(code: string)
    ensures PostReplies(PostRequest(false, "", true), code)
         == [InvalidBodyReply(), CreatedReply(code)]
  {
  }

  /** Finding: a URL that fails to parse is answered with 400 and then with 201. */
  lemma InvalidUrlStillCreates(url: string, code: string)
    ensures PostReplies(PostRequest(true, url, false), code)
         == [InvalidUrlReply(), CreatedReply(code)]
  {
  }

  /**
   * A body that decodes but has no `url` field (such as `{}`) leaves the URL
   * empty without a decoding error, and `url.Parse` accepts the empty string:
   * the request passes both checks and gets one 201 reply.
   */
  lemma MissingUrlStored(code: string)
    ensures PostReplies(PostRequest(true, "", true), code) == [CreatedReply(code)]
    ensures CheckedReply(PostRequest(true, "", true), code) == CreatedReply(code)
  {
  }

  /**
   * The early-return handler's single reply is the first reply the
   * fall-through handler writes, and the two handlers write the same replies
   * exactly when the request is valid.
   */
  lemma CheckedAgreesOnFirstReply(req: PostRequest, code: string)
    ensures CheckedReply(req, code) == PostReplies(req, code)[0]
    ensures [CheckedReply(req, code)] == PostReplies(req, code) <==> req.decodeOk && req.parseOk
  {
  }

  /** The code store shared by the two handlers. */
  class Store {
    var db: map<string, string>

    /** Every key was produced by the code generator. */
    ghost predicate Valid()
      reads this
    {
      forall k :: k in db ==> IsCode(k)
    }

    /** The store as the process creates it: empty. */
    constructor ()
      ensures Valid() && db == map[]
    {
      db := map[];
    }

    /**
     * handleGet: look the code up; a hit redirects permanently to the stored
     * URL, a miss is a 404 with the plain-text message. As a function it
     * cannot change the store.
     */
    function Resolve(code: string): (r: Reply)
      reads this
      ensures r.Redirect? <==> code in db
      ensures code in db ==> r == Redirect(StatusPermanentRedirect, db[code])
      ensures code !in db ==> r == PlainError(StatusNotFound, UrlNotFound)
    {
      if code in db then Redirect(StatusPermanentRedirect, db[code])
      else PlainError(StatusNotFound, UrlNotFound)
    }

    /**
     * handlePost as written: whatever the validation outcome, generate a code,
     * store the URL field under it (overwriting any entry already there) and
     * reply 201, after the error replies of the failed checks.
     */
    method Create(req: PostRequest, draws: seq<int>) returns (code: string, written: seq<Reply>)
      requires ValidDraws(draws)
      modifies this
      ensures code == CodeOf(draws)
      ensures db == old(db)[code := req.url]
      ensures written == PostReplies(req, code)
      ensures old(Valid()) ==> Valid()
      ensures Resolve(code) == Redirect(StatusPermanentRedirect, req.url)
      ensures forall k :: k != code ==> Resolve(k) == old(Resolve(k))
    {
      written := [];
      if !req.decodeOk {
        written := written + [InvalidBodyReply()];
      }
      if !req.parseOk {
        written := written + [InvalidUrlReply()];
      }
      code := GenCode(draws);
      db := db[code := req.url];
      written := written + [CreatedReply(code)];
    }

    /**
     * handlePost with a return right after each error reply: one reply per
     * request, and a request that fails a check leaves the store unchanged and
     * consumes no draws. The checks themselves are those of the code, so a
     * missing `url` field still passes them.
     */
    method CreateChecked(req: PostRequest, draws: seq<int>) returns (reply: Reply)
      requires ValidDraws(draws)
      modifies this
      ensures reply == CheckedReply(req, CodeOf(draws))
      ensures req.decodeOk && req.parseOk ==> db == old(db)[CodeOf(draws) := req.url]
      ensures !(req.decodeOk && req.parseOk) ==> db == old(db)
      ensures old(Valid()) ==> Valid()
      ensures reply.status == StatusCreated ==>
                Resolve(reply.body.data.value) == Redirect(StatusPermanentRedirect, req.url)
    {
      if !req.decodeOk {
        reply := InvalidBodyReply();
        return;
      }
      if !req.parseOk {
        reply := InvalidUrlReply();
        return;
      }
      var code := GenCode(draws);
      db := db[code := req.url];
      reply := CreatedReply(code);
    }
  }

  /**
   * Finding, at the store: a body that is not JSON leaves the URL field empty,
   * which `url.Parse` accepts; the handler replies 422 and then 201, and the
   * new code resolves to the empty URL.
   */
  method NotJsonBodyIsStored(s: Store, draws: seq<int>) returns (code: string, written: seq<Reply>)
    requires ValidDraws(draws)
    modifies s
    ensures written == [InvalidBodyReply(), CreatedReply(code)]
    ensures s.Resolve(code) == Redirect(StatusPermanentRedirect, "")
  {
    code, written := s.Create(PostRequest(false, "", true), draws);
  }

  /**
   * At the store: a body without a `url` field is stored under the new code as
   * the empty URL, with a single 201 reply.
   */
  method MissingUrlIsStored(s: Store, draws: seq<int>) returns (code: string, written: seq<Reply>)
    requires ValidDraws(draws)
    modifies s
    ensures written == [CreatedReply(code)]
    ensures s.Resolve(code) == Redirect(StatusPermanentRedirect, "")
  {
    code, written := s.Create(PostRequest(true, "", true), draws);
  }

  /**
   * In a store that only ever received generated codes, a string that is not
   * an 8-character code over the alphabet (such as a longer path) is not found.
   */
  lemma NonCodeNotFound(s: Store, key: string)
    requires s.Valid()
    requires !IsCode(key)
    ensures s.Resolve(key) == PlainError(StatusNotFound, UrlNotFound)
  {
  }

  /**
   * Two creates whose draws coincide get the same code, and the second URL
   * replaces the first: the store makes no collision check.
   */
  method CollisionOverwrites(s: Store, first: PostRequest, second: PostRequest, draws: seq<int>)
      returns (code1: string, code2: string)
    requires ValidDraws(draws)
    modifies s
    ensures code1 == code2
    ensures s.Resolve(code1) == Redirect(StatusPermanentRedirect, second.url)
  {
    var w1, w2;
    code1, w1 := s.Create(first, draws);
    code2, w2 := s.Create(second, draws);
  }

  /**
   * Creates with different draws get different codes, so a later create leaves
   * an earlier code resolving to its own URL.
   */
  method CreateThenCreate(s: Store, first: PostRequest, second: PostRequest, d1: seq<int>, d2: seq<int>)
      returns (code1: string, code2: string)
    requires ValidDraws(d1) && ValidDraws(d2) && d1 != d2
    modifies s
    ensures code1 != code2
    ensures s.Resolve(code1) == Redirect(StatusPermanentRedirect, first.url)
    ensures s.Resolve(code2) == Redirect(StatusPermanentRedirect, second.url)
  {
    var w1, w2;
    code1, w1 := s.Create(first, d1);
    code2, w2 := s.Create(second, d2);
    CodeOfInjective(d1, d2);
  }
}
