/**
 * The access-token middleware (lib/utils/token-auth.js): an exposed route passes, any
 * other request needs an `access_token` query parameter naming a live stored token, and
 * the parameter is removed from the query before the handler sees it.
 */
module TokenAuth {
  import opened Wrappers
  import opened Values
  import opened Errors
  import opened AccessTokens
  import opened Models

  /**
   * The AccessToken model as the middleware reaches it: the adapter's `findById`, the
   * model's before- and after-hook queues, and how a stored token record reads as a
   * creation instant and a lifetime (`new Date(this.created)` and `this.ttl`).
   */
  datatype TokenStore = TokenStore(findById: AdapterFn, before: Queue, after: Queue, tokenOf: Value -> Token)

  /** The application as the middleware sees it: the adapter's optional `hasValidId` test and the token model. */
  datatype App = App(hasValidId: Option<Record -> bool>, store: TokenStore)

  /** The AccessToken model's instance methods (lib/models/AccessToken.js:3). */
  const TokenMethods: set<string> := {"isAlive"}

  /** `app.models.AccessToken.findById(tokenId)`: the hook-wrapped lookup, binding `isAlive`. */
  function FindToken(app: App, tokenId: Value): (r: Result<Value, Failure>)
    ensures r.Ok? ==> !r.value.Null? && !r.value.Undefined?
    ensures "find" !in app.store.before && "find" !in app.store.after ==>
      match app.store.findById([tokenId])
      case Err(e) => r == Err(e)
      case Ok(res) => r == ApplyInstanceMethods(TokenMethods, res)
  {
    assert ArgsAfterHooks(FindById, [tokenId], ContextFor("AccessToken", FindById, [tokenId])) == [tokenId];
    assert "find" !in app.store.before ==> ConcatOperationHooks(app.store.before, ["find"]) == [];
    assert "find" !in app.store.after ==> ConcatOperationHooks(app.store.after, ["find"]) == [];
    Invoke("AccessToken", FindById, [tokenId], app.store.findById, app.store.before, app.store.after, TokenMethods)
  }

  /** `isValidTokenFormat`: the adapter's id test on `{id: tokenId}`, true when it has none. */
  function IsValidTokenFormat(app: App, tokenId: Value): (r: bool)
    ensures app.hasValidId.None? ==> r
    ensures app.hasValidId.Some? ==> (r <==> app.hasValidId.value(map["id" := tokenId]))
  {
    match app.hasValidId
    case None => true
    case Some(test) => test(map["id" := tokenId])
  }

  /**
   * `isValidToken`: false without a truthy, well-formed id (the store is not asked);
   * otherwise `token ? token.isAlive() : false` on the lookup's result, and the lookup's
   * rejection when it fails.
   */
  function IsValidToken(app: App, tokenId: Value, nowMs: int): (r: Result<bool, Failure>)
    ensures !Truthy(tokenId) || !IsValidTokenFormat(app, tokenId) ==> r == Ok(false)
    ensures Truthy(tokenId) && IsValidTokenFormat(app, tokenId) ==>
      match FindToken(app, tokenId)
      case Err(e) => r == Err(e)
      case Ok(t) => r == Ok(Truthy(t) && IsAlive(app.store.tokenOf(t), nowMs))
  {
    if !Truthy(tokenId) || !IsValidTokenFormat(app, tokenId) then Ok(false)
    else match FindToken(app, tokenId)
      case Err(e) => Err(e)
      case Ok(token) => Ok(Truthy(token) && IsAlive(app.store.tokenOf(token), nowMs))
  }

  /** What the middleware does with a request: pass it on with this query, or fail it. */
  datatype Decision = Proceed(query: Record) | Deny(err: Failure)

  /**
   * `tokenMiddleWare`: an exposed route proceeds untouched; otherwise an invalid token
   * fails with 401, a failing lookup is forwarded, and a valid token proceeds with
   * `access_token` removed from the query.
   */
  function TokenMiddleware(app: App, exposed: Value, query: Record, nowMs: int): (r: Decision)
    ensures Truthy(exposed) ==> r == Proceed(query)
    ensures !Truthy(exposed) ==>
      match IsValidToken(app, Lookup(query, "access_token"), nowMs)
      case Err(e) => r == Deny(e)
      case Ok(valid) => r == if valid then Proceed(query - {"access_token"}) else Deny(UnauthorizedError(None))
  {
    if Truthy(exposed) then Proceed(query)
    else match IsValidToken(app, Lookup(query, "access_token"), nowMs)
      case Err(e) => Deny(e)
      case Ok(valid) => if valid then Proceed(query - {"access_token"}) else Deny(UnauthorizedError(None))
  }

  /**
   * A protected request proceeds exactly when it carries a truthy, well-formed token id
   * whose stored token is alive; then its query no longer has `access_token`.
   */
  lemma ProceedsOnlyWithLiveToken(app: App, query: Record, nowMs: int)
    ensures var r := TokenMiddleware(app, Bool(false), query, nowMs);
      var id := Lookup(query, "access_token");
      r.Proceed? <==>
        && Truthy(id) && IsValidTokenFormat(app, id)
        && FindToken(app, id).Ok? && Truthy(FindToken(app, id).value)
        && IsAlive(app.store.tokenOf(FindToken(app, id).value), nowMs)
    ensures var r := TokenMiddleware(app, Bool(false), query, nowMs);
      r.Proceed? ==> "access_token" !in r.query && forall k :: k in r.query ==> k in query && r.query[k] == query[k]
  {
  }

  /** Without a usable token id the store is never consulted: any two stores give 401. */
  lemma MalformedTokenNeverReachesStore(app1: App, app2: App, query: Record, nowMs: int)
    requires app1.hasValidId == app2.hasValidId
    requires var id := Lookup(query, "access_token"); !Truthy(id) || !IsValidTokenFormat(app1, id)
    ensures TokenMiddleware(app1, Bool(false), query, nowMs) == TokenMiddleware(app2, Bool(false), query, nowMs)
    ensures TokenMiddleware(app1, Bool(false), query, nowMs) == Deny(UnauthorizedError(None))
  {
  }

  /** A rejected request carries the 401 Unauthorized error or the store's own failure. */
  lemma DenialIsUnauthorizedOrLookupFailure(app: App, exposed: Value, query: Record, nowMs: int)
    requires TokenMiddleware(app, exposed, query, nowMs).Deny?
    ensures var e := TokenMiddleware(app, exposed, query, nowMs).err;
      e == UnauthorizedError(None) || FindToken(app, Lookup(query, "access_token")) == Err(e)
    ensures !Truthy(exposed)
  {
  }

  /**
   * An unknown token is not answered 401. Without find hooks, an adapter lookup that
   * finds nothing (`undefined` or `null`) makes binding `isAlive` throw a TypeError, and
   * the middleware forwards that error, which the error responder answers with 500.
   */
  lemma UnknownTokenIsLookupError(app: App, query: Record, nowMs: int)
    requires var id := Lookup(query, "access_token"); Truthy(id) && IsValidTokenFormat(app, id)
    requires "find" !in app.store.before && "find" !in app.store.after
    requires var found := app.store.findById([Lookup(query, "access_token")]); found == Ok(Null) || found == Ok(Undefined)
    ensures var r := TokenMiddleware(app, Bool(false), query, nowMs);
      && r.Deny? && r.err != UnauthorizedError(None)
      && FindToken(app, Lookup(query, "access_token")) == Err(r.err)
      && ClientErrorHandler(r.err).status == 500
  {
    var id := Lookup(query, "access_token");
    var ctx := ContextFor("AccessToken", FindById, [id]);
    assert ConcatOperationHooks(app.store.before, ["find"]) == [];
    assert ConcatOperationHooks(app.store.after, ["find"]) == [];
    assert ArgsAfterHooks(FindById, [id], ctx) == [id];
    NullishCannotTakeMethods(TokenMethods, app.store.findById([id]).value);
  }
}
