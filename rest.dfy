/**
 * The REST layer's decisions (lib/setup/rest.js): which routes the router gets and in
 * what order, the input clean-up, the 404 messages and each standard handler's branch
 * from request to reply or error.
 */
module Rest {
  import opened Wrappers
  import opened Strings
  import opened Values
  import opened Errors
  import opened Models
  import opened AccessTokens
  import opened TokenAuth
  import Memory

  const BaseUrl: string := "/api/"
  /** The id pattern of the standard routes, fixed whatever the adapter's own pattern is. */
  const IdRegex: string := "([a-fA-F\\d]{24})"

  /** One entry of the model configuration: the model's name and its `public` flag. */
  datatype ModelConfig = ModelConfig(name: string, isPublic: Value)

  datatype RestKind = GetAll | GetById | Post | Patch | Remove

  /** What a route runs after the token middleware. */
  datatype Handler = RestHandler(kind: RestKind, modelName: string) | CustomHandler(fnName: string)

  /**
   * Where a route is mounted: a model's collection, one record of it (with the fixed id
   * pattern), or the path a custom endpoint declares. `PathText` gives the string.
   */
  datatype Path = CollectionOf(model: string) | ItemOf(model: string) | Declared(path: string)

  /** A registered route: verb, path, the `exposed` flag its token middleware sees, handler. */
  datatype Route = Route(verb: string, path: Path, exposed: Value, handler: Handler)

  /** The order `for (verb in restMethods)` visits the standard routes. */
  const RestKinds: seq<RestKind> := [GetAll, GetById, Post, Patch, Remove]

  /** The full path a route is registered under: always below the base URL. */
  function PathText(p: Path): (r: string)
    ensures |r| >= |BaseUrl| && r[..|BaseUrl|] == BaseUrl
  {
    match p
    case CollectionOf(name) => BaseUrl + Lower(name)
    case ItemOf(name) => BaseUrl + Lower(name) + "/:id" + IdRegex
    case Declared(path) => BaseUrl + path
  }

  /**
   * The collection path is `/api/` and the lower-cased model name; a record's path adds
   * `/:id` and the fixed 24-hex-digit pattern, whatever pattern the adapter declares.
   */
  lemma StandardPaths(name: string)
    ensures PathText(CollectionOf(name)) == "/api/" + Lower(name)
    ensures PathText(ItemOf(name)) == PathText(CollectionOf(name)) + "/:id([a-fA-F\\d]{24})"
  {
    var collection := BaseUrl + Lower(name);
    var suffix := "/:id" + IdRegex;
    assert suffix == "/:id([a-fA-F\\d]{24})";
    assert PathText(CollectionOf(name)) == collection;
    assert PathText(ItemOf(name)) == collection + "/:id" + IdRegex;
    assert collection + "/:id" + IdRegex == collection + suffix;
  }

  /** The route `methods(app)[verb](m)` yields once attached under the base URL. */
  function RestRoute(kind: RestKind, name: string): (r: Route)
    ensures r.exposed == Bool(false) && r.handler == RestHandler(kind, name)
  {
    var collection := CollectionOf(name);
    var item := ItemOf(name);
    match kind
    case GetAll => Route("get", collection, Bool(false), RestHandler(kind, name))
    case GetById => Route("get", item, Bool(false), RestHandler(kind, name))
    case Post => Route("post", collection, Bool(false), RestHandler(kind, name))
    case Patch => Route("patch", item, Bool(false), RestHandler(kind, name))
    case Remove => Route("delete", item, Bool(false), RestHandler(kind, name))
  }

  function ModelRoutes(name: string): (r: seq<Route>)
    ensures |r| == 5 && forall i :: 0 <= i < 5 ==> r[i] == RestRoute(RestKinds[i], name)
  {
    [RestRoute(GetAll, name), RestRoute(GetById, name), RestRoute(Post, name),
     RestRoute(Patch, name), RestRoute(Remove, name)]
  }

  /** The model is served by the standard routes: it is public and it was built. */
  predicate Served(c: ModelConfig, built: set<string>) {
    Truthy(c.isPublic) && c.name in built
  }

  /** The standard routes one configured model contributes: five when served, else none. */
  function ServedRoutes(c: ModelConfig, built: set<string>): seq<Route> {
    if Served(c, built) then ModelRoutes(c.name) else []
  }

  /** `buildRestEndpoints`: the five standard routes of each public, built model, in order. */
  function RestRoutes(configs: seq<ModelConfig>, built: set<string>): (r: seq<Route>)
    ensures forall i :: 0 <= i < |r| ==> r[i].exposed == Bool(false) && r[i].handler.RestHandler?
    ensures forall i :: 0 <= i < |r| ==> r[i].handler.modelName in built
  {
    if configs == [] then [] else ServedRoutes(configs[0], built) + RestRoutes(configs[1..], built)
  }

  lemma {:induction false} RestRoutesAppend(a: seq<ModelConfig>, b: seq<ModelConfig>, built: set<string>)
    ensures RestRoutes(a + b, built) == RestRoutes(a, built) + RestRoutes(b, built)
  {
    if a == [] {
      assert a + b == b;
    } else {
      assert (a + b)[1..] == a[1..] + b;
      RestRoutesAppend(a[1..], b, built);
    }
  }

  lemma RestRoutesSnoc(configs: seq<ModelConfig>, i: nat, built: set<string>)
    requires i < |configs|
    ensures RestRoutes(configs[..i + 1], built) == RestRoutes(configs[..i], built) + ServedRoutes(configs[i], built)
  {
    var c := configs[i];
    assert configs[..i + 1] == configs[..i] + [c];
    RestRoutesAppend(configs[..i], [c], built);
    assert [c][1..] == [];
    assert RestRoutes([c], built) == ServedRoutes(c, built) + [];
  }

  /** How many configured models are public and built. */
  function ServedCount(configs: seq<ModelConfig>, built: set<string>): (n: nat)
    ensures n <= |configs|
  {
    if configs == [] then 0
    else (if Truthy(configs[0].isPublic) && configs[0].name in built then 1 else 0) + ServedCount(configs[1..], built)
  }

  /** Each public, built model contributes five routes, the others none. */
  lemma {:induction false} RestRouteCount(configs: seq<ModelConfig>, built: set<string>)
    ensures |RestRoutes(configs, built)| == 5 * ServedCount(configs, built)
  {
    if configs != [] {
      RestRouteCount(configs[1..], built);
    }
  }

  /**
   * Every standard route belongs to a public, built model and is protected: its token
   * middleware runs with `exposed: false`.
   */
  lemma {:induction false} RestRoutesAreProtected(configs: seq<ModelConfig>, built: set<string>)
    ensures forall r :: r in RestRoutes(configs, built) ==> r.exposed == Bool(false) && r.handler.RestHandler?
    ensures forall r :: r in RestRoutes(configs, built) ==>
      exists c :: c in configs && Truthy(c.isPublic) && c.name in built && c.name == r.handler.modelName
  {
    if configs != [] {
      RestRoutesAreProtected(configs[1..], built);
      var c0 := configs[0];
      var head := ServedRoutes(c0, built);
      forall r | r in RestRoutes(configs, built)
        ensures r.exposed == Bool(false) && r.handler.RestHandler?
        ensures exists c :: c in configs && Truthy(c.isPublic) && c.name in built && c.name == r.handler.modelName
      {
        if r in head {
          var i :| 0 <= i < |head| && r == head[i];
          assert r == RestRoute(RestKinds[i], c0.name);
          assert c0 in configs;
        } else {
          assert r in RestRoutes(configs[1..], built);
          var c :| c in configs[1..] && Truthy(c.isPublic) && c.name in built && c.name == r.handler.modelName;
          assert c in configs;
        }
      }
    }
  }

  /** A public, built model's routes: get and get-by-id, post, patch and delete, at these paths. */
  lemma StandardRoutesOfOneModel(name: string)
    ensures var rs := RestRoutes([ModelConfig(name, Bool(true))], {name});
      && |rs| == 5
      && [rs[0].verb, rs[1].verb, rs[2].verb, rs[3].verb, rs[4].verb] == ["get", "get", "post", "patch", "delete"]
      && [rs[0].path, rs[1].path, rs[2].path, rs[3].path, rs[4].path] ==
         [CollectionOf(name), ItemOf(name), CollectionOf(name), ItemOf(name), ItemOf(name)]
      && [rs[0].handler, rs[1].handler, rs[2].handler, rs[3].handler, rs[4].handler] ==
         [RestHandler(GetAll, name), RestHandler(GetById, name), RestHandler(Post, name), RestHandler(Patch, name), RestHandler(Remove, name)]
      && forall i :: 0 <= i < 5 ==> rs[i].exposed == Bool(false)
    ensures RestRoutes([ModelConfig(name, Bool(false))], {name}) == []
    ensures RestRoutes([ModelConfig(name, Bool(true))], {}) == []
  {
    var one := [ModelConfig(name, Bool(true))];
    assert one[1..] == [];
    assert RestRoutes(one, {name}) == ModelRoutes(name) + [];
  }

  /** The route `attachFnToRoute` registers for one custom endpoint. */
  function CustomRoute(e: Endpoint): Route {
    Route(e.verb, Declared(e.path), e.exposed, CustomHandler(e.fnName))
  }

  function EndpointRoutes(endpoints: seq<Endpoint>): (r: seq<Route>)
    ensures |r| == |endpoints| && forall i :: 0 <= i < |endpoints| ==> r[i] == CustomRoute(endpoints[i])
  {
    seq(|endpoints|, i requires 0 <= i < |endpoints| => CustomRoute(endpoints[i]))
  }

  function PublicEndpointsOf(endpoints: map<string, seq<Endpoint>>, name: string): seq<Endpoint> {
    if name in endpoints then endpoints[name] else []
  }

  /** The custom routes one configured model contributes: its public endpoints when built. */
  function EndpointRoutesOf(c: ModelConfig, built: set<string>, endpoints: map<string, seq<Endpoint>>): seq<Route> {
    if c.name in built then EndpointRoutes(PublicEndpointsOf(endpoints, c.name)) else []
  }

  /**
   * `buildCustomEndpoints`: every public endpoint of every configured, built model, in
   * order, whatever the model's `public` flag.
   */
  function CustomRoutes(configs: seq<ModelConfig>, built: set<string>, endpoints: map<string, seq<Endpoint>>): (r: seq<Route>)
    ensures forall i :: 0 <= i < |r| ==> r[i].handler.CustomHandler?
  {
    if configs == [] then [] else EndpointRoutesOf(configs[0], built, endpoints) + CustomRoutes(configs[1..], built, endpoints)
  }

  lemma {:induction false} CustomRoutesAppend(a: seq<ModelConfig>, b: seq<ModelConfig>, built: set<string>,
                                              endpoints: map<string, seq<Endpoint>>)
    ensures CustomRoutes(a + b, built, endpoints) == CustomRoutes(a, built, endpoints) + CustomRoutes(b, built, endpoints)
  {
    if a == [] {
      assert a + b == b;
    } else {
      assert (a + b)[1..] == a[1..] + b;
      CustomRoutesAppend(a[1..], b, built, endpoints);
    }
  }

  lemma CustomRoutesSnoc(configs: seq<ModelConfig>, i: nat, built: set<string>, endpoints: map<string, seq<Endpoint>>)
    requires i < |configs|
    ensures CustomRoutes(configs[..i + 1], built, endpoints) ==
            CustomRoutes(configs[..i], built, endpoints) + EndpointRoutesOf(configs[i], built, endpoints)
  {
    var c := configs[i];
    assert configs[..i + 1] == configs[..i] + [c];
    CustomRoutesAppend(configs[..i], [c], built, endpoints);
    assert [c][1..] == [];
    assert CustomRoutes([c], built, endpoints) == EndpointRoutesOf(c, built, endpoints) + [];
  }

  /** Custom routes do not depend on the `public` flags: only names and built models matter. */
  lemma {:induction false} CustomRoutesIgnorePublicFlag(c1: seq<ModelConfig>, c2: seq<ModelConfig>, built: set<string>,
                                                        endpoints: map<string, seq<Endpoint>>)
    requires |c1| == |c2| && forall i :: 0 <= i < |c1| ==> c1[i].name == c2[i].name
    ensures CustomRoutes(c1, built, endpoints) == CustomRoutes(c2, built, endpoints)
  {
    if c1 != [] {
      CustomRoutesIgnorePublicFlag(c1[1..], c2[1..], built, endpoints);
    }
  }

  /** The router's route list, in registration order. */
  class Router {
    var routes: seq<Route>

    constructor()
      ensures routes == []
    {
      routes := [];
    }

    /** The inner `for (verb in restMethods)` loop: one model's five routes, in order. */
    method AttachModelRoutes(name: string)
      modifies this
      ensures routes == old(routes) + ModelRoutes(name)
    {
      var j := 0;
      while j < |RestKinds|
        invariant 0 <= j <= |RestKinds|
        invariant routes == old(routes) + ModelRoutes(name)[..j]
      {
        assert ModelRoutes(name)[..j + 1] == ModelRoutes(name)[..j] + [RestRoute(RestKinds[j], name)];
        routes := routes + [RestRoute(RestKinds[j], name)];
        j := j + 1;
      }
      assert ModelRoutes(name)[..5] == ModelRoutes(name);
    }

    /** `buildRestEndpoints`: appends the standard routes, model by model. */
    method BuildRestEndpoints(configs: seq<ModelConfig>, built: set<string>)
      modifies this
      ensures routes == old(routes) + RestRoutes(configs, built)
    {
      var i := 0;
      while i < |configs|
        invariant 0 <= i <= |configs|
        invariant routes == old(routes) + RestRoutes(configs[..i], built)
      {
        RestRoutesSnoc(configs, i, built);
        var c := configs[i];
        if Served(c, built) {
          AttachModelRoutes(c.name);
        } else {
          assert ServedRoutes(c, built) == [];
        }
        i := i + 1;
      }
      assert configs[..|configs|] == configs;
    }

    /** The inner `forEach` over one model's public endpoints. */
    method AttachEndpoints(list: seq<Endpoint>)
      modifies this
      ensures routes == old(routes) + EndpointRoutes(list)
    {
      var j := 0;
      while j < |list|
        invariant 0 <= j <= |list|
        invariant routes == old(routes) + EndpointRoutes(list)[..j]
      {
        assert EndpointRoutes(list)[..j + 1] == EndpointRoutes(list)[..j] + [CustomRoute(list[j])];
        routes := routes + [CustomRoute(list[j])];
        j := j + 1;
      }
      assert EndpointRoutes(list)[..|list|] == EndpointRoutes(list);
    }

    /** `buildCustomEndpoints`: appends each built model's public endpoints. */
    method BuildCustomEndpoints(configs: seq<ModelConfig>, built: set<string>, endpoints: map<string, seq<Endpoint>>)
      modifies this
      ensures routes == old(routes) + CustomRoutes(configs, built, endpoints)
    {
      var i := 0;
      while i < |configs|
        invariant 0 <= i <= |configs|
        invariant routes == old(routes) + CustomRoutes(configs[..i], built, endpoints)
      {
        CustomRoutesSnoc(configs, i, built, endpoints);
        var c := configs[i];
        if c.name in built {
          AttachEndpoints(PublicEndpointsOf(endpoints, c.name));
        } else {
          assert EndpointRoutesOf(c, built, endpoints) == [];
        }
        i := i + 1;
      }
      assert configs[..|configs|] == configs;
    }
  }

  /** The exported builder: the standard routes first, then the custom ones. */
  method BuildRouter(configs: seq<ModelConfig>, built: set<string>, endpoints: map<string, seq<Endpoint>>)
    returns (router: Router)
    ensures fresh(router)
    ensures router.routes == RestRoutes(configs, built) + CustomRoutes(configs, built, endpoints)
  {
    router := new Router();
    router.BuildRestEndpoints(configs, built);
    router.BuildCustomEndpoints(configs, built, endpoints);
  }

  /* ---------- input clean-up ---------- */

  /** `stripInviolables` as a value: `id` and `_id` go when truthy, everything else stays. */
  function Stripped(data: Record): Record {
    map k | k in data && !(k in {"id", "_id"} && Truthy(data[k])) :: data[k]
  }

  /** `stripInviolables(data)`: deletes, in place, a truthy `id` and a truthy `_id`. */
  method StripInviolables(data: Record) returns (r: Record)
    ensures r == Stripped(data)
  {
    r := data;
    var fields := ["id", "_id"];
    var i := 0;
    while i < |fields|
      invariant 0 <= i <= |fields|
      invariant r == map k | k in data && !(k in fields[..i] && Truthy(data[k])) :: data[k]
    {
      var f := fields[i];
      assert fields[..i + 1] == fields[..i] + [f];
      if f in r && Truthy(r[f]) {
        r := r - {f};
      }
      i := i + 1;
    }
    assert fields[..2] == fields;
  }

  /**
   * Only truthy `id`/`_id` values are removed: other keys and falsy ids (0, "", false,
   * null) are kept; stripping is the hidden-field filter with `id` and `_id` hidden.
   */
  lemma StrippedKeepsTheRest(data: Record)
    ensures forall k :: k in data && k != "id" && k != "_id" ==> k in Stripped(data) && Stripped(data)[k] == data[k]
    ensures forall k :: k in {"id", "_id"} && k in data && !Truthy(data[k]) ==> k in Stripped(data)
    ensures "id" !in Stripped(data) || !Truthy(Stripped(data)["id"])
    ensures "_id" !in Stripped(data) || !Truthy(Stripped(data)["_id"])
    ensures Obj(Stripped(data)) == FilterHidden({"id", "_id"}, Obj(data))
  {
  }

  /* ---------- errors ---------- */

  /** `error404Message(modelName, id)`: the id is mentioned only when truthy. */
  function Error404Message(host: Host, modelName: string, id: Value): (r: string)
    ensures Truthy(id) ==> r == "Resource \"" + modelName + "\" with id " + Text(host, id) + " not found."
    ensures !Truthy(id) ==> r == "Resource \"" + modelName + "\" not found."
  {
    if Truthy(id) then "Resource \"" + modelName + "\" with id " + Text(host, id) + " not found."
    else "Resource \"" + modelName + "\" not found."
  }

  /** The in-memory adapter's not-found error on update words its message the same way. */
  lemma AdapterNotFoundMatchesRoute(host: Host, modelName: string, id: Value)
    requires Truthy(id)
    ensures Memory.UpdateNotFound(host, modelName, id).message == Error404Message(host, modelName, id)
  {
  }

  function NotFound(host: Host, modelName: string, id: Value): Failure {
    NotFoundError(Some(Error404Message(host, modelName, id)))
  }

  /** A 404 error answers 404 with the message in the body. */
  lemma NotFoundResponds404(host: Host, modelName: string, id: Value)
    ensures ClientErrorHandler(NotFound(host, modelName, id)) ==
      Response(404, ErrorBody(Num(404), Str(Error404Message(host, modelName, id))))
  {
  }

  /* ---------- the standard handlers ---------- */

  /** `isValidId(app, query)`: the adapter's test when it has one. */
  function IsValidId(app: App, query: Record): (r: bool)
    ensures app.hasValidId.None? ==> r
  {
    match app.hasValidId
    case None => true
    case Some(test) => test(query)
  }

  /**
   * GET on the collection: an invalid id in the query answers 200 `[]` without a query;
   * an unbuilt model is a 404; otherwise the model's `rest('find')` result, `[]` when
   * falsy, or its error.
   */
  function GetAllHandler(app: App, built: bool, name: string, query: Record,
                         find: Record -> Result<Value, Failure>): (r: Outcome)
    ensures !IsValidId(app, query) ==> r == Reply(200, Arr([]))
    ensures IsValidId(app, query) && !built ==> r == Forward(NotFoundError(Some("Resource \"" + name + "\" not found.")))
    ensures IsValidId(app, query) && built && find(query).Ok? ==>
      r == Reply(200, if Truthy(find(query).value) then find(query).value else Arr([]))
    ensures IsValidId(app, query) && built && find(query).Err? ==> r == Forward(find(query).error)
  {
    if !IsValidId(app, query) then Reply(200, Arr([]))
    else if !built then Forward(NotFoundError(Some("Resource \"" + name + "\" not found.")))
    else match find(query)
      case Err(e) => Forward(e)
      case Ok(data) => Reply(200, if Truthy(data) then data else Arr([]))
  }

  /** The id-route guards: an unbuilt model is a 404 without id, an invalid id a 404 with it. */
  function IdRouteGuard(host: Host, app: App, built: bool, name: string, params: Record): (r: Option<Failure>)
    ensures !built ==> r == Some(NotFound(host, name, Undefined))
    ensures built && !IsValidId(app, params) ==> r == Some(NotFound(host, name, Lookup(params, "id")))
    ensures built && IsValidId(app, params) ==> r.None?
  {
    if !built then Some(NotFound(host, name, Undefined))
    else if !IsValidId(app, params) then Some(NotFound(host, name, Lookup(params, "id")))
    else None
  }

  /** GET by id: the guards, then `findById` directly; a falsy result is a 404 with the id. */
  function GetByIdHandler(host: Host, app: App, built: bool, name: string, params: Record,
                          findById: Value -> Result<Value, Failure>): (r: Outcome)
    ensures IdRouteGuard(host, app, built, name, params).Some? ==> r == Forward(IdRouteGuard(host, app, built, name, params).value)
    ensures IdRouteGuard(host, app, built, name, params).None? ==>
      match findById(Lookup(params, "id"))
      case Err(e) => r == Forward(e)
      case Ok(data) => r == if Truthy(data) then Reply(200, data) else Forward(NotFound(host, name, Lookup(params, "id")))
  {
    match IdRouteGuard(host, app, built, name, params)
    case Some(e) => Forward(e)
    case None =>
      match findById(Lookup(params, "id"))
      case Err(e) => Forward(e)
      case Ok(data) => if Truthy(data) then Reply(200, data) else Forward(NotFound(host, name, Lookup(params, "id")))
  }

  /**
   * GET by id sends `findById`'s record as it is, without `rest`'s filtering: a truthy
   * hidden field reaches the client, while the same record in a GET on the collection,
   * which goes through `rest('find', ...)`, has it removed.
   */
  lemma GetByIdSendsHiddenFields(host: Host, app: App, name: string, params: Record,
                                 findById: Value -> Result<Value, Failure>, hidden: set<string>, k: string)
    requires IdRouteGuard(host, app, true, name, params).None?
    requires findById(Lookup(params, "id")).Ok?
    requires var v := findById(Lookup(params, "id")).value; v.Obj? && k in hidden && k in v.fields && Truthy(v.fields[k])
    ensures GetByIdHandler(host, app, true, name, params, findById) == Reply(200, findById(Lookup(params, "id")).value)
    ensures !NoHiddenValues(hidden, GetByIdHandler(host, app, true, name, params, findById).body)
    ensures NoHiddenValues(hidden, RestResult(hidden, Find, Ok(Arr([findById(Lookup(params, "id")).value]))).value)
  {
    FilterHiddenSound(hidden, Arr([findById(Lookup(params, "id")).value]));
  }

  /** POST: `rest('create', body)`; for a model that is not built the lookup itself throws. */
  function PostHandler(built: bool, name: string, body: Record, create: Record -> Result<Value, Failure>): (r: Outcome)
    ensures !built ==> r.Forward?
    ensures built ==> r == match create(body) case Ok(v) => Reply(200, v) case Err(e) => Forward(e)
  {
    if !built then Forward(PlainError("Cannot read properties of undefined (reading 'rest')"))
    else match create(body)
      case Ok(v) => Reply(200, v)
      case Err(e) => Forward(e)
  }

  /** PATCH: the guards, then `rest('update', id, body)`; only a `null` result is a 404. */
  function PatchHandler(host: Host, app: App, built: bool, name: string, params: Record, body: Record,
                        update: (Value, Record) -> Result<Value, Failure>): (r: Outcome)
    ensures IdRouteGuard(host, app, built, name, params).Some? ==> r == Forward(IdRouteGuard(host, app, built, name, params).value)
    ensures IdRouteGuard(host, app, built, name, params).None? ==>
      match update(Lookup(params, "id"), body)
      case Err(e) => r == Forward(e)
      case Ok(data) => r == if StrictEq(data, Null) then Forward(NotFound(host, name, Lookup(params, "id"))) else Reply(200, data)
  {
    match IdRouteGuard(host, app, built, name, params)
    case Some(e) => Forward(e)
    case None =>
      match update(Lookup(params, "id"), body)
      case Err(e) => Forward(e)
      case Ok(data) => if StrictEq(data, Null) then Forward(NotFound(host, name, Lookup(params, "id"))) else Reply(200, data)
  }

  /** DELETE: the guards, then `rest('delete', id)`, whose result is always sent. */
  function DeleteHandler(host: Host, app: App, built: bool, name: string, params: Record,
                         delete: Value -> Result<Value, Failure>): (r: Outcome)
    ensures IdRouteGuard(host, app, built, name, params).Some? ==> r == Forward(IdRouteGuard(host, app, built, name, params).value)
    ensures IdRouteGuard(host, app, built, name, params).None? ==>
      r == match delete(Lookup(params, "id")) case Ok(v) => Reply(200, v) case Err(e) => Forward(e)
  {
    match IdRouteGuard(host, app, built, name, params)
    case Some(e) => Forward(e)
    case None =>
      match delete(Lookup(params, "id"))
      case Ok(v) => Reply(200, v)
      case Err(e) => Forward(e)
  }

  /** The collection GET short-circuits: with an invalid id no query is made, whatever `find` does. */
  lemma InvalidIdSkipsQuery(app: App, built: bool, name: string, query: Record,
                            f1: Record -> Result<Value, Failure>, f2: Record -> Result<Value, Failure>)
    requires !IsValidId(app, query)
    ensures GetAllHandler(app, built, name, query, f1) == GetAllHandler(app, built, name, query, f2) == Reply(200, Arr([]))
  {
  }

  /**
   * A `null` update result is a 404, an `undefined` one is sent as a success, where GET
   * by id turns both into a 404.
   */
  lemma PatchAnswers404OnlyForNull(host: Host, app: App, name: string, params: Record, body: Record,
                                   findById: Value -> Result<Value, Failure>, update: (Value, Record) -> Result<Value, Failure>)
    requires IsValidId(app, params)
    ensures update(Lookup(params, "id"), body) == Ok(Undefined) ==>
      PatchHandler(host, app, true, name, params, body, update) == Reply(200, Undefined)
    ensures update(Lookup(params, "id"), body) == Ok(Null) ==>
      PatchHandler(host, app, true, name, params, body, update) == Forward(NotFound(host, name, Lookup(params, "id")))
    ensures findById(Lookup(params, "id")) == Ok(Undefined) || findById(Lookup(params, "id")) == Ok(Null) ==>
      GetByIdHandler(host, app, true, name, params, findById) == Forward(NotFound(host, name, Lookup(params, "id")))
  {
  }

  /**
   * With the in-memory adapter, an id route whose `id` parameter has no digit is a 404
   * naming that id, before the model is consulted.
   */
  lemma MemoryIdWithoutDigitIs404(host: Host, name: string, params: Record, store: TokenStore)
    requires "id" in params && !ContainsDigit(Text(host, params["id"]))
    ensures var app := App(Some((q: Record) => Memory.HasValidId(host, q)), store);
      IdRouteGuard(host, app, true, name, params) == Some(NotFound(host, name, params["id"]))
  {
  }

  /**
   * Every standard route refuses a request without an access token: the token middleware
   * denies it and the error responder answers 401 with `{error: {status: 401, message:
   * "Unauthorized"}}`.
   */
  lemma UnauthenticatedStandardRouteIs401(configs: seq<ModelConfig>, built: set<string>, r: Route,
                                          app: App, query: Record, nowMs: int)
    requires r in RestRoutes(configs, built) && "access_token" !in query
    ensures TokenMiddleware(app, r.exposed, query, nowMs) == Deny(UnauthorizedError(None))
    ensures ClientErrorHandler(TokenMiddleware(app, r.exposed, query, nowMs).err) ==
      Response(401, ErrorBody(Num(401), Str("Unauthorized")))
  {
    RestRoutesAreProtected(configs, built);
  }
}
