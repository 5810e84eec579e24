/**
 * The MongoDB adapter's own logic (lib/adapters/mongoose-adapter.js): the connection
 * string, id validation, the schema translation, the `_id`/`__v` clean-up of returned
 * documents, the bulk-operation guards and the counts read off driver results. The
 * driver calls themselves are not part of this model.
 */
module Mongoose {
  import opened Wrappers
  import opened Strings
  import opened Values
  import opened Errors
  import opened Regularize

  /** `config.host`, `config.port` and `config.database` as given. */
  datatype DbConfig = DbConfig(host: Value, port: Value, database: Value)

  /** `mongodb://host[:port]/database`; the port is left out when falsy. */
  function ConnectionString(h: Host, config: DbConfig): (r: string)
    ensures Truthy(config.port) ==>
      r == "mongodb://" + Text(h, config.host) + ":" + Text(h, config.port) + "/" + Text(h, config.database)
    ensures !Truthy(config.port) ==>
      r == "mongodb://" + Text(h, config.host) + "/" + Text(h, config.database)
  {
    var base := "mongodb://" + Text(h, config.host);
    var withPort := if Truthy(config.port) then base + ":" + Text(h, config.port) else base;
    withPort + "/" + Text(h, config.database)
  }

  /** Every connection string starts with the scheme and ends with `/` and the database. */
  lemma ConnectionStringShape(h: Host, config: DbConfig)
    ensures var r := ConnectionString(h, config);
      |r| >= 10 && r[..10] == "mongodb://" &&
      var tail := "/" + Text(h, config.database);
      |r| >= |tail| && r[|r| - |tail|..] == tail
  {
    var r := ConnectionString(h, config);
    var tail := "/" + Text(h, config.database);
    var head := if Truthy(config.port) then "mongodb://" + Text(h, config.host) + ":" + Text(h, config.port)
                else "mongodb://" + Text(h, config.host);
    assert r == head + tail;
    assert head[..10] == "mongodb://";
    assert r[..10] == head[..10];
    assert r[|r| - |tail|..] == tail;
  }

  /**
   * `hasValidId(query)`: an `_id` key decides first, then an `id` key, each by the
   * driver's ObjectId test (a parameter); a query without either passes.
   */
  function HasValidId(isObjectId: Value -> bool, query: Record): (r: bool)
    ensures "_id" in query ==> (r <==> isObjectId(query["_id"]))
    ensures "_id" !in query && "id" in query ==> (r <==> isObjectId(query["id"]))
    ensures "_id" !in query && "id" !in query ==> r
  {
    if "_id" in query then isObjectId(query["_id"])
    else if "id" in query then isObjectId(query["id"])
    else true
  }

  /** The constructors the type dictionary holds. */
  datatype TypeCtor = StringType | NumberType | BooleanType | ObjectType | ArrayType | DateType

  /** `typeDictionary[name]`: keyed by the lower-case names only. */
  function TypeDictionary(name: string): (r: Option<TypeCtor>)
    ensures r.Some? ==> name in {"string", "number", "boolean", "object", "array", "date"}
  {
    match name
    case "string" => Some(StringType)
    case "number" => Some(NumberType)
    case "boolean" => Some(BooleanType)
    case "object" => Some(ObjectType)
    case "array" => Some(ArrayType)
    case "date" => Some(DateType)
    case _ => None
  }

  /**
   * One translated schema entry: a bare constructor, `undefined` (a shorthand whose
   * lower-cased name is known but whose own spelling is not a dictionary key), or a
   * field descriptor with `type`, `required`, `unique` and an optional `default`.
   */
  datatype MongooseField =
    | Ctor(ctor: TypeCtor)
    | UndefinedField
    | Spec(fieldType: Value, required: Value, unique: Value, default: Option<Value>)

  /** `x || false`. */
  function OrFalse(v: Value): (r: Value)
    ensures Truthy(v) ==> r == v
    ensures !Truthy(v) ==> r == Bool(false)
  {
    if Truthy(v) then v else Bool(false)
  }

  /** The translation of one schema entry. */
  function MapField(f: FieldSpec): (r: MongooseField)
    ensures f.Shorthand? && TypeDictionary(f.typeName).Some? ==> r == Ctor(TypeDictionary(f.typeName).value)
    ensures f.Shorthand? && TypeDictionary(f.typeName).None? && TypeDictionary(Lower(f.typeName)).Some? ==> r == UndefinedField
    ensures f.Shorthand? && TypeDictionary(Lower(f.typeName)).None? ==> r == Spec(Undefined, Bool(false), Bool(false), None)
    ensures f.Descriptor? ==>
      && r.Spec? && r.fieldType == Attr(f, "type")
      && r.required == OrFalse(Attr(f, "required")) && r.unique == OrFalse(Attr(f, "unique"))
      && (r.default.Some? <==> "default" in f.attrs)
      && (r.default.Some? ==> r.default.value == f.attrs["default"])
  {
    match f
    case Shorthand(name) =>
      if TypeDictionary(name).Some? then
        LowerOfKey(name);
        Ctor(TypeDictionary(name).value)
      else if TypeDictionary(Lower(name)).Some? then
        UndefinedField
      else
        Spec(Undefined, Bool(false), Bool(false), None)
    case Descriptor(attrs) =>
      Spec(Lookup(attrs, "type"), OrFalse(Lookup(attrs, "required")), OrFalse(Lookup(attrs, "unique")),
           if "default" in attrs then Some(attrs["default"]) else None)
  }

  /** Lower-casing a lower-case dictionary key gives it back. */
  lemma LowerOfKey(name: string)
    requires TypeDictionary(name).Some?
    ensures Lower(name) == name
  {
    match name
    case "string" =>
    case "number" =>
    case "boolean" =>
    case "object" =>
    case "array" =>
    case "date" =>
  }

  /**
   * A capitalised shorthand such as `"String"` passes the lower-cased lookup but is then
   * looked up as written, so it translates to `undefined`.
   */
  lemma CapitalisedShorthandIsUndefined()
    ensures MapField(Shorthand("String")) == UndefinedField
    ensures MapField(Shorthand("Date")) == UndefinedField
    ensures MapField(Shorthand("string")) == Ctor(StringType)
  {
    assert Lower("String") == "string" by {
      assert LowerChar('S') == 's';
    }
    assert Lower("Date") == "date" by {
      assert LowerChar('D') == 'd';
    }
  }

  /** `mapPropertiesToMongoose` as a whole: every entry translated on its own. */
  function MappedProperties(props: Schema): (r: map<string, MongooseField>)
    ensures r.Keys == props.Keys
  {
    map k | k in props :: MapField(props[k])
  }

  /**
   * `mapPropertiesToMongoose(name, props)`: the loop over the schema. Its "type is
   * required" throw never fires, since the descriptor it inspects always has a `type` key.
   */
  method MapPropertiesToMongoose(props: Schema) returns (r: map<string, MongooseField>)
    ensures r == MappedProperties(props)
  {
    r := map[];
    var pending := props.Keys;
    while pending != {}
      invariant pending <= props.Keys
      invariant r == map k | k in props && k !in pending :: MapField(props[k])
      decreases pending
    {
      var key :| key in pending;
      pending := pending - {key};
      r := r[key := MapField(props[key])];
    }
  }

  /* ---------- returned documents ---------- */

  /** What the driver hands to `idReplace`: a falsy value, a document, or an array of them. */
  predicate Document(v: Value) {
    match v
    case Obj(_) => true
    case Arr(items) => forall i :: 0 <= i < |items| ==> Document(items[i])
    case _ => !Truthy(v)
  }

  /** One document after `toJSON`: `id` falls back to `_id`, then `_id` and `__v` go. */
  function CleanDocument(fields: map<string, Value>): (r: map<string, Value>)
    ensures "_id" !in r && "__v" !in r
    ensures forall k :: k in fields && k !in {"_id", "__v", "id"} ==> k in r && r[k] == fields[k]
    ensures forall k :: k in r ==> k in fields || k == "id"
  {
    var withId := if !Truthy(Lookup(fields, "id")) && Truthy(Lookup(fields, "_id"))
                  then fields["id" := fields["_id"]] else fields;
    withId - {"_id", "__v"}
  }

  /** `idReplace(collection)`: falsy results pass through, arrays element by element. */
  function IdReplace(v: Value): (r: Value)
    requires Document(v)
    ensures !Truthy(v) ==> r == v
    ensures v.Arr? ==> r.Arr? && |r.items| == |v.items|
    ensures v.Arr? ==> forall i :: 0 <= i < |v.items| ==> r.items[i] == IdReplace(v.items[i])
    ensures v.Obj? ==> r == Obj(CleanDocument(v.fields))
    decreases v
  {
    match v
    case Obj(fields) => Obj(CleanDocument(fields))
    case Arr(items) => Arr(seq(|items|, i requires 0 <= i < |items| => IdReplace(items[i])))
    case _ => v
  }

  /** No document that `idReplace` returns, at any array depth, keeps `_id` or `__v`. */
  predicate Cleaned(v: Value) {
    match v
    case Obj(fields) => "_id" !in fields && "__v" !in fields
    case Arr(items) => forall i :: 0 <= i < |items| ==> Cleaned(items[i])
    case _ => true
  }

  lemma {:induction false} IdReplaceCleans(v: Value)
    requires Document(v)
    ensures Cleaned(IdReplace(v))
  {
    match v
    case Obj(_) =>
    case Arr(items) =>
      forall i | 0 <= i < |items|
        ensures Cleaned(IdReplace(v).items[i])
      {
        IdReplaceCleans(items[i]);
      }
    case _ =>
  }

  /** A truthy `id` survives; a falsy one is replaced by a truthy `_id`. */
  lemma IdFallsBackToObjectId(fields: map<string, Value>)
    ensures Truthy(Lookup(fields, "id")) ==> Lookup(CleanDocument(fields), "id") == fields["id"]
    ensures !Truthy(Lookup(fields, "id")) && Truthy(Lookup(fields, "_id")) ==>
      Lookup(CleanDocument(fields), "id") == fields["_id"]
  {
  }

  /** Cleaning twice is cleaning once. */
  lemma {:induction false} IdReplaceIdempotent(v: Value)
    requires Document(v)
    ensures Document(IdReplace(v)) && IdReplace(IdReplace(v)) == IdReplace(v)
  {
    match v
    case Obj(fields) =>
      var once := CleanDocument(fields);
      assert CleanDocument(once) == once;
    case Arr(items) =>
      var r := IdReplace(v);
      forall i | 0 <= i < |items|
        ensures Document(r.items[i]) && IdReplace(r.items[i]) == r.items[i]
      {
        IdReplaceIdempotent(items[i]);
      }
      assert IdReplace(r).items == r.items;
    case _ =>
  }

  /* ---------- bulk operations ---------- */

  /** The guard of `updateMany`/`deleteMany`: the query must be a non-empty plain object. */
  function BulkQueryGuard(op: string, query: Value): (r: Option<Failure>)
    ensures r.None? <==> query.Obj? && query.fields != map[]
    ensures r.Some? ==> r.value == PlainError("Model." + op + " requires query object argument")
  {
    if TypeTag(query) != "Object" || query.fields == map[] then
      Some(PlainError("Model." + op + " requires query object argument"))
    else None
  }

  /** `{count}` of `updateMany`: `res.nModified` when both are truthy, else 0. */
  function UpdateCount(res: Value): (r: Value)
    ensures Truthy(res) && Truthy(Get(res, "nModified")) ==> r == Get(res, "nModified")
    ensures !(Truthy(res) && Truthy(Get(res, "nModified"))) ==> r == Num(0)
  {
    if Truthy(res) && Truthy(Get(res, "nModified")) then Get(res, "nModified") else Num(0)
  }

  /**
   * `{count}` of `delete`/`deleteMany`: `res.result.n` when both are truthy, else 0.
   * Reading `result` off a null or undefined driver reply throws.
   */
  function DeleteCount(res: Value): (r: Result<Value, Failure>)
    ensures r.Err? <==> res.Null? || res.Undefined?
    ensures r.Ok? && Truthy(Get(res, "result")) && Truthy(Get(Get(res, "result"), "n")) ==>
      r.value == Get(Get(res, "result"), "n")
    ensures r.Ok? && !(Truthy(Get(res, "result")) && Truthy(Get(Get(res, "result"), "n"))) ==>
      r.value == Num(0)
  {
    if res.Null? || res.Undefined? then Err(PlainError("Cannot read properties of " + TypeTag(res)))
    else
      var result := Get(res, "result");
      Ok(if Truthy(result) && Truthy(Get(result, "n")) then Get(result, "n") else Num(0))
  }

  /** The adapter's own state: its configuration, connection and registered models. */
  class MongooseAdapter {
    const config: DbConfig
    const idType: string
    const idPathRegex: string
    var dbHostString: Option<string>
    var connected: bool
    var registered: map<string, map<string, MongooseField>>

    constructor(config: DbConfig)
      ensures this.config == config && idType == "string" && idPathRegex == "[a-fA-F\\d]{24}"
      ensures dbHostString.None? && !connected && registered == map[]
    {
      this.config := config;
      idType := "string";
      idPathRegex := "[a-fA-F\\d]{24}";
      dbHostString := None;
      connected := false;
      registered := map[];
    }

    /** `addConnection`: remembers the connection string and opens the connection. */
    method AddConnection(h: Host)
      modifies this
      ensures dbHostString == Some(ConnectionString(h, config)) && connected
      ensures registered == old(registered)
    {
      dbHostString := Some(ConnectionString(h, config));
      connected := true;
    }

    /** `closeConnection`: forgets the connection. */
    method CloseConnection()
      modifies this
      ensures !connected && dbHostString == old(dbHostString) && registered == old(registered)
    {
      connected := false;
    }

    /**
     * `addModel`: without a connection the lookup throws; a name already registered is
     * left alone; otherwise the schema, with `id` forced to a string, is translated and
     * registered.
     */
    method AddModel(name: string, schema: Schema) returns (r: Result<bool, Failure>)
      modifies this
      ensures !old(connected) ==> r.Err? && registered == old(registered)
      ensures old(connected) && name in old(registered) ==> r == Ok(false) && registered == old(registered)
      ensures old(connected) && name !in old(registered) ==>
        r == Ok(true) && registered == old(registered)[name := MappedProperties(schema["id" := Shorthand(idType)])]
      ensures connected == old(connected) && dbHostString == old(dbHostString)
    {
      if !connected {
        return Err(PlainError("Cannot read properties of null (reading 'base')"));
      }
      if name in registered {
        return Ok(false);
      }
      var props := MapPropertiesToMongoose(schema["id" := Shorthand(idType)]);
      registered := registered[name := props];
      r := Ok(true);
    }
  }
}
