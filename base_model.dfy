/**
 * The model engine (lib/models/BaseModel.js): the operation table, hook registration,
 * the hook context built around each adapter call and what of it flows back into the
 * call, hidden-field filtering, and custom endpoint registration.
 */
module Models {
  import opened Wrappers
  import opened Strings
  import opened Values
  import opened Errors
  import opened Regularize
  import opened OperationHooks

  /* ---------- the operation table (`methods()`) ---------- */

  datatype Op = Find | FindOne | FindById | Create | Update | UpdateMany | Delete | DeleteMany

  /** One table entry: its name, hook events, context `method`/`isNew` and `returnsInstance`. */
  datatype OpDescriptor = OpDescriptor(name: string, events: seq<string>, methodName: string,
                                       isNew: Option<bool>, returnsInstance: bool)

  function Describe(op: Op): OpDescriptor {
    match op
    case Find => OpDescriptor("find", ["find"], "find", None, true)
    case FindOne => OpDescriptor("findOne", ["find"], "findOne", None, true)
    case FindById => OpDescriptor("findById", ["find"], "findById", None, true)
    case Create => OpDescriptor("create", ["save"], "create", Some(true), true)
    case Update => OpDescriptor("update", ["save"], "update", Some(false), true)
    case UpdateMany => OpDescriptor("updateMany", [], "update", Some(false), false)
    case Delete => OpDescriptor("delete", ["delete"], "delete", None, false)
    case DeleteMany => OpDescriptor("deleteMany", ["delete"], "deleteMany", None, false)
  }

  const AllOps: seq<Op> := [Find, FindOne, FindById, Create, Update, UpdateMany, Delete, DeleteMany]

  /** `methods().find(m => m.name === name)`. */
  function OpNamed(name: string): (r: Option<Op>)
    ensures r.Some? ==> Describe(r.value).name == name
    ensures r.None? ==> forall op: Op :: Describe(op).name != name
  {
    match name
    case "find" => Some(Find)
    case "findOne" => Some(FindOne)
    case "findById" => Some(FindById)
    case "create" => Some(Create)
    case "update" => Some(Update)
    case "updateMany" => Some(UpdateMany)
    case "delete" => Some(Delete)
    case "deleteMany" => Some(DeleteMany)
    case _ => None
  }

  /**
   * The table's hook events and instance flags: the three reads share `find`, create and
   * update share `save`, both deletes (deleteMany included) share `delete`, and
   * updateMany has no event. Only the reads, create and update return instances.
   */
  lemma OperationTable(op: Op)
    ensures OpNamed(Describe(op).name) == Some(op)
    ensures Describe(op).events ==
      if op in {Find, FindOne, FindById} then ["find"]
      else if op in {Create, Update} then ["save"]
      else if op in {Delete, DeleteMany} then ["delete"]
      else []
    ensures Describe(op).returnsInstance <==> op in {Find, FindOne, FindById, Create, Update}
    ensures op in AllOps
  {
  }

  /* ---------- hook queues ---------- */

  /**
   * A context slot (`ctx.query` or `ctx.data`): its value, and whether it still is the
   * caller's own argument object, so that a hook's in-place changes reach the adapter.
   */
  datatype Slot = Slot(value: Value, isArgument: bool)

  /** The hook context: `modelName`, `query`, `data`, `state`, `method` and `isNew`. */
  datatype Context = Context(modelName: string, query: Slot, data: Slot, state: Record,
                             methodName: string, isNew: Option<bool>)

  /** A hook: given the context, continue with the context it leaves, or pass an error. */
  type HookFn = Context -> Step<Context, Failure>

  /** `operationHookQueue[phase]`: the hooks registered per operation word. */
  type Queue = map<string, seq<HookFn>>

  function HooksFor(queue: Queue, event: string): seq<HookFn> {
    if event in queue then queue[event] else []
  }

  /** `concatOperationHooks`: the hooks of each event, in event order. */
  function ConcatOperationHooks(queue: Queue, events: seq<string>): (r: seq<HookFn>)
    ensures events == [] ==> r == []
    ensures |events| == 1 ==> r == HooksFor(queue, events[0])
  {
    if events == [] then [] else HooksFor(queue, events[0]) + ConcatOperationHooks(queue, events[1..])
  }

  /** The hooks of a list of events are the hooks of its parts, one after the other. */
  lemma {:induction false} ConcatOperationHooksAppend(queue: Queue, a: seq<string>, b: seq<string>)
    ensures ConcatOperationHooks(queue, a + b) == ConcatOperationHooks(queue, a) + ConcatOperationHooks(queue, b)
    decreases |a|
  {
    if a == [] {
      assert a + b == b;
    } else {
      assert (a + b)[0] == a[0] && (a + b)[1..] == a[1..] + b;
      ConcatOperationHooksAppend(queue, a[1..], b);
    }
  }

  /** A hook registered for an event runs last among that event's hooks. */
  lemma AppendedHookRunsLast(queue: Queue, event: string, fn: HookFn)
    ensures ConcatOperationHooks(queue[event := HooksFor(queue, event) + [fn]], [event]) ==
            ConcatOperationHooks(queue, [event]) + [fn]
  {
  }

  /** delete and deleteMany run the same hooks, and updateMany none. */
  lemma DeleteManySharesDeleteHooks(queue: Queue)
    ensures ConcatOperationHooks(queue, Describe(DeleteMany).events) == ConcatOperationHooks(queue, Describe(Delete).events)
    ensures ConcatOperationHooks(queue, Describe(UpdateMany).events) == []
  {
  }

  /* ---------- the context around one call ---------- */

  /** `args[i]`, `undefined` past the end. */
  function Arg(args: seq<Value>, i: nat): Value {
    if i < |args| then args[i] else Undefined
  }

  /** `args[i] = v`; writing past the end pads with `undefined`. */
  function SetArg(args: seq<Value>, i: nat, v: Value): (r: seq<Value>)
    ensures |r| == if i < |args| then |args| else i + 1
    ensures r[i] == v
    ensures forall j :: 0 <= j < |args| && j != i ==> r[j] == args[j]
  {
    if i < |args| then args[i := v] else args + seq(i - |args|, _ => Undefined) + [v]
  }

  /** A slot holding argument `i`; only an object or array can later be changed in place. */
  function ArgSlot(args: seq<Value>, i: nat): Slot {
    Slot(Arg(args, i), i < |args| && (args[i].Obj? || args[i].Arr?))
  }

  /** The operations whose first argument is an id. */
  predicate IdKeyed(op: Op) {
    op == FindById || op == Update || op == Delete
  }

  /** `queryContext`: `{id: args[0]}` for the id-keyed operations, `args[0]` itself otherwise. */
  function QueryContext(op: Op, args: seq<Value>): (r: Slot)
    ensures IdKeyed(op) ==> Truthy(r.value) && Get(r.value, "id") == Arg(args, 0) && !r.isArgument
    ensures !IdKeyed(op) ==> r.value == Arg(args, 0) && (r.isArgument <==> r.value.Obj? || r.value.Arr?)
  {
    if IdKeyed(op) then Slot(Obj(map["id" := Arg(args, 0)]), false) else ArgSlot(args, 0)
  }

  /** `dataContext`: `args[0]` for create, `args[1]` for update, a fresh `{}` otherwise. */
  function DataContext(op: Op, args: seq<Value>): (r: Slot)
    ensures op == Create ==> r.value == Arg(args, 0)
    ensures op == Update ==> r.value == Arg(args, 1)
    ensures op != Create && op != Update ==> r == Slot(Obj(map[]), false)
    ensures r.isArgument ==> r.value.Obj? || r.value.Arr?
  {
    if op == Create then ArgSlot(args, 0)
    else if op == Update then ArgSlot(args, 1)
    else Slot(Obj(map[]), false)
  }

  /** The context before the hooks: the default context with the table's `method`/`isNew`. */
  function ContextFor(modelName: string, op: Op, args: seq<Value>): Context {
    Context(modelName, QueryContext(op, args), DataContext(op, args), map[],
            Describe(op).methodName, Describe(op).isNew)
  }

  /**
   * The arguments the adapter receives after the before-hooks: for the id-keyed
   * operations `deQueryContext` writes `ctx.query.id` into `args[0]` when `ctx.query` is
   * truthy; an argument object a slot still holds carries the hooks' in-place changes
   * (for create, where query and data are the same object, the data slot decides).
   */
  function ArgsAfterHooks(op: Op, args: seq<Value>, ctx: Context): (r: seq<Value>)
    ensures |args| <= |r|
    ensures forall j :: 2 <= j < |args| ==> r[j] == args[j]
    ensures op != Update && |args| >= 1 ==> |r| == |args| && forall j :: 1 <= j < |args| ==> r[j] == args[j]
    ensures IdKeyed(op) && Truthy(ctx.query.value) ==> |r| >= 1 && r[0] == Get(ctx.query.value, "id")
    ensures IdKeyed(op) && !Truthy(ctx.query.value) && |args| >= 1 ==> r[0] == args[0]
  {
    if IdKeyed(op) then
      var a := if Truthy(ctx.query.value) then SetArg(args, 0, Get(ctx.query.value, "id")) else args;
      if op == Update && ctx.data.isArgument then SetArg(a, 1, ctx.data.value) else a
    else if op == Create then
      if ctx.data.isArgument then SetArg(args, 0, ctx.data.value)
      else if ctx.query.isArgument then SetArg(args, 0, ctx.query.value)
      else args
    else if ctx.query.isArgument then SetArg(args, 0, ctx.query.value)
    else args
  }

  /**
   * For the id-keyed operations only the id of a hook's query reaches the adapter: two
   * truthy queries with the same `id` give the same arguments, whatever else they hold.
   */
  lemma OnlyQueryIdIsWrittenBack(op: Op, args: seq<Value>, ctx: Context, q1: Value, q2: Value)
    requires IdKeyed(op) && Truthy(q1) && Truthy(q2) && Get(q1, "id") == Get(q2, "id")
    ensures ArgsAfterHooks(op, args, ctx.(query := Slot(q1, false))) ==
            ArgsAfterHooks(op, args, ctx.(query := Slot(q2, false)))
    ensures ArgsAfterHooks(op, args, ctx.(query := Slot(q1, false)))[0] == Get(q1, "id")
  {
  }

  /** Untouched by hooks, the context hands the adapter back the caller's arguments. */
  lemma UntouchedContextKeepsArgs(modelName: string, op: Op, args: seq<Value>)
    requires |args| >= 1
    ensures ArgsAfterHooks(op, args, ContextFor(modelName, op, args)) == args
  {
  }

  /* ---------- instance methods ---------- */

  /** Binds each instance method onto one result; `undefined`/`null` cannot take them. */
  function Bind(methods: set<string>, v: Value): (r: Result<Value, Failure>)
    ensures v.Obj? ==> r.Ok? && r.value.Obj? && r.value.fields.Keys == v.fields.Keys + methods
    ensures (v.Null? || v.Undefined?) ==> (r.Ok? <==> methods == {})
  {
    match v
    case Obj(fields) => Ok(Obj(fields + map m | m in methods :: Fn(m)))
    case Undefined => if methods == {} then Ok(v) else Err(PlainError("Cannot set properties of undefined"))
    case Null => if methods == {} then Ok(v) else Err(PlainError("Cannot set properties of null"))
    case _ => Ok(v)
  }

  function BindAll(methods: set<string>, items: seq<Value>): (r: Result<seq<Value>, Failure>)
    ensures r.Ok? ==> |r.value| == |items| && forall i :: 0 <= i < |items| ==> Bind(methods, items[i]) == Ok(r.value[i])
    ensures r.Err? ==> exists i :: 0 <= i < |items| && Bind(methods, items[i]).Err?
  {
    if items == [] then Ok([])
    else match (Bind(methods, items[0]), BindAll(methods, items[1..]))
      case (Err(e), _) => Err(e)
      case (Ok(_), Err(e)) => Err(e)
      case (Ok(first), Ok(rest)) => Ok([first] + rest)
  }

  /** `applyInstanceMethods`: every element of an array result, or the single result. */
  function ApplyInstanceMethods(methods: set<string>, data: Value): (r: Result<Value, Failure>)
    ensures data.Arr? ==> (r.Ok? <==> forall i :: 0 <= i < |data.items| ==> Bind(methods, data.items[i]).Ok?)
    ensures data.Arr? && r.Ok? ==> r.value.Arr? && |r.value.items| == |data.items|
    ensures data.Obj? ==> r.Ok? && r.value.Obj? && r.value.fields.Keys == data.fields.Keys + methods
    ensures methods != {} && r.Ok? ==> !r.value.Null? && !r.value.Undefined?
  {
    if data.Arr? then
      match BindAll(methods, data.items)
      case Ok(items) => Ok(Arr(items))
      case Err(e) => Err(e)
    else Bind(methods, data)
  }

  /** With instance methods to bind, a result that is `undefined` or `null` is a TypeError. */
  lemma NullishCannotTakeMethods(methods: set<string>, data: Value)
    requires methods != {}
    ensures ApplyInstanceMethods(methods, data).Ok? ==>
      !ApplyInstanceMethods(methods, data).value.Null? && !ApplyInstanceMethods(methods, data).value.Undefined?
    ensures data.Null? ==> ApplyInstanceMethods(methods, data) == Err(PlainError("Cannot set properties of null"))
    ensures data.Undefined? ==> ApplyInstanceMethods(methods, data) == Err(PlainError("Cannot set properties of undefined"))
  {
  }

  /** Without instance methods, binding leaves every result as it is. */
  lemma {:induction false} NoMethodsBindNothing(data: Value)
    ensures ApplyInstanceMethods({}, data) == Ok(data)
  {
    if data.Arr? {
      var r := BindAll({}, data.items);
      assert r.Ok? && |r.value| == |data.items|;
      forall i | 0 <= i < |data.items|
        ensures r.value[i] == data.items[i]
      {
        match data.items[i]
        case Obj(f) => assert f + (map m: string | m in {} :: Fn(m)) == f;
        case _ =>
      }
      assert r.value == data.items;
    } else if data.Obj? {
      assert data.fields + (map m: string | m in {} :: Fn(m)) == data.fields;
    }
  }

  /* ---------- one wrapped operation (`addMethod`) ---------- */

  /** The adapter operation a model method wraps: the arguments in, a result or an error out. */
  type AdapterFn = seq<Value> -> Result<Value, Failure>

  /**
   * A call of a model method: with no hook event the adapter is called directly;
   * otherwise the before-hooks run on a fresh context, the adapter is called with the
   * written-back arguments, `ctx.data` becomes its result, the after-hooks run on that
   * same context, and the instance methods are bound onto the final `ctx.data`. The
   * first error anywhere is the call's error.
   */
  function Invoke(modelName: string, op: Op, args: seq<Value>, adapter: AdapterFn,
                  before: Queue, after: Queue, methods: set<string>): (r: Result<Value, Failure>)
    ensures Describe(op).events == [] ==> r == adapter(args)
    ensures (Describe(op).events != [] &&
             Pipeline(ContextFor(modelName, op, args), ConcatOperationHooks(before, Describe(op).events)).Rejected?) ==>
      r == Err(Pipeline(ContextFor(modelName, op, args), ConcatOperationHooks(before, Describe(op).events)).err)
    ensures Describe(op).events != [] && methods != {} && r.Ok? ==> !r.value.Null? && !r.value.Undefined?
  {
    var events := Describe(op).events;
    if events == [] then adapter(args)
    else
      match Pipeline(ContextFor(modelName, op, args), ConcatOperationHooks(before, events))
      case Rejected(e, _) => Err(e)
      case Resolved(ctx, _) =>
        match adapter(ArgsAfterHooks(op, args, ctx))
        case Err(e) => Err(e)
        case Ok(res) =>
          match Pipeline(ctx.(data := Slot(res, false)), ConcatOperationHooks(after, events))
          case Rejected(e, _) => Err(e)
          case Resolved(done, _) => ApplyInstanceMethods(methods, done.data.value)
  }

  /** How the before-hooks of a call settle, run on the call's fresh context. */
  function BeforeRun(modelName: string, op: Op, args: seq<Value>, before: Queue): Run<Context, Failure> {
    Pipeline(ContextFor(modelName, op, args), ConcatOperationHooks(before, Describe(op).events))
  }

  /** How the after-hooks settle, run on the before-hooks' context with `ctx.data` the adapter result. */
  function AfterRun(ctx: Context, op: Op, res: Value, after: Queue): Run<Context, Failure> {
    Pipeline(ctx.(data := Slot(res, false)), ConcatOperationHooks(after, Describe(op).events))
  }

  /**
   * An adapter error is the call's error: the after-hooks are not run and no instance
   * method is bound, so neither the after-queue nor the methods change the outcome.
   */
  lemma AdapterErrorIsCallError(modelName: string, op: Op, args: seq<Value>, adapter: AdapterFn,
                                before: Queue, after: Queue, methods: set<string>,
                                after2: Queue, methods2: set<string>)
    requires Describe(op).events != []
    requires BeforeRun(modelName, op, args, before).Resolved?
    requires adapter(ArgsAfterHooks(op, args, BeforeRun(modelName, op, args, before).ctx)).Err?
    ensures Invoke(modelName, op, args, adapter, before, after, methods) ==
            adapter(ArgsAfterHooks(op, args, BeforeRun(modelName, op, args, before).ctx))
    ensures Invoke(modelName, op, args, adapter, before, after, methods) ==
            Invoke(modelName, op, args, adapter, before, after2, methods2)
  {
  }

  /** An after-hook's error is the call's error, whatever instance methods are declared. */
  lemma AfterHookErrorIsCallError(modelName: string, op: Op, args: seq<Value>, adapter: AdapterFn,
                                  before: Queue, after: Queue, methods: set<string>, res: Value)
    requires Describe(op).events != []
    requires BeforeRun(modelName, op, args, before).Resolved?
    requires adapter(ArgsAfterHooks(op, args, BeforeRun(modelName, op, args, before).ctx)) == Ok(res)
    requires AfterRun(BeforeRun(modelName, op, args, before).ctx, op, res, after).Rejected?
    ensures Invoke(modelName, op, args, adapter, before, after, methods) ==
            Err(AfterRun(BeforeRun(modelName, op, args, before).ctx, op, res, after).err)
  {
  }

  /** When every hook continues, the call binds the instance methods onto the after-hooks' `ctx.data`. */
  lemma ResolvedCallBindsAfterData(modelName: string, op: Op, args: seq<Value>, adapter: AdapterFn,
                                   before: Queue, after: Queue, methods: set<string>, res: Value)
    requires Describe(op).events != []
    requires BeforeRun(modelName, op, args, before).Resolved?
    requires adapter(ArgsAfterHooks(op, args, BeforeRun(modelName, op, args, before).ctx)) == Ok(res)
    requires AfterRun(BeforeRun(modelName, op, args, before).ctx, op, res, after).Resolved?
    ensures Invoke(modelName, op, args, adapter, before, after, methods) ==
            ApplyInstanceMethods(methods, AfterRun(BeforeRun(modelName, op, args, before).ctx, op, res, after).ctx.data.value)
  {
  }

  /** With no after-hooks for the operation, the call's value is the adapter result with the methods bound. */
  lemma NoAfterHooksReturnsBound(modelName: string, op: Op, args: seq<Value>, adapter: AdapterFn,
                                 before: Queue, after: Queue, methods: set<string>, res: Value)
    requires Describe(op).events != [] && ConcatOperationHooks(after, Describe(op).events) == []
    requires BeforeRun(modelName, op, args, before).Resolved?
    requires adapter(ArgsAfterHooks(op, args, BeforeRun(modelName, op, args, before).ctx)) == Ok(res)
    ensures Invoke(modelName, op, args, adapter, before, after, methods) == ApplyInstanceMethods(methods, res)
  {
  }

  /** updateMany bypasses every hook and binds nothing: it is the adapter call itself. */
  lemma UpdateManyBypassesHooks(modelName: string, args: seq<Value>, adapter: AdapterFn,
                                before: Queue, after: Queue, methods: set<string>)
    ensures Invoke(modelName, UpdateMany, args, adapter, before, after, methods) == adapter(args)
  {
  }

  /** A before-hook's error rejects the call without the adapter being consulted. */
  lemma BeforeErrorSkipsAdapter(modelName: string, op: Op, args: seq<Value>, a1: AdapterFn, a2: AdapterFn,
                                before: Queue, after: Queue, methods: set<string>)
    requires Describe(op).events != []
    requires Pipeline(ContextFor(modelName, op, args), ConcatOperationHooks(before, Describe(op).events)).Rejected?
    ensures Invoke(modelName, op, args, a1, before, after, methods) ==
            Invoke(modelName, op, args, a2, before, after, methods)
    ensures Invoke(modelName, op, args, a1, before, after, methods) ==
            Err(Pipeline(ContextFor(modelName, op, args), ConcatOperationHooks(before, Describe(op).events)).err)
  {
  }

  /** With no hooks and no instance methods a model method is exactly its adapter operation. */
  lemma NoHooksIsAdapterCall(modelName: string, op: Op, args: seq<Value>, adapter: AdapterFn, methods: set<string>)
    requires |args| >= 1 && methods == {}
    ensures Invoke(modelName, op, args, adapter, map[], map[], methods) == adapter(args)
  {
    var events := Describe(op).events;
    if events != [] {
      assert ConcatOperationHooks(map[], events) == [] by {
        OperationTable(op);
      }
      UntouchedContextKeepsArgs(modelName, op, args);
      match adapter(args) {
        case Err(e) =>
        case Ok(res) => NoMethodsBindNothing(res);
      }
    }
  }

  /* ---------- hidden fields ---------- */

  /** The keys whose entry says `hidden === true`. */
  function HiddenFields(props: Schema): (r: set<string>)
    ensures r <= props.Keys
    ensures forall k :: k in props && Attr(props[k], "hidden") == Bool(true) ==> k in r
    ensures forall k :: k in props && Attr(props[k], "hidden") != Bool(true) ==> k !in r
  {
    set k | k in props && props[k].Descriptor? && Attr(props[k], "hidden") == Bool(true)
  }

  /** The author's entry for a key decides whether it is hidden, over the base schema's. */
  lemma AuthorDecidesHidden(base: Schema, props: Schema, k: string)
    requires k in props
    ensures k in HiddenFields(base + props) <==> k in HiddenFields(props)
  {
  }

  /** `filterHiddenProps`: falsy passes through, arrays element-wise, objects lose truthy hidden fields. */
  function FilterHidden(hidden: set<string>, v: Value): (r: Value)
    ensures !v.Arr? && !v.Obj? ==> r == v
    ensures v.Arr? ==> r.Arr? && |r.items| == |v.items|
    ensures v.Arr? ==> forall i :: 0 <= i < |v.items| ==> r.items[i] == FilterHidden(hidden, v.items[i])
    ensures v.Obj? ==> r.Obj? && r.fields.Keys <= v.fields.Keys
    ensures v.Obj? ==> forall k :: k in v.fields && k !in hidden ==> k in r.fields && r.fields[k] == v.fields[k]
    ensures v.Obj? ==> forall k :: k in v.fields && k in hidden ==> (k in r.fields <==> !Truthy(v.fields[k]))
    decreases v
  {
    match v
    case Arr(items) => Arr(seq(|items|, i requires 0 <= i < |items| => FilterHidden(hidden, items[i])))
    case Obj(fields) => Obj(map k | k in fields && !(k in hidden && Truthy(fields[k])) :: fields[k])
    case _ => v
  }

  /** No object reachable through arrays holds a hidden field with a truthy value. */
  predicate NoHiddenValues(hidden: set<string>, v: Value) {
    match v
    case Arr(items) => forall i :: 0 <= i < |items| ==> NoHiddenValues(hidden, items[i])
    case Obj(fields) => forall k :: k in fields && k in hidden ==> !Truthy(fields[k])
    case _ => true
  }

  /**
   * `b` is `a` with exactly the truthy hidden fields deleted from every object, at every
   * array depth, and nothing else changed.
   */
  predicate Pruned(hidden: set<string>, a: Value, b: Value)
    decreases a
  {
    match a
    case Arr(items) =>
      b.Arr? && |b.items| == |items| && forall i :: 0 <= i < |items| ==> Pruned(hidden, items[i], b.items[i])
    case Obj(fields) =>
      && b.Obj?
      && (forall k :: k in b.fields ==> k in fields && !(k in hidden && Truthy(fields[k])))
      && (forall k :: k in fields && !(k in hidden && Truthy(fields[k])) ==> k in b.fields)
      && (forall k :: k in b.fields ==> b.fields[k] == fields[k])
    case _ => b == a
  }

  /**
   * Filtering removes exactly the truthy hidden fields: the result has none left, every
   * object at every array depth keeps all its other fields with their values, and
   * filtering again changes nothing.
   */
  lemma {:induction false} FilterHiddenSound(hidden: set<string>, v: Value)
    ensures NoHiddenValues(hidden, FilterHidden(hidden, v))
    ensures Pruned(hidden, v, FilterHidden(hidden, v))
    ensures FilterHidden(hidden, FilterHidden(hidden, v)) == FilterHidden(hidden, v)
    decreases v
  {
    match v
    case Arr(items) =>
      var r := FilterHidden(hidden, v);
      forall i | 0 <= i < |items|
        ensures NoHiddenValues(hidden, r.items[i]) && Pruned(hidden, items[i], r.items[i])
        ensures FilterHidden(hidden, r.items[i]) == r.items[i]
      {
        FilterHiddenSound(hidden, items[i]);
      }
      assert FilterHidden(hidden, r).items == r.items;
    case Obj(fields) =>
      var r := FilterHidden(hidden, v);
      assert FilterHidden(hidden, r).fields == r.fields;
    case _ =>
  }

  /** The filtered value is the only value pruned from `a`: `Pruned` pins it down. */
  lemma {:induction false} PrunedIsFiltered(hidden: set<string>, a: Value, b: Value)
    requires Pruned(hidden, a, b)
    ensures b == FilterHidden(hidden, a)
    decreases a
  {
    match a
    case Arr(items) =>
      forall i | 0 <= i < |items|
        ensures b.items[i] == FilterHidden(hidden, a).items[i]
      {
        PrunedIsFiltered(hidden, items[i], b.items[i]);
      }
      assert b.items == FilterHidden(hidden, a).items;
    case Obj(fields) =>
      assert b.fields == FilterHidden(hidden, a).fields;
    case _ =>
  }

  /** `rest(m, ...)`: results of instance-returning operations lose their hidden fields. */
  function RestResult(hidden: set<string>, op: Op, r: Result<Value, Failure>): Result<Value, Failure> {
    match r
    case Err(e) => Err(e)
    case Ok(v) => Ok(if Describe(op).returnsInstance then FilterHidden(hidden, v) else v)
  }

  /** Through `rest`, reads, create and update never return a truthy hidden field. */
  lemma RestHidesHiddenFields(hidden: set<string>, op: Op, r: Result<Value, Failure>)
    requires Describe(op).returnsInstance && RestResult(hidden, op, r).Ok?
    ensures NoHiddenValues(hidden, RestResult(hidden, op, r).value)
  {
    FilterHiddenSound(hidden, r.value);
  }

  /* ---------- custom endpoints ---------- */

  /** `checkType`: the lower-cased type tag equals the lower-cased type name. */
  predicate CheckType(v: Value, t: string) {
    Lower(TypeTag(v)) == Lower(t)
  }

  /** The lower-case spelling of each type tag. */
  function LowerTag(v: Value): string {
    match v
    case Undefined => "undefined"
    case Null => "null"
    case Bool(_) => "boolean"
    case Num(_) => "number"
    case Str(_) => "string"
    case Date(_) => "date"
    case Arr(_) => "array"
    case Obj(_) => "object"
    case Fn(_) => "function"
  }

  lemma LowerOfLowerTag(v: Value)
    ensures Lower(LowerTag(v)) == LowerTag(v)
  {
  }

  lemma {:induction false} TagLowersToLowerTag(v: Value)
    ensures Lower(TypeTag(v)) == LowerTag(v)
  {
    match v
    case Undefined => assert Lower("Undefined") == "undefined";
    case Null => assert Lower("Null") == "null";
    case Bool(_) => assert Lower("Boolean") == "boolean";
    case Num(_) => assert Lower("Number") == "number";
    case Str(_) => assert Lower("String") == "string";
    case Date(_) => assert Lower("Date") == "date";
    case Arr(_) => assert Lower("Array") == "array";
    case Obj(_) => assert Lower("Object") == "object";
    case Fn(_) => assert Lower("Function") == "function";
  }

  /** `checkType(v, t)` compares `t`, lower-cased, with the lower-case spelling of `v`'s tag. */
  lemma CheckTypeByTag(v: Value, t: string)
    ensures CheckType(v, t) <==> LowerTag(v) == Lower(t)
  {
    TagLowersToLowerTag(v);
  }

  /** `checkType(v, 'string')` and `checkType(v, 'object')` hold exactly for strings and plain objects. */
  lemma CheckTypeStringObject(v: Value)
    ensures CheckType(v, "string") <==> v.Str?
    ensures CheckType(v, "object") <==> v.Obj?
  {
    TagLowersToLowerTag(v);
    assert Lower("string") == "string";
    assert Lower("object") == "object";
  }

  /** A non-empty string (what `!x || !checkType(x, 'string')` lets through). */
  predicate NonEmptyString(v: Value) {
    v.Str? && v.s != ""
  }

  lemma NonEmptyStringCheck(v: Value)
    ensures NonEmptyString(v) <==> Truthy(v) && CheckType(v, "string")
  {
    CheckTypeStringObject(v);
  }

  /** One validated endpoint argument: `arg` and `type` are non-empty strings. */
  predicate ValidArg(a: Value) {
    NonEmptyString(Get(a, "arg")) && NonEmptyString(Get(a, "type"))
  }

  function ArgError(which: string): Failure {
    PlainError("Argument property '" + which + "' is required for endpoint arugments")
  }

  /** The `options.args.forEach` check: the first argument that fails throws. */
  function ValidateArgs(items: seq<Value>): (r: Option<Failure>)
    ensures r.None? <==> forall i :: 0 <= i < |items| ==> ValidArg(items[i])
  {
    if items == [] then None
    else
      var a := items[0];
      NonEmptyStringCheck(Get(a, "arg"));
      NonEmptyStringCheck(Get(a, "type"));
      if a.Null? || a.Undefined? then
        Some(PlainError("Cannot read properties of " + (if a.Null? then "null" else "undefined") + " (reading 'arg')"))
      else if !Truthy(Get(a, "arg")) || !CheckType(Get(a, "arg"), "string") then Some(ArgError("arg"))
      else if !Truthy(Get(a, "type")) || !CheckType(Get(a, "type"), "string") then Some(ArgError("type"))
      else
        var rest := ValidateArgs(items[1..]);
        assert forall i :: 1 <= i < |items| ==> items[i] == items[1..][i - 1];
        rest
  }

  /** `options.args || []`. */
  function EndpointArgs(options: Value): Value {
    if Truthy(Get(options, "args")) then Get(options, "args") else Arr([])
  }

  /** The options `validateEndpointOptions` accepts. */
  predicate ValidOptions(options: Value) {
    && options.Obj?
    && "name" in options.fields && options.fields["name"].Str?
    && Get(options, "http").Obj?
    && NonEmptyString(Get(Get(options, "http"), "verb"))
    && NonEmptyString(Get(Get(options, "http"), "path"))
    && EndpointArgs(options).Arr?
    && forall i :: 0 <= i < |EndpointArgs(options).items| ==> ValidArg(EndpointArgs(options).items[i])
  }

  /** `undefined`, `null`, a boolean, a number or a string: a value that cannot take a property. */
  predicate IsPrimitive(v: Value) {
    v.Undefined? || v.Null? || v.Bool? || v.Num? || v.Str?
  }

  /** The TypeError of `options.modelName = ...` in strict code when `options` is primitive. */
  function ModelNameAssignError(v: Value): Failure
    requires IsPrimitive(v)
  {
    match v
    case Undefined => PlainError("Cannot set properties of undefined (setting 'modelName')")
    case Null => PlainError("Cannot set properties of null (setting 'modelName')")
    case Bool(b) => PlainError("Cannot create property 'modelName' on boolean '" + (if b then "true" else "false") + "'")
    case Num(n) => PlainError("Cannot create property 'modelName' on number '" + DecimalText(n) + "'")
    case Str(t) => PlainError("Cannot create property 'modelName' on string '" + t + "'")
  }

  /**
   * The own `name` property: an object's `name` key, or a function's own name. Arrays
   * and dates have none.
   */
  function OwnName(options: Value): Option<Value> {
    match options
    case Obj(fields) => if "name" in fields then Some(fields["name"]) else None
    case Fn(name) => Some(Str(name))
    case _ => None
  }

  /**
   * `validateEndpointOptions`: the first missing or mistyped option throws. An array or
   * a date has no own `name`; a function has one but no `http`.
   */
  function ValidateEndpointOptions(options: Value): (r: Option<Failure>)
    ensures r.None? <==> ValidOptions(options)
    ensures options.Arr? || options.Date? ==> r == Some(PlainError("Name is required for endpoints"))
    ensures options.Fn? ==> r == Some(PlainError("http object is required for endpoints"))
  {
    var http := Get(options, "http");
    NonEmptyStringCheck(Get(http, "verb"));
    NonEmptyStringCheck(Get(http, "path"));
    CheckTypeStringObject(http);
    CheckTypeStringObject(Get(options, "name"));
    CheckTypeStringObject(Str(""));
    if OwnName(options).None? || !CheckType(OwnName(options).value, "string") then
      Some(PlainError("Name is required for endpoints"))
    else if !Truthy(http) || !CheckType(http, "object") then
      Some(PlainError("http object is required for endpoints"))
    else if !Truthy(Get(http, "verb")) || !CheckType(Get(http, "verb"), "string") then
      Some(PlainError("http.verb is required for endpoints"))
    else if !Truthy(Get(http, "path")) || !CheckType(Get(http, "path"), "string") then
      Some(PlainError("http.path is required for endpoints"))
    else if !EndpointArgs(options).Arr? then
      Some(PlainError("options.args.forEach is not a function"))
    else ValidateArgs(EndpointArgs(options).items)
  }

  /**
   * `addIdRegexToPath`: the first `:id` in the path gets the adapter's id pattern
   * appended (`idPathRegex || ''`); a path without `:id` is unchanged.
   */
  function AddIdRegexToPath(idPathRegex: string, path: string): (r: string)
    ensures IndexOf(path, ":id").None? ==> r == path
    ensures IndexOf(path, ":id").Some? ==>
      var i := IndexOf(path, ":id").value;
      r == path[..i] + ":id" + idPathRegex + path[i + 3..]
  {
    ReplaceFirst(path, ":id", ":id" + idPathRegex)
  }

  /** With an id pattern, the pattern follows the first `:id` and the rest of the path follows it. */
  lemma IdRegexFollowsFirstId(idPathRegex: string, path: string)
    requires IndexOf(path, ":id").Some?
    ensures var i := IndexOf(path, ":id").value;
      var r := AddIdRegexToPath(idPathRegex, path);
      && |r| == |path| + |idPathRegex|
      && r[..i + 3] == path[..i + 3]
      && r[i + 3..i + 3 + |idPathRegex|] == idPathRegex
      && r[i + 3 + |idPathRegex|..] == path[i + 3..]
  {
    var i := IndexOf(path, ":id").value;
    assert OccursAt(path, ":id", i);
    var r := AddIdRegexToPath(idPathRegex, path);
    assert path[..i + 3] == path[..i] + ":id";
    assert r == path[..i + 3] + idPathRegex + path[i + 3..];
  }

  /** A registered endpoint: its path, lower-cased verb, `exposed` flag, function and arguments. */
  datatype Endpoint = Endpoint(path: string, verb: string, exposed: Value, fnName: string, args: seq<Value>)

  /** `buildEndpoint` on validated options. */
  function BuildEndpoint(modelName: string, idPathRegex: string, options: Value, fnName: string): (r: Endpoint)
    requires ValidOptions(options)
    ensures r.path == Lower(modelName) + AddIdRegexToPath(idPathRegex, Get(Get(options, "http"), "path").s)
    ensures r.verb == Lower(Get(Get(options, "http"), "verb").s)
    ensures r.exposed == Get(options, "exposed") && r.fnName == fnName
  {
    var http := Get(options, "http");
    Endpoint(Lower(modelName) + AddIdRegexToPath(idPathRegex, Get(http, "path").s),
             Lower(Get(http, "verb").s), Get(options, "exposed"), fnName, EndpointArgs(options).items)
  }

  function ArgName(a: Value): string
    requires ValidArg(a)
  {
    Get(a, "arg").s
  }

  function ArgType(a: Value): string
    requires ValidArg(a)
  {
    Get(a, "type").s
  }

  /** `arg.fromPath ? req.params : req.body`. */
  function ArgSource(params: Record, body: Record, a: Value): Record {
    if Truthy(Get(a, "fromPath")) then params else body
  }

  /** Argument `a` passes `gatherArgs`: present in its source when required, and of its declared type. */
  predicate ArgAccepted(params: Record, body: Record, a: Value)
    requires ValidArg(a)
  {
    && (!Truthy(Get(a, "required")) || ArgName(a) in ArgSource(params, body, a))
    && CheckType(Lookup(ArgSource(params, body, a), ArgName(a)), ArgType(a))
  }

  /** The error `gatherArgs` throws for a rejected argument: absence first, then the type. */
  function ArgFailure(params: Record, body: Record, a: Value): Failure
    requires ValidArg(a)
  {
    if Truthy(Get(a, "required")) && ArgName(a) !in ArgSource(params, body, a) then PlainError(ArgName(a) + " is required")
    else PlainError(ArgName(a) + " is not of type " + ArgType(a))
  }

  /** Every argument is valid, so each can be checked. */
  predicate AllValidArgs(args: seq<Value>) {
    forall i :: 0 <= i < |args| ==> ValidArg(args[i])
  }

  /** Argument `i` is the first one `gatherArgs` rejects. */
  predicate FirstRejected(params: Record, body: Record, args: seq<Value>, i: int)
    requires AllValidArgs(args)
  {
    && 0 <= i < |args|
    && !ArgAccepted(params, body, args[i])
    && forall j :: 0 <= j < i ==> ArgAccepted(params, body, args[j])
  }

  /** The first rejected argument of the tail, behind an accepted head, is the first rejected one. */
  lemma FirstRejectedCons(params: Record, body: Record, args: seq<Value>, k: int)
    requires |args| >= 1 && AllValidArgs(args) && ArgAccepted(params, body, args[0])
    requires AllValidArgs(args[1..]) && FirstRejected(params, body, args[1..], k)
    ensures FirstRejected(params, body, args, k + 1) && args[k + 1] == args[1..][k]
  {
    forall j | 0 <= j < k + 1
      ensures ArgAccepted(params, body, args[j])
    {
      if j > 0 {
        assert args[j] == args[1..][j - 1];
      }
    }
  }

  /**
   * `gatherArgs`: each declared argument from the path parameters (`fromPath`) or the
   * body, in order; a required one that is absent, or a value of another type (an
   * absent optional one included), throws. The call succeeds exactly when every
   * argument is accepted, and otherwise throws for the first argument that is not.
   */
  function GatherArgs(params: Record, body: Record, args: seq<Value>): (r: Result<seq<Value>, Failure>)
    requires AllValidArgs(args)
    ensures r.Ok? <==> forall i :: 0 <= i < |args| ==> ArgAccepted(params, body, args[i])
    ensures r.Ok? ==> |r.value| == |args|
    ensures r.Ok? ==> forall i :: 0 <= i < |args| ==>
      && r.value[i] == Lookup(ArgSource(params, body, args[i]), ArgName(args[i]))
      && CheckType(r.value[i], ArgType(args[i]))
    ensures r.Err? ==> exists i :: FirstRejected(params, body, args, i) && r.error == ArgFailure(params, body, args[i])
  {
    if args == [] then Ok([])
    else
      var a := args[0];
      var source := ArgSource(params, body, a);
      if Truthy(Get(a, "required")) && ArgName(a) !in source then
        assert FirstRejected(params, body, args, 0);
        Err(PlainError(ArgName(a) + " is required"))
      else if !CheckType(Lookup(source, ArgName(a)), ArgType(a)) then
        assert FirstRejected(params, body, args, 0);
        Err(PlainError(ArgName(a) + " is not of type " + ArgType(a)))
      else
        assert AllValidArgs(args[1..]) by {
          assert forall i :: 0 <= i < |args[1..]| ==> args[1..][i] == args[i + 1];
        }
        match GatherArgs(params, body, args[1..])
        case Err(e) =>
          var k :| FirstRejected(params, body, args[1..], k) && e == ArgFailure(params, body, args[1..][k]);
          FirstRejectedCons(params, body, args, k);
          Err(e)
        case Ok(rest) =>
          assert forall i :: 1 <= i < |args| ==> args[i] == args[1..][i - 1];
          Ok([Lookup(source, ArgName(a))] + rest)
  }

  /** An optional argument that is absent still fails its type check unless its type is `undefined`. */
  lemma AbsentOptionalArgIsRejected(params: Record, body: Record, a: Value)
    requires ValidArg(a) && !Truthy(Get(a, "fromPath")) && !Truthy(Get(a, "required"))
    requires ArgName(a) !in body && Lower(ArgType(a)) != "undefined"
    ensures GatherArgs(params, body, [a]) == Err(PlainError(ArgName(a) + " is not of type " + ArgType(a)))
  {
    TagLowersToLowerTag(Undefined);
  }

  /** How a request handler ends: a reply with a status and body, or an error passed to `next`. */
  datatype Outcome = Reply(status: int, body: Value) | Forward(err: Failure)

  /** `wrapEndpoint`: 200 with the function's result, or the error to `next`. */
  function WrapEndpoint(params: Record, body: Record, args: seq<Value>, call: AdapterFn): (r: Outcome)
    requires forall i :: 0 <= i < |args| ==> ValidArg(args[i])
    ensures GatherArgs(params, body, args).Err? ==> r == Forward(GatherArgs(params, body, args).error)
    ensures (exists i :: 0 <= i < |args| && !ArgAccepted(params, body, args[i])) ==>
      exists i :: FirstRejected(params, body, args, i) && r == Forward(ArgFailure(params, body, args[i]))
    ensures r.Reply? ==> r.status == 200 && forall i :: 0 <= i < |args| ==> ArgAccepted(params, body, args[i])
    ensures GatherArgs(params, body, args).Ok? ==>
      r == match call(GatherArgs(params, body, args).value)
           case Ok(v) => Reply(200, v)
           case Err(e) => Forward(e)
  {
    match GatherArgs(params, body, args)
    case Err(e) => Forward(e)
    case Ok(values) =>
      match call(values)
      case Ok(v) => Reply(200, v)
      case Err(e) => Forward(e)
  }

  /* ---------- the model ---------- */

  /** What a model's method slot `this[name]` holds. */
  datatype Binding = Operation(op: Op) | Unsupported(message: string) | EndpointFn(fnName: string)

  /** `methodUnsupportedError`'s message. */
  function UnsupportedMessage(op: Op, adapterName: string): (r: string)
    ensures |r| >= |Describe(op).name| + |adapterName|
    ensures r[..|Describe(op).name|] == Describe(op).name
    ensures r[|r| - |adapterName|..] == adapterName
  {
    Describe(op).name + " is not supported by adapter " + adapterName
  }

  /** The slot `build` leaves for one operation. */
  function SlotFor(op: Op, adapterName: string, provided: set<string>): Binding {
    if Describe(op).name in provided then Operation(op) else Unsupported(UnsupportedMessage(op, adapterName))
  }

  /** The slots `build` writes for the listed operations, later entries last. */
  function BuiltSlots(ops: seq<Op>, adapterName: string, provided: set<string>): (r: map<string, Binding>)
    ensures forall k :: k in r ==> OpNamed(k).Some?
  {
    if ops == [] then map[]
    else
      var last := ops[|ops| - 1];
      OperationTable(last);
      BuiltSlots(ops[..|ops| - 1], adapterName, provided)[Describe(last).name := SlotFor(last, adapterName, provided)]
  }

  lemma BuiltSlotsSnoc(ops: seq<Op>, op: Op, adapterName: string, provided: set<string>)
    ensures BuiltSlots(ops + [op], adapterName, provided) ==
            BuiltSlots(ops, adapterName, provided)[Describe(op).name := SlotFor(op, adapterName, provided)]
  {
    assert (ops + [op])[..|ops|] == ops;
  }

  lemma SlotsStep(start: map<string, Binding>, ops: seq<Op>, i: nat, adapterName: string, provided: set<string>)
    requires i < |ops|
    ensures start + BuiltSlots(ops[..i + 1], adapterName, provided) ==
            (start + BuiltSlots(ops[..i], adapterName, provided))[Describe(ops[i]).name := SlotFor(ops[i], adapterName, provided)]
  {
    assert ops[..i + 1] == ops[..i] + [ops[i]];
    BuiltSlotsSnoc(ops[..i], ops[i], adapterName, provided);
  }

  /**
   * After `build` every operation's slot holds the wrapped operation when the adapter
   * provides it and the unsupported-operation thrower otherwise; no other slot is written.
   */
  lemma {:induction false} BuildBindsEveryOperation(ops: seq<Op>, adapterName: string, provided: set<string>, op: Op)
    requires op in ops
    ensures Describe(op).name in BuiltSlots(ops, adapterName, provided)
    ensures BuiltSlots(ops, adapterName, provided)[Describe(op).name] == SlotFor(op, adapterName, provided)
  {
    var last := ops[|ops| - 1];
    if last != op {
      assert ops == ops[..|ops| - 1] + [last];
      assert op in ops[..|ops| - 1];
      BuildBindsEveryOperation(ops[..|ops| - 1], adapterName, provided, op);
      OperationTable(last);
      OperationTable(op);
    }
  }

  class Model {
    const modelName: string
    const modelProperties: Schema
    const hiddenFields: set<string>
    /** `operationHookQueue.before` and `.after`. */
    var before: Queue
    var after: Queue
    var instanceMethods: set<string>
    var publicEndpoints: seq<Endpoint>
    var slots: map<string, Binding>

    /**
     * The base schema overlaid by the author's properties (`properties || {}`); the
     * hidden fields are the keys marked `hidden: true`.
     */
    constructor(name: string, baseSchema: Schema, properties: Option<Schema>)
      ensures modelName == name
      ensures modelProperties == baseSchema + (if properties.Some? then properties.value else map[])
      ensures hiddenFields == HiddenFields(modelProperties)
      ensures before == map[] && after == map[] && instanceMethods == {}
      ensures publicEndpoints == [] && slots == map[]
    {
      modelName := name;
      var props := baseSchema + (if properties.Some? then properties.value else map[]);
      modelProperties := props;
      hiddenFields := HiddenFields(props);
      before := map[];
      after := map[];
      instanceMethods := {};
      publicEndpoints := [];
      slots := map[];
    }

    /**
     * `hook('phase operation', fn)`: the first two words of the descriptor; with either
     * missing nothing changes; `before`/`after` get `fn` appended to the operation's list;
     * any other phase throws.
     */
    method Hook(descriptor: string, fn: HookFn) returns (r: Option<Failure>)
      modifies this
      ensures var words := Split(descriptor, ' ');
        var phase := words[0];
        var operation := if |words| > 1 then words[1] else "";
        && (phase == "" || operation == "" ==> r.None? && before == old(before) && after == old(after))
        && (phase == "before" && operation != "" ==>
              r.None? && before == old(before)[operation := HooksFor(old(before), operation) + [fn]] && after == old(after))
        && (phase == "after" && operation != "" ==>
              r.None? && after == old(after)[operation := HooksFor(old(after), operation) + [fn]] && before == old(before))
        && (phase !in {"", "before", "after"} && operation != "" ==>
              r.Some? && before == old(before) && after == old(after))
      ensures instanceMethods == old(instanceMethods) && publicEndpoints == old(publicEndpoints) && slots == old(slots)
    {
      var words := Split(descriptor, ' ');
      var phase := words[0];
      var operation := if |words| > 1 then words[1] else "";
      if phase == "" || operation == "" {
        return None;
      }
      if phase == "before" {
        before := before[operation := HooksFor(before, operation) + [fn]];
      } else if phase == "after" {
        after := after[operation := HooksFor(after, operation) + [fn]];
      } else {
        return Some(PlainError("Cannot set properties of undefined (setting '" + operation + "')"));
      }
      r := None;
    }

    /** `addInstanceMethod`: the name is bound onto every later result. */
    method AddInstanceMethod(name: string)
      modifies this
      ensures instanceMethods == old(instanceMethods) + {name}
      ensures before == old(before) && after == old(after)
      ensures publicEndpoints == old(publicEndpoints) && slots == old(slots)
    {
      instanceMethods := instanceMethods + {name};
    }

    /**
     * `build`: each table operation becomes an unsupported-operation thrower, replaced by
     * the hook-wrapped adapter operation when the adapter provides it.
     */
    method Build(adapterName: string, provided: set<string>)
      modifies this
      ensures slots == old(slots) + BuiltSlots(AllOps, adapterName, provided)
      ensures before == old(before) && after == old(after)
      ensures instanceMethods == old(instanceMethods) && publicEndpoints == old(publicEndpoints)
    {
      var bound := slots;
      var i := 0;
      while i < |AllOps|
        invariant 0 <= i <= |AllOps|
        invariant bound == old(slots) + BuiltSlots(AllOps[..i], adapterName, provided)
        invariant before == old(before) && after == old(after)
        invariant instanceMethods == old(instanceMethods) && publicEndpoints == old(publicEndpoints)
      {
        var op := AllOps[i];
        var name := Describe(op).name;
        ghost var prior := bound;
        bound := bound[name := Unsupported(UnsupportedMessage(op, adapterName))];
        if name in provided {
          bound := bound[name := Operation(op)];
        }
        assert bound == prior[name := SlotFor(op, adapterName, provided)];
        SlotsStep(old(slots), AllOps, i, adapterName, provided);
        i := i + 1;
      }
      assert AllOps[..|AllOps|] == AllOps;
      slots := bound;
    }

    /**
     * `filterHiddenProps(data)`: deletes, in place, every hidden field holding a truthy
     * value, recursing through arrays.
     */
    method FilterHiddenProps(data: Value) returns (r: Value)
      ensures r == FilterHidden(hiddenFields, data)
      decreases data
    {
      match data {
        case Arr(items) =>
          var out: seq<Value> := [];
          var i := 0;
          while i < |items|
            invariant 0 <= i <= |items|
            invariant |out| == i
            invariant forall j :: 0 <= j < i ==> out[j] == FilterHidden(hiddenFields, items[j])
          {
            var one := FilterHiddenProps(items[i]);
            out := out + [one];
            i := i + 1;
          }
          r := Arr(out);
        case Obj(fields) =>
          var kept := fields;
          var pending := hiddenFields;
          while pending != {}
            invariant pending <= hiddenFields
            invariant kept == map k | k in fields && !(k in hiddenFields - pending && Truthy(fields[k])) :: fields[k]
            decreases pending
          {
            var f :| f in pending;
            pending := pending - {f};
            if f in kept && Truthy(kept[f]) {
              kept := kept - {f};
            }
          }
          r := Obj(kept);
        case _ =>
          r := data;
      }
    }

    /**
     * A call through the model's method slot: the hook-wrapped operation, the
     * unsupported-operation error `build` left there, or, when a custom endpoint was
     * registered under the operation's name, that endpoint's function (`custom`).
     */
    function Call(op: Op, args: seq<Value>, adapter: AdapterFn, custom: string -> AdapterFn): (r: Result<Value, Failure>)
      reads this
      ensures Describe(op).name !in slots ==> r.Err?
      ensures Describe(op).name in slots && slots[Describe(op).name] == Operation(op) ==>
        r == Invoke(modelName, op, args, adapter, before, after, instanceMethods)
      ensures Describe(op).name in slots && slots[Describe(op).name].Unsupported? ==>
        r == Err(PlainError(slots[Describe(op).name].message))
      ensures Describe(op).name in slots && slots[Describe(op).name].EndpointFn? ==>
        r == custom(slots[Describe(op).name].fnName)(args)
    {
      var name := Describe(op).name;
      if name !in slots then Err(PlainError("this." + name + " is not a function"))
      else match slots[name]
        case Operation(o) =>
          if o == op then Invoke(modelName, op, args, adapter, before, after, instanceMethods)
          else Err(PlainError(name + " is not a function"))
        case Unsupported(message) => Err(PlainError(message))
        case EndpointFn(fnName) => custom(fnName)(args)
    }

    /**
     * `rest(op, ...args)`: the call's own result; for the instance-returning operations
     * its truthy hidden fields are removed and nothing else changes, and errors pass through.
     */
    function Rest(op: Op, args: seq<Value>, adapter: AdapterFn, custom: string -> AdapterFn): (r: Result<Value, Failure>)
      reads this
      ensures r == RestResult(hiddenFields, op, Call(op, args, adapter, custom))
      ensures Call(op, args, adapter, custom).Err? ==> r == Call(op, args, adapter, custom)
      ensures Describe(op).returnsInstance && Call(op, args, adapter, custom).Ok? ==>
        r.Ok? && NoHiddenValues(hiddenFields, r.value) && Pruned(hiddenFields, Call(op, args, adapter, custom).value, r.value)
      ensures !Describe(op).returnsInstance ==> r == Call(op, args, adapter, custom)
    {
      var c := Call(op, args, adapter, custom);
      assert Describe(op).returnsInstance && c.Ok? ==>
        NoHiddenValues(hiddenFields, RestResult(hiddenFields, op, c).value) &&
        Pruned(hiddenFields, c.value, RestResult(hiddenFields, op, c).value) by {
        if Describe(op).returnsInstance && c.Ok? {
          FilterHiddenSound(hiddenFields, c.value);
        }
      }
      RestResult(hiddenFields, op, c)
    }

    /**
     * `registerEndpoint(fn, options)`: throws without a function or for invalid options;
     * otherwise the endpoint is built, listed as public unless `private`, and the function
     * is bound as the method `options.name`.
     */
    method RegisterEndpoint(fnName: Option<string>, options: Value, idPathRegex: string) returns (r: Option<Failure>)
      modifies this
      ensures fnName.None? ==> r == Some(PlainError("Must include a function to register endpoint"))
      ensures fnName.Some? && IsPrimitive(options) ==> r == Some(ModelNameAssignError(options))
      ensures fnName.Some? && !IsPrimitive(options) ==> (r.None? <==> ValidOptions(options))
      ensures fnName.Some? && !IsPrimitive(options) && r.Some? ==> r == ValidateEndpointOptions(options)
      ensures r.Some? ==> publicEndpoints == old(publicEndpoints) && slots == old(slots)
      ensures r.None? ==>
        var e := BuildEndpoint(modelName, idPathRegex, options, fnName.value);
        && publicEndpoints == old(publicEndpoints) + (if Truthy(Get(options, "private")) then [] else [e])
        && slots == old(slots)[options.fields["name"].s := EndpointFn(fnName.value)]
      ensures before == old(before) && after == old(after) && instanceMethods == old(instanceMethods)
    {
      if fnName.None? {
        return Some(PlainError("Must include a function to register endpoint"));
      }
      if IsPrimitive(options) {
        return Some(ModelNameAssignError(options));
      }
      var invalid := ValidateEndpointOptions(options);
      if invalid.Some? {
        return invalid;
      }
      var endpoint := BuildEndpoint(modelName, idPathRegex, options, fnName.value);
      if !Truthy(Get(options, "private")) {
        publicEndpoints := publicEndpoints + [endpoint];
      }
      slots := slots[options.fields["name"].s := EndpointFn(fnName.value)];
      r := None;
    }
  }
}
