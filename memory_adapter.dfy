/**
 * The in-memory storage adapter (lib/adapters/memory-adapter.js): per-collection record
 * arrays with a per-collection id counter, a query matcher with comparison operators,
 * defaults and required-field checks on create, merging updates and filtering deletes.
 */
module Memory {
  import opened Wrappers
  import opened Strings
  import opened Values
  import opened Errors
  import opened Regularize

  /* ---------- query matching (searchCollection, matchItem, compare) ---------- */

  /** The primitive a value turns into before `<`/`>` compare it (dates by time). */
  function ToPrimitive(host: Host, v: Value): Value {
    match v
    case Arr(_) => Str(Text(host, v))
    case Obj(_) => Str(Text(host, v))
    case Fn(_) => Str(Text(host, v))
    case Date(t) => Num(t)
    case _ => v
  }

  /** Lexicographic order of two strings by character code: -1, 0 or 1. */
  function CompareStrings(a: string, b: string): (r: int)
    ensures r == 0 <==> a == b
    ensures r in {-1, 0, 1}
  {
    if |a| == 0 && |b| == 0 then 0
    else if |a| == 0 then -1
    else if |b| == 0 then 1
    else if a[0] < b[0] then -1
    else if a[0] > b[0] then 1
    else
      var r := CompareStrings(a[1..], b[1..]);
      assert r == 0 ==> a == [a[0]] + a[1..] == [b[0]] + b[1..] == b;
      r
  }

  /**
   * The outcome of JavaScript's relational comparison of `a` with `b`: -1, 0 or 1, or
   * None when a side is NaN (then `<`, `<=`, `>` and `>=` are all false). Two strings
   * compare lexicographically, anything else numerically.
   */
  function Order(host: Host, a: Value, b: Value): (r: Option<int>)
    ensures r.Some? ==> r.value in {-1, 0, 1}
    ensures a.Str? && b.Str? ==> r == Some(CompareStrings(a.s, b.s))
    ensures a.Num? && b.Num? ==> r == Some(if a.n < b.n then -1 else if a.n == b.n then 0 else 1)
  {
    var pa := ToPrimitive(host, a);
    var pb := ToPrimitive(host, b);
    if pa.Str? && pb.Str? then Some(CompareStrings(pa.s, pb.s))
    else match (NumberOf(host, pa), NumberOf(host, pb))
      case (Some(x), Some(y)) => Some(if x < y then -1 else if x == y then 0 else 1)
      case _ => None
  }

  /**
   * `list.indexOf(v) >= 0`: for an array operand some element is `===` to `v`; for a
   * string operand `String(v)` occurs in it as a substring.
   */
  predicate InList(host: Host, v: Value, list: Value)
    ensures list.Arr? && InList(host, v, list) ==> v in list.items && !v.Obj? && !v.Arr?
    ensures !list.Arr? && !list.Str? ==> !InList(host, v, list)
  {
    match list
    case Arr(items) => exists i :: 0 <= i < |items| && StrictEq(items[i], v)
    case Str(s) => IndexOf(s, Text(host, v)).Some?
    case _ => false
  }

  /** `compare(v1, v2, operator)`; an unknown operator falls back to `===`. */
  predicate Compare(host: Host, v1: Value, v2: Value, op: string)
    ensures op !in {"$gt", "$gte", "$lt", "$lte", "$in", "$nin", "$ne"} ==>
      (Compare(host, v1, v2, op) <==> v1 == v2 && (v1.Undefined? || v1.Null? || v1.Bool? || v1.Num? || v1.Str?))
  {
    match op
    case "$gt" => Order(host, v1, v2) == Some(1)
    case "$gte" => Order(host, v1, v2) == Some(1) || Order(host, v1, v2) == Some(0)
    case "$lt" => Order(host, v1, v2) == Some(-1)
    case "$lte" => Order(host, v1, v2) == Some(-1) || Order(host, v1, v2) == Some(0)
    case "$in" => InList(host, v1, v2)
    case "$nin" => !InList(host, v1, v2)
    case "$ne" => !StrictEq(v1, v2)
    case _ => StrictEq(v1, v2)
  }

  /** Comparing two strings the other way round flips the answer. */
  lemma {:induction false} CompareStringsAntisymmetric(a: string, b: string)
    ensures CompareStrings(b, a) == -CompareStrings(a, b)
  {
    if |a| > 0 && |b| > 0 && a[0] == b[0] {
      CompareStringsAntisymmetric(a[1..], b[1..]);
    }
  }

  /**
   * The relational order is antisymmetric: swapping the operands negates it, and NaN on
   * either side stays NaN; so `{f: {$gt: v}}` holds exactly when `v < f` does.
   */
  lemma OrderAntisymmetric(host: Host, a: Value, b: Value)
    ensures Order(host, b, a) == (if Order(host, a, b).Some? then Some(-Order(host, a, b).value) else None)
    ensures Compare(host, a, b, "$gt") <==> Compare(host, b, a, "$lt")
    ensures Compare(host, a, b, "$gte") <==> Compare(host, b, a, "$lte")
  {
    var pa := ToPrimitive(host, a);
    var pb := ToPrimitive(host, b);
    if pa.Str? && pb.Str? {
      CompareStringsAntisymmetric(pa.s, pb.s);
    }
  }

  /** `$nin` and `$ne` are the complements of `$in` and `$eq`; `$gte`/`$lte` add equality to `$gt`/`$lt`. */
  lemma CompareComplements(host: Host, v1: Value, v2: Value)
    ensures Compare(host, v1, v2, "$nin") <==> !Compare(host, v1, v2, "$in")
    ensures Compare(host, v1, v2, "$ne") <==> !Compare(host, v1, v2, "$eq")
    ensures Compare(host, v1, v2, "$gte") <==> Compare(host, v1, v2, "$gt") || Order(host, v1, v2) == Some(0)
    ensures Compare(host, v1, v2, "$lte") <==> Compare(host, v1, v2, "$lt") || Order(host, v1, v2) == Some(0)
  {
  }

  /**
   * One predicate key: an object value is an operator map whose every operator must
   * hold against the record's field; any other value must equal the field (`===`).
   */
  predicate MatchKey(host: Host, item: Record, key: string, expected: Value) {
    if expected.Obj? then
      forall op :: op in expected.fields ==> Compare(host, Lookup(item, key), expected.fields[op], op)
    else StrictEq(Lookup(item, key), expected)
  }

  /** `matchItem`: every key of the predicate holds; the empty predicate matches anything. */
  predicate MatchItem(host: Host, item: Record, pattern: Record)
    ensures pattern == map[] ==> MatchItem(host, item, pattern)
    ensures MatchItem(host, item, pattern) ==>
      forall k :: k in pattern && !pattern[k].Obj? ==> Lookup(item, k) == pattern[k]
  {
    forall k :: k in pattern ==> MatchKey(host, item, k, pattern[k])
  }

  /** `searchCollection(set, predicate)`: the matching records, in storage order. */
  function SearchAll(host: Host, data: seq<Record>, q: Record): (r: seq<Record>)
    ensures |r| <= |data|
  {
    if |data| == 0 then []
    else (if MatchItem(host, data[0], q) then [data[0]] else []) + SearchAll(host, data[1..], q)
  }

  /** The records `filter(item => !matchItem(item, query))` keeps, in storage order. */
  function RejectAll(host: Host, data: seq<Record>, q: Record): (r: seq<Record>)
    ensures |r| <= |data|
    ensures forall x :: x in r ==> x in data
  {
    if |data| == 0 then []
    else (if MatchItem(host, data[0], q) then [] else [data[0]]) + RejectAll(host, data[1..], q)
  }

  /** Index of the record `searchCollection(set, predicate, true)` (`Array.find`) returns. */
  function FirstMatch(host: Host, data: seq<Record>, q: Record): (r: Option<nat>)
    ensures r.Some? ==> r.value < |data| && MatchItem(host, data[r.value], q)
    ensures r.Some? ==> forall j :: 0 <= j < r.value ==> !MatchItem(host, data[j], q)
    ensures r.None? ==> forall j :: 0 <= j < |data| ==> !MatchItem(host, data[j], q)
  {
    if |data| == 0 then None
    else if MatchItem(host, data[0], q) then Some(0)
    else match FirstMatch(host, data[1..], q)
      case None => None
      case Some(i) => Some(i + 1)
  }

  /** `find` returns exactly the stored records that match the predicate. */
  lemma {:induction false} SearchAllMembers(host: Host, data: seq<Record>, q: Record, x: Record)
    ensures x in SearchAll(host, data, q) <==> x in data && MatchItem(host, x, q)
  {
    if |data| > 0 {
      SearchAllMembers(host, data[1..], q, x);
      assert data == [data[0]] + data[1..];
    }
  }

  /** `find` keeps storage order: searching a concatenation concatenates the searches. */
  lemma {:induction false} SearchAllAppend(host: Host, a: seq<Record>, b: seq<Record>, q: Record)
    ensures SearchAll(host, a + b, q) == SearchAll(host, a, q) + SearchAll(host, b, q)
  {
    if |a| > 0 {
      assert (a + b)[1..] == a[1..] + b;
      SearchAllAppend(host, a[1..], b, q);
    } else {
      assert a + b == b;
    }
  }

  /** `findOne` returns the first record `find` would return, and nothing iff `find` is empty. */
  lemma {:induction false} FirstMatchIsFirstFound(host: Host, data: seq<Record>, q: Record)
    ensures FirstMatch(host, data, q).None? <==> SearchAll(host, data, q) == []
    ensures FirstMatch(host, data, q).Some? ==>
      data[FirstMatch(host, data, q).value] == SearchAll(host, data, q)[0]
  {
    if |data| > 0 {
      FirstMatchIsFirstFound(host, data[1..], q);
    }
  }

  /** `deleteMany` removes exactly the matches: kept plus removed is the whole collection. */
  lemma {:induction false} SearchRejectPartition(host: Host, data: seq<Record>, q: Record)
    ensures |SearchAll(host, data, q)| + |RejectAll(host, data, q)| == |data|
    ensures forall x :: x in RejectAll(host, data, q) <==> x in data && !MatchItem(host, x, q)
  {
    if |data| > 0 {
      SearchRejectPartition(host, data[1..], q);
      assert data == [data[0]] + data[1..];
    }
  }

  /** An empty predicate matches every record, so `find({})` returns the whole collection. */
  lemma {:induction false} EmptyQueryFindsAll(host: Host, data: seq<Record>)
    ensures SearchAll(host, data, map[]) == data
  {
    if |data| > 0 {
      EmptyQueryFindsAll(host, data[1..]);
      assert data == [data[0]] + data[1..];
    }
  }

  /** A one-key predicate is that key's condition. */
  lemma MatchSingle(host: Host, item: Record, f: string, v: Value)
    ensures MatchItem(host, item, map[f := v]) <==> MatchKey(host, item, f, v)
  {
    var p := map[f := v];
    assert f in p && p[f] == v;
    if MatchKey(host, item, f, v) {
      forall k | k in p
        ensures MatchKey(host, item, k, p[k])
      {
        assert k == f;
      }
    }
  }

  /** A one-operator map is that operator's comparison. */
  lemma SingleOperator(host: Host, item: Record, f: string, op: string, v: Value)
    ensures MatchKey(host, item, f, Obj(map[op := v])) <==> Compare(host, Lookup(item, f), v, op)
  {
    var ops := map[op := v];
    assert op in ops && ops[op] == v;
    if Compare(host, Lookup(item, f), v, op) {
      forall o | o in ops
        ensures Compare(host, Lookup(item, f), ops[o], o)
      {
        assert o == op;
      }
    }
  }

  /** `{f: {$in: list}}` matches exactly the records whose field equals a listed value. */
  lemma InOperator(host: Host, item: Record, f: string, list: seq<Value>)
    ensures MatchItem(host, item, map[f := Obj(map["$in" := Arr(list)])]) <==>
      exists i :: 0 <= i < |list| && StrictEq(list[i], Lookup(item, f))
    ensures MatchItem(host, item, map[f := Obj(map["$nin" := Arr(list)])]) <==>
      !exists i :: 0 <= i < |list| && StrictEq(list[i], Lookup(item, f))
  {
    MatchSingle(host, item, f, Obj(map["$in" := Arr(list)]));
    SingleOperator(host, item, f, "$in", Arr(list));
    MatchSingle(host, item, f, Obj(map["$nin" := Arr(list)]));
    SingleOperator(host, item, f, "$nin", Arr(list));
  }

  /**
   * With a string operand `$in` is a substring search: `{f: {$in: s}}` matches exactly the
   * records whose field, turned into a string, occurs in `s`.
   */
  lemma InStringOperand(host: Host, item: Record, f: string, s: string)
    ensures MatchItem(host, item, map[f := Obj(map["$in" := Str(s)])]) <==>
      exists j: nat :: OccursAt(s, Text(host, Lookup(item, f)), j)
  {
    MatchSingle(host, item, f, Obj(map["$in" := Str(s)]));
    SingleOperator(host, item, f, "$in", Str(s));
    var t := Text(host, Lookup(item, f));
    var found := IndexOf(s, t);
    if found.Some? {
      assert OccursAt(s, t, found.value);
    }
  }

  /** The age 12 is found in the string "123", as `"123".indexOf(12)` is 0. */
  lemma NumberFoundInString(host: Host)
    ensures MatchItem(host, map["age" := Num(12)], map["age" := Obj(map["$in" := Str("123")])])
  {
    assert Text(host, Num(12)) == "12" by {
      assert Digits(12) == Digits(1) + [DigitChar(2)];
    }
    assert OccursAt("123", "12", 0);
    InStringOperand(host, map["age" := Num(12)], "age", "123");
  }

  /** An operator map holds only when all of its operators hold; an unknown one means `===`. */
  lemma OperatorsConjoin(host: Host, item: Record, f: string, ops: map<string, Value>, op: string)
    requires op in ops
    requires MatchItem(host, item, map[f := Obj(ops)])
    ensures Compare(host, Lookup(item, f), ops[op], op)
    ensures op !in {"$gt", "$gte", "$lt", "$lte", "$in", "$nin", "$ne"} ==> StrictEq(Lookup(item, f), ops[op])
  {
    MatchSingle(host, item, f, Obj(ops));
  }

  /* ---------- delete by id ---------- */

  /** `data.filter(item => item.id !== id)`. */
  function RemoveId(data: seq<Record>, id: Value): (r: seq<Record>)
    ensures |r| <= |data|
    ensures forall x :: x in r ==> x in data && !StrictEq(Lookup(x, "id"), id)
  {
    if |data| == 0 then []
    else (if StrictEq(Lookup(data[0], "id"), id) then [] else [data[0]]) + RemoveId(data[1..], id)
  }

  /**
   * For an id that is not an operator map, deleting by id keeps exactly the records a
   * query `{id}` does not match, and removes as many as it matches.
   */
  lemma {:induction false} RemoveIdIsRejectById(host: Host, data: seq<Record>, id: Value)
    requires !id.Obj?
    ensures RemoveId(data, id) == RejectAll(host, data, map["id" := id])
    ensures |data| - |RemoveId(data, id)| == |SearchAll(host, data, map["id" := id])|
  {
    if |data| > 0 {
      RemoveIdIsRejectById(host, data[1..], id);
      MatchSingle(host, data[0], "id", id);
    }
    SearchRejectPartition(host, data, map["id" := id]);
  }

  /** Without any record holding the id, deleting by id changes nothing. */
  lemma {:induction false} RemoveAbsentId(data: seq<Record>, id: Value)
    requires forall i :: 0 <= i < |data| ==> !StrictEq(Lookup(data[i], "id"), id)
    ensures RemoveId(data, id) == data
  {
    if |data| > 0 {
      var tail := data[1..];
      assert forall i :: 0 <= i < |tail| ==> tail[i] == data[i + 1];
      RemoveAbsentId(tail, id);
      assert RemoveId(data, id) == [data[0]] + RemoveId(tail, id);
      assert data == [data[0]] + tail;
    }
  }

  /* ---------- create helpers (processPost, checkUniqueness) ---------- */

  predicate IsRequired(f: FieldSpec) {
    f.Descriptor? && Attr(f, "required") == Bool(true)
  }

  predicate HasDefault(f: FieldSpec) {
    f.Descriptor? && "default" in f.attrs
  }

  /** Descriptor keys with a default that the data lacks. */
  function Defaults(schema: Schema, data: Record): map<string, Value> {
    map k | k in schema && HasDefault(schema[k]) && k !in data :: schema[k].attrs["default"]
  }

  /** The data with each missing defaulted field filled in; present fields are untouched. */
  function WithDefaults(schema: Schema, data: Record): (r: Record)
    ensures forall k :: k in data ==> k in r && r[k] == data[k]
    ensures forall k :: k in r ==> k in data || (k in schema && HasDefault(schema[k]))
  {
    data + Defaults(schema, data)
  }

  /** Required keys still absent once defaults are applied. */
  function MissingRequired(schema: Schema, data: Record): set<string> {
    set k | k in schema && IsRequired(schema[k]) && !HasDefault(schema[k]) && k !in data
  }

  function RequiredError(k: string): Failure {
    PlainError("\"" + k + "\" property is required")
  }

  /** The defaults among the keys already visited. */
  function DefaultsAmong(schema: Schema, data: Record, visited: set<string>): map<string, Value> {
    map k | k in visited && k in schema && HasDefault(schema[k]) && k !in data :: schema[k].attrs["default"]
  }

  lemma DefaultsAmongStep(schema: Schema, data: Record, visited: set<string>, key: string)
    requires key in schema && key !in visited
    ensures HasDefault(schema[key]) && key !in data ==>
      DefaultsAmong(schema, data, visited + {key}) == DefaultsAmong(schema, data, visited)[key := schema[key].attrs["default"]]
    ensures !(HasDefault(schema[key]) && key !in data) ==>
      DefaultsAmong(schema, data, visited + {key}) == DefaultsAmong(schema, data, visited)
  {
  }

  /** One key of `processPost`'s walk: how the target and the missing-required test move. */
  lemma VisitKey(schema: Schema, data: Record, visited: set<string>, key: string)
    requires key in schema && key !in visited
    ensures key in data + DefaultsAmong(schema, data, visited) <==> key in data
    ensures key in MissingRequired(schema, data) <==>
      schema[key].Descriptor? && Attr(schema[key], "required") == Bool(true) && "default" !in schema[key].attrs && key !in data
    ensures schema[key].Descriptor? && "default" in schema[key].attrs && key !in data ==>
      data + DefaultsAmong(schema, data, visited + {key}) ==
      (data + DefaultsAmong(schema, data, visited))[key := schema[key].attrs["default"]]
    ensures !(schema[key].Descriptor? && "default" in schema[key].attrs && key !in data) ==>
      data + DefaultsAmong(schema, data, visited + {key}) == data + DefaultsAmong(schema, data, visited)
  {
    DefaultsAmongStep(schema, data, visited, key);
  }

  lemma DefaultsAmongAll(schema: Schema, data: Record)
    ensures DefaultsAmong(schema, data, schema.Keys) == Defaults(schema, data)
  {
  }

  /**
   * `processPost`: walks the schema, fills defaults for absent keys and throws for a
   * required key that is still absent.
   */
  method ProcessPost(schema: Schema, data: Record) returns (r: Result<Record, Failure>)
    ensures r.Ok? <==> MissingRequired(schema, data) == {}
    ensures r.Ok? ==> r.value == WithDefaults(schema, data)
    ensures r.Err? ==> exists k :: k in MissingRequired(schema, data) && r.error == RequiredError(k)
  {
    var target := data;
    var pending := schema.Keys;
    ghost var visited: set<string> := {};
    while pending != {}
      invariant pending <= schema.Keys && visited == schema.Keys - pending
      invariant target == data + DefaultsAmong(schema, data, visited)
      invariant forall k :: k in MissingRequired(schema, data) ==> k in pending
      decreases pending
    {
      var key :| key in pending;
      var spec := schema[key];
      VisitKey(schema, data, visited, key);
      pending := pending - {key};
      visited := visited + {key};
      if spec.Descriptor? {
        if "default" in spec.attrs && key !in target {
          target := target[key := spec.attrs["default"]];
        }
        if Attr(spec, "required") == Bool(true) && key !in target {
          return Err(RequiredError(key));
        }
      }
    }
    DefaultsAmongAll(schema, data);
    r := Ok(target);
  }

  /** The probe `checkUniqueness` searches with: a field literally named `key`. */
  function UniquenessProbe(value: Value): Record {
    map["key" := value]
  }

  /**
   * Keys `checkUniqueness` rejects: present in the data, flagged with the attribute
   * spelled `unqiue`, and some stored record matches the probe `{key: value}`.
   */
  function Clashes(host: Host, schema: Schema, data: Record, records: seq<Record>): set<string> {
    set k | k in schema && k in data && schema[k].Descriptor? && "unqiue" in schema[k].attrs &&
            FirstMatch(host, records, UniquenessProbe(data[k])).Some?
  }

  function UniqueError(k: string): Failure {
    PlainError("\"" + k + "\" property must be unique")
  }

  /** `e` is the error `processPost` throws for some required key `data` lacks. */
  ghost predicate NamesMissingRequired(schema: Schema, data: Record, e: Failure) {
    exists k :: k in MissingRequired(schema, data) && e == RequiredError(k)
  }

  /** `e` is the error `checkUniqueness` throws for some key of `data` that clashes. */
  ghost predicate NamesClash(host: Host, schema: Schema, data: Record, records: seq<Record>, e: Failure) {
    exists k :: k in Clashes(host, schema, data, records) && e == UniqueError(k)
  }

  /** `checkUniqueness`: throws for the first clashing key it meets. */
  method CheckUniqueness(host: Host, schema: Schema, data: Record, records: seq<Record>) returns (err: Option<Failure>)
    ensures err.None? <==> Clashes(host, schema, data, records) == {}
    ensures err.Some? ==> exists k :: k in Clashes(host, schema, data, records) && err.value == UniqueError(k)
  {
    var pending := schema.Keys;
    while pending != {}
      invariant pending <= schema.Keys
      invariant forall k :: k in Clashes(host, schema, data, records) ==> k in pending
      decreases pending
    {
      var key :| key in pending;
      pending := pending - {key};
      if key !in data {
        continue;
      }
      if !schema[key].Descriptor? {
        continue;
      }
      if "unqiue" in schema[key].attrs {
        var found := FirstMatch(host, records, UniquenessProbe(data[key]));
        if found.Some? {
          assert key in Clashes(host, schema, data, records);
          return Some(UniqueError(key));
        }
      }
    }
    err := None;
  }

  /** Keys a stored record may carry: declared ones plus the adapter's timestamps. */
  predicate Conforms(schema: Schema, r: Record) {
    forall k :: k in r ==> k in schema || k == "created" || k == "modified"
  }

  predicate RecordsConform(schema: Schema, records: seq<Record>) {
    forall x :: x in records ==> Conforms(schema, x)
  }

  /**
   * The uniqueness check cannot reject while no stored record has a field named `key`,
   * unless the data's value is an object or `undefined` (an object probe is read as an
   * operator map, and `undefined` equals a missing field).
   */
  lemma UniquenessIgnoresProperFlag(host: Host, schema: Schema, data: Record, records: seq<Record>)
    requires forall i :: 0 <= i < |records| ==> "key" !in records[i]
    requires forall k :: k in data ==> !data[k].Obj? && !data[k].Undefined?
    ensures Clashes(host, schema, data, records) == {}
  {
    forall k | k in schema && k in data
      ensures FirstMatch(host, records, UniquenessProbe(data[k])).None?
    {
      forall i | 0 <= i < |records|
        ensures !MatchItem(host, records[i], UniquenessProbe(data[k]))
      {
        MatchSingle(host, records[i], "key", data[k]);
      }
    }
  }

  /** A stored record that conforms to a schema without a `key` field has no `key` field. */
  lemma ConformingRecordsLackKey(schema: Schema, records: seq<Record>)
    requires RecordsConform(schema, records) && "key" !in schema
    ensures forall i :: 0 <= i < |records| ==> "key" !in records[i]
  {
    forall i | 0 <= i < |records|
      ensures "key" !in records[i]
    {
      assert records[i] in records;
    }
  }

  /* ---------- the adapter ---------- */

  /** Every entry of the schema names its type (the schema invariant). */
  predicate SchemaWellFormed(schema: Schema) {
    forall k :: k in schema ==> HasTypeName(schema[k])
  }

  lemma WellFormedIsCastable(schema: Schema, raw: Record)
    requires SchemaWellFormed(schema)
    ensures Castable(schema, raw)
  {
  }

  /** One collection: its records and the last id handed out. */
  datatype Collection = Collection(data: seq<Record>, idIterator: nat)

  predicate DefinitionsWellFormed(defs: map<string, Schema>) {
    forall c :: c in defs ==> SchemaWellFormed(defs[c]) && "id" in defs[c]
  }

  predicate DatabaseConforms(defs: map<string, Schema>, db: map<string, Collection>) {
    forall c :: c in db ==> c in defs && RecordsConform(defs[c], db[c].data)
  }

  lemma StoreConforms(defs: map<string, Schema>, db: map<string, Collection>, c: string, coll: Collection)
    requires DatabaseConforms(defs, db) && c in defs && RecordsConform(defs[c], coll.data)
    ensures DatabaseConforms(defs, db[c := coll])
  {
  }

  lemma AppendConforms(schema: Schema, data: seq<Record>, x: Record)
    requires RecordsConform(schema, data) && Conforms(schema, x)
    ensures RecordsConform(schema, data + [x])
  {
  }

  lemma MergeConforms(host: Host, schema: Schema, data: seq<Record>, q: Record, post: Record)
    requires RecordsConform(schema, data) && Conforms(schema, post)
    ensures RecordsConform(schema, MergeMatching(host, data, q, post))
  {
    var r := MergeMatching(host, data, q, post);
    forall x | x in r
      ensures Conforms(schema, x)
    {
      var i :| 0 <= i < |r| && r[i] == x;
      assert data[i] in data;
    }
  }

  lemma UpdateAtConforms(schema: Schema, data: seq<Record>, i: nat, post: Record)
    requires i < |data| && RecordsConform(schema, data) && Conforms(schema, post)
    ensures RecordsConform(schema, data[i := data[i] + post])
  {
    assert data[i] in data;
    forall x | x in data[i := data[i] + post]
      ensures Conforms(schema, x)
    {
      var j :| 0 <= j < |data| && data[i := data[i] + post][j] == x;
      assert data[j] in data;
    }
  }

  /** Strictly regularised data, stamped with `modified`, fits the schema. */
  lemma StampedConforms(host: Host, schema: Schema, data: Record, stamp: string, now: int)
    requires stamp == "created" || stamp == "modified"
    requires SchemaWellFormed(schema)
    ensures Conforms(schema, Regularized(host, schema, data, true)[stamp := Date(now)])
  {
  }

  /** The record `create` stores before defaults: the fields plus `id` and `created`. */
  function Stamped(host: Host, schema: Schema, data: Record, id: nat, now: int): (r: Record)
    requires SchemaWellFormed(schema)
    ensures "id" in r && r["id"] == Num(id) && "created" in r && r["created"] == Date(now)
    ensures forall k :: k in r ==> k in data || k == "id" || k == "created"
  {
    Regularized(host, schema, data, true)["id" := Num(id)]["created" := Date(now)]
  }

  /** `new Error(...)` thrown by the bulk operations for an empty query. */
  function UsageError(op: string): Failure {
    PlainError("Model." + op + " requires query object argument")
  }

  /** The not-found error `update` builds: `code`/`statusCode` are 404, `status` is unset. */
  function UpdateNotFound(host: Host, collection: string, id: Value): (r: Failure)
    ensures r.Error? && r.status.None? && r.code == Some(404)
  {
    Error("Resource \"" + collection + "\" with id " + Text(host, id) + " not found.", None, Some(404))
  }

  /** `methods(name)` fails for a collection the database does not hold. */
  function MissingCollection(collection: string): Failure {
    PlainError("Unable to find model " + collection + " in database config")
  }

  /** `/\d+/.test(query.id)` when the query has an `id`, true otherwise. */
  function HasValidId(host: Host, query: Record): (r: bool)
    ensures "id" !in query ==> r
    ensures "id" in query && query["id"].Num? ==> r
  {
    if "id" in query then ContainsDigit(Text(host, query["id"])) else true
  }

  /** Every record of `data` with the fields of `post` written over it when it matches `q`. */
  function MergeMatching(host: Host, data: seq<Record>, q: Record, post: Record): (r: seq<Record>)
    ensures |r| == |data|
    ensures forall i :: 0 <= i < |data| ==> r[i] == if MatchItem(host, data[i], q) then data[i] + post else data[i]
  {
    seq(|data|, i requires 0 <= i < |data| => if MatchItem(host, data[i], q) then data[i] + post else data[i])
  }

  /**
   * What `create` does to one collection: rejects when strict regularisation leaves no
   * field; otherwise bumps the counter, stamps `id` and `created`, fills defaults, checks
   * required and unique fields and appends the record. A failed required or uniqueness
   * check still leaves the counter bumped.
   */
  ghost predicate CreateOutcome(host: Host, schema: Schema, coll: Collection, data: Record, now: int,
                                r: Result<Record, Failure>, after: Collection)
    requires SchemaWellFormed(schema)
  {
    if Regularized(host, schema, data, true) == map[] then
      r == Err(Reason("Must provide at least one valid property")) && after == coll
    else
      var stamped := Stamped(host, schema, data, coll.idIterator + 1, now);
      && (r.Ok? <==> MissingRequired(schema, stamped) == {} &&
                     Clashes(host, schema, WithDefaults(schema, stamped), coll.data) == {})
      && (r.Ok? ==> r.value == WithDefaults(schema, stamped))
      && (MissingRequired(schema, stamped) != {} ==> r.Err? && NamesMissingRequired(schema, stamped, r.error))
      && (MissingRequired(schema, stamped) == {} &&
          Clashes(host, schema, WithDefaults(schema, stamped), coll.data) != {} ==>
            r.Err? && NamesClash(host, schema, WithDefaults(schema, stamped), coll.data, r.error))
      && after == Collection(if r.Ok? then coll.data + [r.value] else coll.data, coll.idIterator + 1)
  }

  method CreateRecord(host: Host, schema: Schema, coll: Collection, data: Record, now: int)
    returns (r: Result<Record, Failure>, after: Collection)
    requires SchemaWellFormed(schema) && "id" in schema
    ensures CreateOutcome(host, schema, coll, data, now, r, after)
    ensures RecordsConform(schema, coll.data) ==> RecordsConform(schema, after.data)
  {
    WellFormedIsCastable(schema, data);
    var postData := RegularizeData(host, schema, data, true);
    if postData == map[] {
      return Err(Reason("Must provide at least one valid property")), coll;
    }
    var counter := coll.idIterator + 1;
    after := coll.(idIterator := counter);
    postData := Stamped(host, schema, data, counter, now);
    var processed := ProcessPost(schema, postData);
    if processed.Err? {
      return Err(processed.error), after;
    }
    var clash := CheckUniqueness(host, schema, processed.value, coll.data);
    if clash.Some? {
      return Err(clash.value), after;
    }
    if RecordsConform(schema, coll.data) {
      AppendConforms(schema, coll.data, processed.value);
    }
    after := Collection(coll.data + [processed.value], counter);
    r := Ok(processed.value);
  }

  class MemoryAdapter {
    const host: Host
    const idType: string
    const idPathRegex: string
    /** `this.database`: undefined until `addConnection`. */
    var database: Option<map<string, Collection>>
    var modelDefinitions: map<string, Schema>

    ghost predicate Valid()
      reads this
    {
      && idType == "number"
      && DefinitionsWellFormed(modelDefinitions)
      && (database.Some? ==> DatabaseConforms(modelDefinitions, database.value))
    }

    predicate HasCollection(collection: string)
      reads this
    {
      database.Some? && collection in database.value
    }

    constructor(host: Host)
      ensures Valid()
      ensures this.host == host && idType == "number" && idPathRegex == "\\d+"
      ensures database.None? && modelDefinitions == map[]
    {
      this.host := host;
      idType := "number";
      idPathRegex := "\\d+";
      database := None;
      modelDefinitions := map[];
    }

    /** `addConnection`: creates an empty database unless one already exists. */
    method AddConnection()
      requires Valid()
      modifies this
      ensures Valid()
      ensures database == (if old(database).None? then Some(map[]) else old(database))
      ensures modelDefinitions == old(modelDefinitions)
    {
      if database.None? {
        database := Some(map[]);
      }
    }

    /** `closeConnection` and `dropDatabase`: the database becomes empty. */
    method DropDatabase()
      requires Valid()
      modifies this
      ensures Valid()
      ensures database == Some(map[]) && modelDefinitions == old(modelDefinitions)
    {
      database := Some(map[]);
    }

    /**
     * `addModel`: forces the schema's `id` to the adapter's id type, records the schema,
     * and creates an empty collection with counter 0. Before `addConnection` there is no
     * database and the last step throws, after the schema was recorded.
     */
    method AddModel(name: string, schema: Schema) returns (ok: bool)
      requires Valid() && SchemaWellFormed(schema)
      modifies this
      ensures Valid()
      ensures modelDefinitions == old(modelDefinitions)[name := schema["id" := Shorthand(idType)]]
      ensures ok <==> old(database).Some?
      ensures ok ==> database == Some(old(database).value[name := Collection([], 0)])
      ensures !ok ==> database == old(database)
    {
      modelDefinitions := modelDefinitions[name := schema["id" := Shorthand(idType)]];
      if database.None? {
        return false;
      }
      database := Some(database.value[name := Collection([], 0)]);
      ok := true;
    }

    /** `find(query)`: the records matching the non-strictly regularised query. */
    method Find(collection: string, query: Record) returns (r: Result<seq<Record>, Failure>)
      requires Valid()
      ensures r.Err? <==> !HasCollection(collection)
      ensures r.Err? ==> r.error == MissingCollection(collection)
      ensures r.Ok? ==> r.value == SearchAll(host, database.value[collection].data,
                                             Regularized(host, modelDefinitions[collection], query, false))
    {
      if !HasCollection(collection) {
        return Err(MissingCollection(collection));
      }
      var schema := modelDefinitions[collection];
      WellFormedIsCastable(schema, query);
      var q := RegularizeData(host, schema, query, false);
      r := Ok(SearchAll(host, database.value[collection].data, q));
    }

    /** `findOne(query)`: the first matching record, if any. */
    method FindOne(collection: string, query: Record) returns (r: Result<Option<Record>, Failure>)
      requires Valid()
      ensures r.Err? <==> !HasCollection(collection)
      ensures r.Ok? ==>
        var data := database.value[collection].data;
        var i := FirstMatch(host, data, Regularized(host, modelDefinitions[collection], query, false));
        r.value == if i.Some? then Some(data[i.value]) else None
    {
      if !HasCollection(collection) {
        return Err(MissingCollection(collection));
      }
      var schema := modelDefinitions[collection];
      WellFormedIsCastable(schema, query);
      var q := RegularizeData(host, schema, query, false);
      var data := database.value[collection].data;
      var i := FirstMatch(host, data, q);
      r := Ok(if i.Some? then Some(data[i.value]) else None);
    }

    /** `findById(id)`: `findOne({id})`. */
    method FindById(collection: string, id: Value) returns (r: Result<Option<Record>, Failure>)
      requires Valid()
      ensures r.Err? <==> !HasCollection(collection)
      ensures r.Ok? ==>
        var data := database.value[collection].data;
        var i := FirstMatch(host, data, Regularized(host, modelDefinitions[collection], map["id" := id], false));
        r.value == if i.Some? then Some(data[i.value]) else None
    {
      r := FindOne(collection, map["id" := id]);
    }

    /** `create(data)` on the named collection (see `CreateRecord`). */
    method Create(collection: string, data: Record, now: int) returns (r: Result<Record, Failure>)
      requires Valid()
      modifies this
      ensures Valid()
      ensures modelDefinitions == old(modelDefinitions)
      ensures !old(HasCollection(collection)) ==> r == Err(MissingCollection(collection)) && database == old(database)
      ensures old(HasCollection(collection)) ==>
        var schema := modelDefinitions[collection];
        var coll := old(database).value[collection];
        && HasCollection(collection)
        && CreateOutcome(host, schema, coll, data, now, r, database.value[collection])
        && database.value == old(database).value[collection := database.value[collection]]
    {
      if !HasCollection(collection) {
        return Err(MissingCollection(collection));
      }
      var schema := modelDefinitions[collection];
      var after;
      r, after := CreateRecord(host, schema, database.value[collection], data, now);
      StoreConforms(modelDefinitions, database.value, collection, after);
      database := Some(database.value[collection := after]);
    }

    /**
     * `update(id, data)`: a not-found error (with `code` 404) before any write when no
     * record has the id; otherwise the strictly regularised fields and `modified` are
     * merged into the first record with that id, which is returned.
     */
    method Update(collection: string, id: Value, data: Record, now: int) returns (r: Result<Record, Failure>)
      requires Valid()
      modifies this
      ensures Valid()
      ensures modelDefinitions == old(modelDefinitions)
      ensures !old(HasCollection(collection)) ==> r == Err(MissingCollection(collection)) && database == old(database)
      ensures old(HasCollection(collection)) ==>
        var schema := modelDefinitions[collection];
        var coll := old(database).value[collection];
        var found := FirstMatch(host, coll.data, Regularized(host, schema, map["id" := id], false));
        var post := Regularized(host, schema, data, true)["modified" := Date(now)];
        && (found.None? ==> r == Err(UpdateNotFound(host, collection, id)) && database == old(database))
        && (found.Some? && Clashes(host, schema, post, coll.data) != {} ==>
              r.Err? && NamesClash(host, schema, post, coll.data, r.error) && database == old(database))
        && (found.Some? && Clashes(host, schema, post, coll.data) == {} ==>
              && r == Ok(coll.data[found.value] + post)
              && database == Some(old(database).value[collection :=
                   coll.(data := coll.data[found.value := coll.data[found.value] + post])]))
    {
      if !HasCollection(collection) {
        return Err(MissingCollection(collection));
      }
      var schema := modelDefinitions[collection];
      var coll := database.value[collection];
      WellFormedIsCastable(schema, map["id" := id]);
      var query := RegularizeData(host, schema, map["id" := id], false);
      assert "id" in query;
      if query == map[] {
        return Err(UsageError("updateMany"));
      }
      var found := FirstMatch(host, coll.data, query);
      if found.None? {
        return Err(UpdateNotFound(host, collection, id));
      }
      WellFormedIsCastable(schema, data);
      var postData := RegularizeData(host, schema, data, true);
      StampedConforms(host, schema, data, "modified", now);
      postData := postData["modified" := Date(now)];
      var clash := CheckUniqueness(host, schema, postData, coll.data);
      if clash.Some? {
        return Err(clash.value);
      }
      var merged := coll.data[found.value] + postData;
      UpdateAtConforms(schema, coll.data, found.value, postData);
      StoreConforms(modelDefinitions, database.value, collection, coll.(data := coll.data[found.value := merged]));
      database := Some(database.value[collection := coll.(data := coll.data[found.value := merged])]);
      r := Ok(merged);
    }

    /**
     * `updateMany(query, data)`: a usage error for a query that regularises to nothing;
     * otherwise merges the fields into every matching record and returns their number.
     */
    method UpdateMany(collection: string, query: Record, data: Record, now: int) returns (r: Result<nat, Failure>)
      requires Valid()
      modifies this
      ensures Valid()
      ensures modelDefinitions == old(modelDefinitions)
      ensures !old(HasCollection(collection)) ==> r == Err(MissingCollection(collection)) && database == old(database)
      ensures old(HasCollection(collection)) ==>
        var schema := modelDefinitions[collection];
        var coll := old(database).value[collection];
        var q := Regularized(host, schema, query, false);
        var post := Regularized(host, schema, data, true)["modified" := Date(now)];
        && (q == map[] ==> r == Err(UsageError("updateMany")) && database == old(database))
        && (q != map[] && Clashes(host, schema, post, coll.data) != {} ==>
              r.Err? && NamesClash(host, schema, post, coll.data, r.error) && database == old(database))
        && (q != map[] && Clashes(host, schema, post, coll.data) == {} ==>
              && r == Ok(|SearchAll(host, coll.data, q)|)
              && database == Some(old(database).value[collection :=
                   coll.(data := MergeMatching(host, coll.data, q, post))]))
    {
      if !HasCollection(collection) {
        return Err(MissingCollection(collection));
      }
      var schema := modelDefinitions[collection];
      var coll := database.value[collection];
      WellFormedIsCastable(schema, query);
      var q := RegularizeData(host, schema, query, false);
      if q == map[] {
        return Err(UsageError("updateMany"));
      }
      WellFormedIsCastable(schema, data);
      var postData := RegularizeData(host, schema, data, true);
      StampedConforms(host, schema, data, "modified", now);
      postData := postData["modified" := Date(now)];
      var clash := CheckUniqueness(host, schema, postData, coll.data);
      if clash.Some? {
        return Err(clash.value);
      }
      var updated, count := MergeAll(coll.data, q, postData);
      MergeConforms(host, schema, coll.data, q, postData);
      StoreConforms(modelDefinitions, database.value, collection, coll.(data := updated));
      database := Some(database.value[collection := coll.(data := updated)]);
      r := Ok(count);
    }

    /** The loop of `updateMany`: merges `post` into each match and counts the matches. */
    method MergeAll(data: seq<Record>, q: Record, post: Record) returns (updated: seq<Record>, count: nat)
      ensures updated == MergeMatching(host, data, q, post)
      ensures count == |SearchAll(host, data, q)|
    {
      updated := [];
      count := 0;
      var i := 0;
      while i < |data|
        invariant 0 <= i <= |data|
        invariant |updated| == i
        invariant forall j :: 0 <= j < i ==> updated[j] == if MatchItem(host, data[j], q) then data[j] + post else data[j]
        invariant count == |SearchAll(host, data[..i], q)|
      {
        var item := data[i];
        assert data[..i + 1] == data[..i] + [item];
        SearchAllAppend(host, data[..i], [item], q);
        if MatchItem(host, item, q) {
          updated := updated + [item + post];
          count := count + 1;
        } else {
          updated := updated + [item];
        }
        i := i + 1;
      }
      assert data[..|data|] == data;
    }

    /** `delete(id)`: drops every record whose `id` is the regularised id; returns how many. */
    method Delete(collection: string, id: Value) returns (r: Result<nat, Failure>)
      requires Valid()
      modifies this
      ensures Valid()
      ensures modelDefinitions == old(modelDefinitions)
      ensures !old(HasCollection(collection)) ==> r == Err(MissingCollection(collection)) && database == old(database)
      ensures old(HasCollection(collection)) ==>
        var coll := old(database).value[collection];
        var q := Regularized(host, modelDefinitions[collection], map["id" := id], false);
        var kept := RemoveId(coll.data, Lookup(q, "id"));
        && r == Ok(|coll.data| - |kept|)
        && database == Some(old(database).value[collection := coll.(data := kept)])
    {
      if !HasCollection(collection) {
        return Err(MissingCollection(collection));
      }
      var schema := modelDefinitions[collection];
      var coll := database.value[collection];
      WellFormedIsCastable(schema, map["id" := id]);
      var query := RegularizeData(host, schema, map["id" := id], false);
      var kept := RemoveId(coll.data, Lookup(query, "id"));
      StoreConforms(modelDefinitions, database.value, collection, coll.(data := kept));
      database := Some(database.value[collection := coll.(data := kept)]);
      r := Ok(|coll.data| - |kept|);
    }

    /**
     * `deleteMany(query)`: a usage error for a query that regularises to nothing;
     * otherwise keeps the non-matching records in order and returns how many matched.
     */
    method DeleteMany(collection: string, query: Record) returns (r: Result<nat, Failure>)
      requires Valid()
      modifies this
      ensures Valid()
      ensures modelDefinitions == old(modelDefinitions)
      ensures !old(HasCollection(collection)) ==> r == Err(MissingCollection(collection)) && database == old(database)
      ensures old(HasCollection(collection)) ==>
        var coll := old(database).value[collection];
        var q := Regularized(host, modelDefinitions[collection], query, false);
        && (q == map[] ==> r == Err(UsageError("deleteMany")) && database == old(database))
        && (q != map[] ==>
              && r == Ok(|SearchAll(host, coll.data, q)|)
              && database == Some(old(database).value[collection := coll.(data := RejectAll(host, coll.data, q))]))
    {
      if !HasCollection(collection) {
        return Err(MissingCollection(collection));
      }
      var schema := modelDefinitions[collection];
      var coll := database.value[collection];
      WellFormedIsCastable(schema, query);
      var q := RegularizeData(host, schema, query, false);
      if q == map[] {
        return Err(UsageError("deleteMany"));
      }
      var kept := RejectAll(host, coll.data, q);
      StoreConforms(modelDefinitions, database.value, collection, coll.(data := kept));
      database := Some(database.value[collection := coll.(data := kept)]);
      r := Ok(|SearchAll(host, coll.data, q)|);
    }
  }
}
