/**
 * The data regulariser (lib/utils/regularize-data.js): filters a raw field map down to
 * the fields a schema declares and casts each value to its declared type.
 */
module Regularize {
  import opened Wrappers
  import opened Strings
  import opened Values

  /** A schema entry: a bare type name (`'string'`) or a descriptor object (`{type, ...}`). */
  datatype FieldSpec = Shorthand(typeName: string) | Descriptor(attrs: map<string, Value>)

  type Schema = map<string, FieldSpec>

  /** `entry.name`; a bare type name is a string and has none of the descriptor's attributes. */
  function Attr(f: FieldSpec, name: string): Value {
    if f.Descriptor? && name in f.attrs then f.attrs[name] else Undefined
  }

  /** The entry names its type with a string, so `type.toLowerCase()` can be called. */
  predicate HasTypeName(f: FieldSpec) {
    f.Shorthand? || Attr(f, "type").Str?
  }

  /** The lower-cased declared type: `.type` of a descriptor, or the bare name itself. */
  function DeclaredType(f: FieldSpec): string
    requires HasTypeName(f)
  {
    Lower(if f.Shorthand? then f.typeName else Attr(f, "type").s)
  }

  /** Every raw key the schema declares has a type name (otherwise the source throws). */
  predicate Castable(schema: Schema, raw: Record) {
    forall k :: k in raw && k in schema ==> HasTypeName(schema[k])
  }

  /** The sentinel `castToType` returns for a failed cast. */
  const CastFailed: Value := Num(-1)

  /** The value's own type, lower-cased, as the regulariser compares it. */
  function RuntimeType(v: Value): string {
    Lower(TypeTag(v))
  }

  /** `castToType(value, type)` for an already lower-cased type name. */
  function CastToType(host: Host, v: Value, t: string): (r: Value)
    ensures t == "string" ==> r == Str(Text(host, v))
    ensures t == "boolean" ==> r == Bool(v != Str("false") && Truthy(v))
    ensures t == "number" ==>
      (r == CastFailed <==> NumberOf(host, v).None? || NumberOf(host, v) == Some(-1))
    ensures t == "number" && NumberOf(host, v).Some? ==> r == Num(NumberOf(host, v).value)
    ensures t == "date" ==> (r == CastFailed <==> !host.isIsoDate(Text(host, v)))
    ensures t == "date" && host.isIsoDate(Text(host, v)) ==> r == Date(host.parseDate(Text(host, v)))
    ensures t !in {"number", "string", "boolean", "date"} ==> r == CastFailed
    ensures r != CastFailed ==> RuntimeType(r) == t
  {
    match t
    case "number" => (match NumberOf(host, v) case None => CastFailed case Some(n) => Num(n))
    case "string" => Str(Text(host, v))
    case "boolean" => if v == Str("false") then Bool(false) else Bool(Truthy(v))
    case "date" =>
      var text := Text(host, v);
      if host.isIsoDate(text) then Date(host.parseDate(text)) else CastFailed
    case _ => CastFailed
  }

  /**
   * What one field of the input becomes: kept as it is when its type already matches,
   * the cast value when the cast succeeds, and on failure either nothing (strict) or
   * the original value (non-strict).
   */
  function RegularizeField(host: Host, t: string, v: Value, strict: bool): Option<Value> {
    if RuntimeType(v) == t then Some(v)
    else
      var castValue := CastToType(host, v, t);
      if StrictEq(castValue, CastFailed) then (if strict then None else Some(v))
      else Some(castValue)
  }

  /** The regulariser's result: the declared fields of `raw`, each regularised. */
  function Regularized(host: Host, schema: Schema, raw: Record, strict: bool): (o: Record)
    requires Castable(schema, raw)
    ensures forall k :: k in o ==> k in raw && k in schema
    ensures !strict ==> forall k :: k in raw && k in schema ==> k in o
    ensures strict ==> forall k :: k in raw && k in schema ==>
      (k in o <==> RuntimeType(raw[k]) == DeclaredType(schema[k]) ||
                   CastToType(host, raw[k], DeclaredType(schema[k])) != CastFailed)
    ensures forall k :: k in o ==>
      o[k] == raw[k] || o[k] == CastToType(host, raw[k], DeclaredType(schema[k]))
  {
    map k | k in raw && k in schema && RegularizeField(host, DeclaredType(schema[k]), raw[k], strict).Some?
      :: RegularizeField(host, DeclaredType(schema[k]), raw[k], strict).value
  }

  /** The exported regulariser: a `for…in` loop that fills a fresh map. */
  method RegularizeData(host: Host, schema: Schema, raw: Record, strict: bool) returns (o: Record)
    requires Castable(schema, raw)
    ensures o == Regularized(host, schema, raw, strict)
  {
    o := map[];
    var pending := raw.Keys;
    while pending != {}
      invariant pending <= raw.Keys
      invariant forall k :: k in o <==>
        k in raw && k !in pending && k in schema &&
        RegularizeField(host, DeclaredType(schema[k]), raw[k], strict).Some?
      invariant forall k :: k in o ==> o[k] == RegularizeField(host, DeclaredType(schema[k]), raw[k], strict).value
      decreases pending
    {
      var key :| key in pending;
      pending := pending - {key};
      if key !in schema {
        continue;
      }
      var t := DeclaredType(schema[key]);
      if RuntimeType(raw[key]) == t {
        o := o[key := raw[key]];
      } else {
        var castValue := CastToType(host, raw[key], t);
        if StrictEq(castValue, CastFailed) {
          if strict {
            continue;
          }
          o := o[key := raw[key]];
        } else {
          o := o[key := castValue];
        }
      }
    }
    assert o.Keys == Regularized(host, schema, raw, strict).Keys;
  }

  /** A field whose value already has the declared type is copied unchanged. */
  lemma MatchingTypeIsCopied(host: Host, schema: Schema, raw: Record, strict: bool, k: string)
    requires Castable(schema, raw) && k in raw && k in schema
    requires RuntimeType(raw[k]) == DeclaredType(schema[k])
    ensures k in Regularized(host, schema, raw, strict)
    ensures Regularized(host, schema, raw, strict)[k] == raw[k]
  {
  }

  /** On a failed cast, strict mode drops the key and non-strict mode keeps the raw value. */
  lemma FailedCastHandling(host: Host, schema: Schema, raw: Record, strict: bool, k: string)
    requires Castable(schema, raw) && k in raw && k in schema
    requires RuntimeType(raw[k]) != DeclaredType(schema[k])
    requires CastToType(host, raw[k], DeclaredType(schema[k])) == CastFailed
    ensures strict ==> k !in Regularized(host, schema, raw, strict)
    ensures !strict ==> k in Regularized(host, schema, raw, strict) &&
                        Regularized(host, schema, raw, strict)[k] == raw[k]
  {
  }

  /** A field whose value has another type and casts successfully holds the cast value. */
  lemma SuccessfulCastIsStored(host: Host, schema: Schema, raw: Record, strict: bool, k: string)
    requires Castable(schema, raw) && k in raw && k in schema
    requires RuntimeType(raw[k]) != DeclaredType(schema[k])
    requires CastToType(host, raw[k], DeclaredType(schema[k])) != CastFailed
    ensures k in Regularized(host, schema, raw, strict)
    ensures Regularized(host, schema, raw, strict)[k] == CastToType(host, raw[k], DeclaredType(schema[k]))
  {
  }

  /**
   * Because of the sentinel, a value that casts to the number -1 counts as a failed cast:
   * the string "-1" on a number field is dropped in strict mode and kept as a string
   * otherwise.
   */
  lemma MinusOneIsTreatedAsFailure(host: Host, strict: bool)
    requires host.parseNumber("-1") == Some(-1)
    ensures var o := Regularized(host, map["n" := Shorthand("number")], map["n" := Str("-1")], strict);
      (strict ==> "n" !in o) && (!strict ==> o == map["n" := Str("-1")])
  {
    var schema := map["n" := Shorthand("number")];
    assert DeclaredType(schema["n"]) == "number";
    assert RuntimeType(Str("-1")) == "string";
  }

  /** A value the regulariser keeps for a field is kept unchanged by a second pass. */
  lemma KeptValueIsFixed(host: Host, t: string, v: Value, strict: bool)
    requires RegularizeField(host, t, v, strict).Some?
    ensures RegularizeField(host, t, RegularizeField(host, t, v, strict).value, strict) ==
            RegularizeField(host, t, v, strict)
  {
    if RuntimeType(v) != t {
      var c := CastToType(host, v, t);
      if !StrictEq(c, CastFailed) {
        assert c != CastFailed;
      }
    }
  }

  /**
   * Regularising twice gives the same result as regularising once, in both modes: every
   * kept value either has the declared type already or is a value whose cast fails again.
   */
  lemma {:induction false} RegularizeIdempotent(host: Host, schema: Schema, raw: Record, strict: bool)
    requires Castable(schema, raw)
    ensures Castable(schema, Regularized(host, schema, raw, strict))
    ensures Regularized(host, schema, Regularized(host, schema, raw, strict), strict)
         == Regularized(host, schema, raw, strict)
  {
    var once := Regularized(host, schema, raw, strict);
    var twice := Regularized(host, schema, once, strict);
    forall k | k in once
      ensures RegularizeField(host, DeclaredType(schema[k]), once[k], strict) == Some(once[k])
    {
      KeptValueIsFixed(host, DeclaredType(schema[k]), raw[k], strict);
    }
    assert twice.Keys == once.Keys;
  }
}
