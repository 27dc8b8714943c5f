/**
 The field codec: configurations described by field descriptors, written to and read from
 JSON values. Types, values and JSON are data here, so that one pair of mutually recursive
 functions stands for the overload set.
 */
module Codec {
  import opened Basics

  datatype Option<T> = None | Some(value: T)

  /** Validation failures, JSON of the wrong kind, and numbers outside the field's range. */
  datatype Error = Invalid | WrongType | OutOfRange
  datatype Result<T> = Ok(value: T) | Err(error: Error)

  datatype Json =
    | Null
    | Bool(b: bool)
    | Number(n: int)
    | Real(r: real)
    | Text(s: string)
    | Array(items: seq<Json>)
    | Object(members: map<string, Json>)

  datatype Value =
    | VBool(b: bool)
    | VInt(n: int)
    | VReal(r: real)
    | VText(s: string)
    | VMap(m: map<string, string>)
    | VJson(j: Json)
    | VOpt(o: Option<Value>)
    | VVec(vs: seq<Value>)
    | VRec(vals: seq<Value>)

  datatype Width = W8 | W16 | W32 | W64

  /** The representation of a duration: an integer type, or a floating-point one. */
  datatype Rep = Whole(width: Width, signed: bool) | Fraction

  /** `TInt` covers the integers with their ranges, `TEnum` enums by their underlying type,
      `TTicks` durations by their representation, `TText` strings and paths. */
  datatype Ty =
    | TBool
    | TInt(lo: int, hi: int)
    | TEnum(width: Width, signed: bool)
    | TTicks(rep: Rep)
    | TReal
    | TText
    | TMap
    | TJson
    | TOpt(inner: Ty)
    | TVec(element: Ty)
    | TRec(schema: Schema)

  datatype Policy = Normal | Secret | Excluded | ReadOnly

  datatype Field = Field(name: string, ty: Ty, policy: Policy, init: Value)

  /** A configuration class: its fields with their declared defaults, and its validate(). */
  datatype Schema = Schema(fields: seq<Field>, validate: seq<Value> -> bool)

  predicate Writes(p: Policy) {
    p != Secret && p != Excluded
  }

  predicate Reads(p: Policy) {
    p != Excluded && p != ReadOnly
  }

  // ------------------------------------------------------------------ conversions of numbers

  function Span(w: Width): nat {
    match w
    case W8 => 256
    case W16 => TWO_16
    case W32 => TWO_32
    case W64 => TWO_64
  }

  predicate InRange(n: int, w: Width, signed: bool) {
    if signed then -(Span(w) / 2) <= n < Span(w) / 2 else 0 <= n < Span(w)
  }

  /** static_cast to an integer type: the low bits, read as that type. */
  function Cast(n: int, w: Width, signed: bool): (r: int)
    ensures InRange(r, w, signed)
  {
    var m := n % Span(w);
    if signed && m >= Span(w) / 2 then m - Span(w) else m
  }

  /** static_cast of a floating-point number to an integer: the fraction is cut off. */
  function Truncate(r: real): int {
    if r >= 0.0 then r.Floor else -(-r).Floor
  }

  // ------------------------------------------------------------------ writing

  /** `out[key] = j`: a null value becomes an object on first use. */
  function Put(out: Json, key: string, j: Json): Json {
    match out
    case Object(m) => Object(m[key := j])
    case _ => Object(map[key := j])
  }

  function Serialize(schema: Schema, vals: seq<Value>): Result<Json>
    decreases schema, |schema.fields| + 1
  {
    if schema.validate(vals) then SerializeFrom(schema, vals, 0, Null) else Err(Invalid)
  }

  function SerializeFrom(schema: Schema, vals: seq<Value>, i: nat, out: Json): Result<Json>
    decreases schema, |schema.fields| - i
  {
    if i >= |schema.fields| || i >= |vals| then Ok(out)
    else if !Writes(schema.fields[i].policy) then SerializeFrom(schema, vals, i + 1, out)
    else
      match WriteField(out, schema.fields[i].name, schema.fields[i].ty, vals[i])
      case Ok(out2) => SerializeFrom(schema, vals, i + 1, out2)
      case Err(e) => Err(e)
  }

  function WriteField(out: Json, key: string, ty: Ty, v: Value): Result<Json>
    decreases ty, 0
  {
    match (ty, v)
    case (TBool, VBool(b)) => Ok(Put(out, key, Bool(b)))
    case (TInt(_, _), VInt(n)) => Ok(Put(out, key, Number(n)))
    case (TEnum(_, _), VInt(n)) => Ok(Put(out, key, Number(Cast(n, W32, true))))
    case (TTicks(Whole(_, _)), VInt(n)) => Ok(Put(out, key, Number(Cast(n, W64, true))))
    case (TTicks(Fraction), VReal(r)) => Ok(Put(out, key, Number(Truncate(r))))
    case (TReal, VReal(r)) => Ok(Put(out, key, Real(r)))
    case (TText, VText(s)) => Ok(Put(out, key, Text(s)))
    case (TMap, VMap(m)) => Ok(Put(out, key, Object(map k | k in m :: Text(m[k]))))
    case (TJson, VJson(j)) => Ok(Put(out, key, j))
    case (TOpt(t), VOpt(o)) => if o.None? then Ok(out) else WriteField(out, key, t, o.value)
    case (TVec(t), VVec(vs)) =>
      (match WriteElements(t, vs)
       case Ok(js) => Ok(Put(out, key, Array(js)))
       case Err(e) => Err(e))
    case (TRec(s), VRec(vals)) =>
      (match Serialize(s, vals)
       case Ok(j) => Ok(Put(out, key, j))
       case Err(e) => Err(e))
    case _ => Err(WrongType)
  }

  /** Elements nest as objects, or go through a wrap object with the single key "v". */
  function WriteElements(t: Ty, vs: seq<Value>): Result<seq<Json>>
    decreases t, |vs| + 2
  {
    if vs == [] then Ok([])
    else
      match WriteElement(t, vs[0])
      case Err(e) => Err(e)
      case Ok(j) =>
        match WriteElements(t, vs[1..])
        case Err(e) => Err(e)
        case Ok(js) => Ok([j] + js)
  }

  function WriteElement(t: Ty, v: Value): Result<Json>
    decreases t, 1
  {
    if t.TRec? then if v.VRec? then Serialize(t.schema, v.vals) else Err(WrongType)
    else
      match WriteField(Object(map[]), "v", t, v)
      case Err(e) => Err(e)
      case Ok(wrap) => Ok(if wrap.Object? && "v" in wrap.members then wrap.members["v"] else Null)
  }

  // ------------------------------------------------------------------ reading

  /** The value-initialised element a read starts from. */
  function Zero(ty: Ty): Value {
    match ty
    case TBool => VBool(false)
    case TInt(_, _) => VInt(0)
    case TEnum(_, _) => VInt(0)
    case TTicks(rep) => if rep.Whole? then VInt(0) else VReal(0.0)
    case TReal => VReal(0.0)
    case TText => VText("")
    case TMap => VMap(map[])
    case TJson => VJson(Null)
    case TOpt(_) => VOpt(None)
    case TVec(_) => VVec([])
    case TRec(_) => VRec([])
  }

  /** Null converts to the zero of any scalar type; other mismatches throw. */
  function ReadScalar(ty: Ty, j: Json): Result<Value>
    requires !ty.TOpt? && !ty.TVec? && !ty.TRec?
  {
    match (ty, j)
    case (TJson, _) => Ok(VJson(j))
    case (_, Null) => Ok(Zero(ty))
    case (TBool, Bool(b)) => Ok(VBool(b))
    case (TInt(lo, hi), Number(n)) => if lo <= n <= hi then Ok(VInt(n)) else Err(OutOfRange)
    case (TEnum(w, signed), Number(n)) =>
      if InRange(n, W32, true) then Ok(VInt(Cast(n, w, signed))) else Err(OutOfRange)
    case (TTicks(rep), Number(n)) =>
      if !InRange(n, W64, true) then Err(OutOfRange)
      else if rep.Whole? then Ok(VInt(Cast(n, rep.width, rep.signed))) else Ok(VReal(n as real))
    case (TReal, Real(r)) => Ok(VReal(r))
    case (TText, Text(s)) => Ok(VText(s))
    case (TMap, Object(m)) =>
      if forall k :: k in m ==> m[k].Text? then Ok(VMap(map k | k in m :: (if m[k].Text? then m[k].s else "")))
      else Err(WrongType)
    case _ => Err(WrongType)
  }

  /** isMember: null has no members, and only null and objects may be asked. */
  function Lookup(input: Json, key: string): Result<Option<Json>> {
    match input
    case Null => Ok(None)
    case Object(m) => Ok(if key in m then Some(m[key]) else None)
    case _ => Err(WrongType)
  }

  /** The new value of a target that holds `current`. */
  function ReadField(input: Json, key: string, ty: Ty, current: Value): Result<Value>
    decreases ty, 0
  {
    match Lookup(input, key)
    case Err(e) => Err(e)
    case Ok(None) => Ok(current)
    case Ok(Some(j)) =>
      match ty
      case TOpt(t) =>
        (match if t.TRec? then Deserialize(t.schema, j) else ReadField(input, key, t, Zero(t))
         case Ok(v) => Ok(VOpt(Some(v)))
         case Err(e) => Err(e))
      case TVec(t) =>
        if !j.Array? then Err(WrongType)
        else
          (match ReadElements(t, j.items)
           case Ok(vs) => Ok(VVec(vs))
           case Err(e) => Err(e))
      case TRec(s) => Deserialize(s, j)
      case _ => ReadScalar(ty, j)
  }

  function ReadElements(t: Ty, items: seq<Json>): Result<seq<Value>>
    decreases t, |items| + 2
  {
    if items == [] then Ok([])
    else
      match ReadElement(t, items[0])
      case Err(e) => Err(e)
      case Ok(v) =>
        match ReadElements(t, items[1..])
        case Err(e) => Err(e)
        case Ok(vs) => Ok([v] + vs)
  }

  function ReadElement(t: Ty, item: Json): Result<Value>
    decreases t, 1
  {
    if t.TRec? then Deserialize(t.schema, item) else ReadField(Object(map["v" := item]), "v", t, Zero(t))
  }

  function Deserialize(schema: Schema, input: Json): Result<Value>
    decreases schema, |schema.fields| + 1
  {
    match DeserializeFrom(schema, input, 0)
    case Err(e) => Err(e)
    case Ok(vals) => if schema.validate(vals) then Ok(VRec(vals)) else Err(Invalid)
  }

  function DeserializeFrom(schema: Schema, input: Json, i: nat): Result<seq<Value>>
    decreases schema, |schema.fields| - i
  {
    if i >= |schema.fields| then Ok([])
    else
      var f := schema.fields[i];
      match if Reads(f.policy) then ReadField(input, f.name, f.ty, f.init) else Ok(f.init)
      case Err(e) => Err(e)
      case Ok(v) =>
        match DeserializeFrom(schema, input, i + 1)
        case Err(e) => Err(e)
        case Ok(vs) => Ok([v] + vs)
  }
}
