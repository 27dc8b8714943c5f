/**
 Reading back what was written, for every schema with distinct keys. Deserialize after
 serialize gives back the configuration with every field that is not both written and read,
 at any depth, reset to its declared default, exactly if the configurations validate, no
 carried vector element is an empty optional, every carried field that is one equals its
 default, carried enums fit an int and carried durations are whole ticks.
 */
module CodecRoundTrip {
  import opened Basics
  import opened Codec

  // ------------------------------------------------------------------ well-typed configurations

  ghost predicate Typed(ty: Ty, v: Value)
    decreases ty, 0
  {
    match (ty, v)
    case (TBool, VBool(_)) => true
    case (TInt(lo, hi), VInt(n)) => lo <= n <= hi
    case (TEnum(w, signed), VInt(n)) => InRange(n, w, signed)
    case (TTicks(Whole(w, signed)), VInt(n)) => InRange(n, w, signed)
    // the conversion of other counts is undefined
    case (TTicks(Fraction), VReal(r)) => InRange(Truncate(r), W64, true)
    case (TReal, VReal(_)) => true
    case (TText, VText(_)) => true
    case (TMap, VMap(_)) => true
    case (TJson, VJson(_)) => true
    case (TOpt(t), VOpt(o)) => o.Some? ==> Typed(t, o.value)
    case (TVec(t), VVec(vs)) => forall k :: 0 <= k < |vs| ==> Typed(t, vs[k])
    case (TRec(s), VRec(vals)) => TypedFields(s, vals)
    case _ => false
  }

  ghost predicate TypedFields(s: Schema, vals: seq<Value>)
    decreases s, 0
  {
    |vals| == |s.fields| && forall i :: 0 <= i < |vals| ==> Typed(s.fields[i].ty, vals[i])
  }

  /** The keys of every configuration within the type are distinct. */
  ghost predicate KeysOk(ty: Ty)
    decreases ty, 0
  {
    match ty
    case TOpt(t) => KeysOk(t)
    case TVec(t) => KeysOk(t)
    case TRec(s) => SchemaKeysOk(s)
    case _ => true
  }

  ghost predicate SchemaKeysOk(s: Schema)
    decreases s, 0
  {
    DistinctNames(s) && forall i :: 0 <= i < |s.fields| ==> KeysOk(s.fields[i].ty)
  }

  ghost predicate DistinctNames(s: Schema) {
    forall i, j :: 0 <= i < j < |s.fields| ==> s.fields[i].name != s.fields[j].name
  }

  // ------------------------------------------------------------------ what comes back

  /** The value with everything that does not travel reset to its default. */
  ghost function Reset(ty: Ty, v: Value): Value
    requires Typed(ty, v)
    decreases ty, 0
  {
    match (ty, v)
    case (TOpt(t), VOpt(o)) => if o.None? then v else VOpt(Some(Reset(t, o.value)))
    case (TVec(t), VVec(vs)) => VVec(ResetAll(t, vs))
    case (TRec(s), VRec(vals)) => VRec(ResetFields(s, vals))
    case _ => v
  }

  ghost function ResetAll(t: Ty, vs: seq<Value>): (r: seq<Value>)
    requires forall k :: 0 <= k < |vs| ==> Typed(t, vs[k])
    ensures |r| == |vs|
    decreases t, 1
  {
    seq(|vs|, k requires 0 <= k < |vs| => Reset(t, vs[k]))
  }

  ghost function ResetFields(s: Schema, vals: seq<Value>): (r: seq<Value>)
    requires TypedFields(s, vals)
    ensures |r| == |vals|
    decreases s, 0
  {
    seq(|vals|, i requires 0 <= i < |vals| =>
      if s.fields[i].policy == Normal then Reset(s.fields[i].ty, vals[i]) else s.fields[i].init)
  }

  /** Every nested configuration that is written validates as it is written. */
  ghost predicate WritesValid(ty: Ty, v: Value)
    requires Typed(ty, v)
    decreases ty, 0
  {
    match (ty, v)
    case (TOpt(t), VOpt(o)) => o.Some? ==> WritesValid(t, o.value)
    case (TVec(t), VVec(vs)) => forall k :: 0 <= k < |vs| ==> WritesValid(t, vs[k])
    case (TRec(s), VRec(vals)) => FieldsWriteValid(s, vals)
    case _ => true
  }

  ghost predicate FieldsWriteValid(s: Schema, vals: seq<Value>)
    requires TypedFields(s, vals)
    decreases s, 0
  {
    && s.validate(vals)
    && forall i :: 0 <= i < |vals| && Writes(s.fields[i].policy) ==> WritesValid(s.fields[i].ty, vals[i])
  }

  /** Every nested configuration that is read back validates after its reset. */
  ghost predicate ReadsValid(ty: Ty, v: Value)
    requires Typed(ty, v)
    decreases ty, 0
  {
    match (ty, v)
    case (TOpt(t), VOpt(o)) => o.Some? ==> ReadsValid(t, o.value)
    case (TVec(t), VVec(vs)) => forall k :: 0 <= k < |vs| ==> ReadsValid(t, vs[k])
    case (TRec(s), VRec(vals)) => FieldsReadValid(s, vals)
    case _ => true
  }

  ghost predicate FieldsReadValid(s: Schema, vals: seq<Value>)
    requires TypedFields(s, vals)
    decreases s, 2
  {
    s.validate(ResetFields(s, vals)) && ReadValidFrom(s, vals, 0)
  }

  ghost predicate ReadValidFrom(s: Schema, vals: seq<Value>, i: nat)
    requires TypedFields(s, vals)
    decreases s, 1
  {
    forall p :: i <= p < |vals| ==> FieldReadsValid(s, vals, p)
  }

  ghost predicate FieldReadsValid(s: Schema, vals: seq<Value>, i: nat)
    requires TypedFields(s, vals) && i < |vals|
    decreases s, 0
  {
    s.fields[i].policy == Normal ==> ReadsValid(s.fields[i].ty, vals[i])
  }

  /** An optional that is empty, or holds one that vanishes. */
  ghost predicate Vanishes(ty: Ty, v: Value)
    requires Typed(ty, v)
    decreases ty
  {
    ty.TOpt? && (v.o.None? || Vanishes(ty.inner, v.o.value))
  }

  /** An enum is written as an int. Up to 32 bits no value is lost; of 64 bits those that are the
      sign extension of an int come back: the values of an int, or the topmost unsigned ones. */
  ghost predicate FitsInt(w: Width, signed: bool, n: int) {
    w == W64 ==> InRange(n, W32, true) || (!signed && n >= TWO_64 - TWO_31)
  }

  /** Nothing that is carried is lost on the way: no element of a carried vector vanishes, a
      carried field that vanishes equals its default, and carried enums fit an int and carried
      durations are whole ticks. */
  ghost predicate Survives(ty: Ty, v: Value)
    requires Typed(ty, v)
    decreases ty, 0
  {
    match (ty, v)
    case (TEnum(w, signed), VInt(n)) => FitsInt(w, signed, n)
    case (TTicks(Fraction), VReal(r)) => r.Floor as real == r
    case (TOpt(t), VOpt(o)) => o.Some? ==> Survives(t, o.value)
    case (TVec(t), VVec(vs)) => AllSurvive(t, vs)
    case (TRec(s), VRec(vals)) => FieldsSurvive(s, vals)
    case _ => true
  }

  ghost predicate AllSurvive(t: Ty, vs: seq<Value>)
    requires forall k :: 0 <= k < |vs| ==> Typed(t, vs[k])
    decreases t, 2
  {
    forall k :: 0 <= k < |vs| ==> ElementSurvives(t, vs[k])
  }

  ghost predicate ElementSurvives(t: Ty, v: Value)
    requires Typed(t, v)
    decreases t, 1
  {
    !Vanishes(t, v) && Survives(t, v)
  }

  ghost predicate FieldsSurvive(s: Schema, vals: seq<Value>)
    requires TypedFields(s, vals)
    decreases s, 2
  {
    SurviveFrom(s, vals, 0)
  }

  ghost predicate SurviveFrom(s: Schema, vals: seq<Value>, i: nat)
    requires TypedFields(s, vals)
    decreases s, 1
  {
    forall p :: i <= p < |vals| ==> FieldSurvives(s, vals, p)
  }

  ghost predicate FieldSurvives(s: Schema, vals: seq<Value>, i: nat)
    requires TypedFields(s, vals) && i < |vals|
    decreases s, 0
  {
    var f := s.fields[i];
    f.policy == Normal ==> if Vanishes(f.ty, vals[i]) then f.init == vals[i] else Survives(f.ty, vals[i])
  }

  // ------------------------------------------------------------------ a written field is a member

  /** What a field contributes to its object: an error, nothing, or one member. */
  ghost function Encode(ty: Ty, v: Value): Result<Option<Json>> {
    match WriteField(Null, "v", ty, v)
    case Err(e) => Err(e)
    case Ok(out) => Ok(if out.Object? && "v" in out.members then Some(out.members["v"]) else None)
  }

  lemma PlainPut(out: Json, key: string, ty: Ty, v: Value)
    requires !ty.TOpt?
    ensures Encode(ty, v).Err? ==> WriteField(out, key, ty, v) == Err(Encode(ty, v).error)
    ensures Encode(ty, v).Ok? ==>
              Encode(ty, v).value.Some? && WriteField(out, key, ty, v) == Ok(Put(out, key, Encode(ty, v).value.value))
  {
    hide Serialize, WriteElements;
  }

  lemma {:induction false} WriteIsPut(out: Json, key: string, ty: Ty, v: Value)
    ensures Encode(ty, v).Err? ==> WriteField(out, key, ty, v) == Err(Encode(ty, v).error)
    ensures Encode(ty, v).Ok? ==>
              WriteField(out, key, ty, v)
              == Ok(if Encode(ty, v).value.Some? then Put(out, key, Encode(ty, v).value.value) else out)
    ensures Encode(ty, v) == Ok(None) ==> ty.TOpt?
    decreases ty
  {
    if !ty.TOpt? {
      hide WriteField;
      PlainPut(out, key, ty, v);
    } else if v.VOpt? && v.o.Some? {
      WriteIsPut(out, key, ty.inner, v.o.value);
    }
  }

  ghost predicate Container(j: Json) {
    j.Null? || j.Object?
  }

  /** The members of a serialized object are exactly those its written fields contribute. */
  lemma {:induction false} FieldLookup(s: Schema, vals: seq<Value>, i: nat, out: Json, res: Json, p: nat)
    requires DistinctNames(s) && |vals| == |s.fields| && p < |vals| && i <= |vals| && Container(out)
    requires SerializeFrom(s, vals, i, out) == Ok(res)
    ensures Container(res)
    ensures var f := s.fields[p];
            if p >= i && Writes(f.policy) then
              Encode(f.ty, vals[p]).Ok? &&
              Lookup(res, f.name)
              == if Encode(f.ty, vals[p]).value.Some? then Encode(f.ty, vals[p]) else Lookup(out, f.name)
            else Lookup(res, f.name) == Lookup(out, f.name)
    decreases |vals| - i
  {
    if i < |vals| {
      var f := s.fields[i];
      if Writes(f.policy) {
        WriteIsPut(out, f.name, f.ty, vals[i]);
        var out2 := WriteField(out, f.name, f.ty, vals[i]).value;
        FieldLookup(s, vals, i + 1, out2, res, p);
      } else {
        FieldLookup(s, vals, i + 1, out, res, p);
      }
    }
  }

  // ------------------------------------------------------------------ what vanishes

  /** A field writes nothing exactly if its value vanishes. */
  lemma {:induction false} WritesNothingIff(ty: Ty, v: Value)
    requires Typed(ty, v)
    ensures Encode(ty, v) == Ok(None) <==> Vanishes(ty, v)
    decreases ty
  {
    if !ty.TOpt? {
      PlainPut(Null, "v", ty, v);
    } else if v.o.Some? {
      WritesNothingIff(ty.inner, v.o.value);
    }
  }

  /** A vanishing value has nothing to reset and nothing to validate. */
  lemma {:induction false} VanishingIsPlain(ty: Ty, v: Value)
    requires Typed(ty, v) && Vanishes(ty, v)
    ensures Reset(ty, v) == v && ReadsValid(ty, v) && Survives(ty, v)
    decreases ty
  {
    if v.o.Some? {
      VanishingIsPlain(ty.inner, v.o.value);
    }
  }

  /** What reading a null member gives: the zero of a scalar, an error for a vector, the
      defaults of a configuration, and a present optional around any of them. */
  ghost function FromNull(ty: Ty): Result<Value>
    decreases ty
  {
    match ty
    case TOpt(t) =>
      var inner := FromNull(t);
      if inner.Ok? then Ok(VOpt(Some(inner.value))) else inner
    case TVec(_) => Err(WrongType)
    case TRec(s) => Deserialize(s, Null)
    case _ => Ok(Zero(ty))
  }

  lemma {:induction false} NullReads(input: Json, key: string, ty: Ty, current: Value)
    requires Lookup(input, key) == Ok(Some(Null))
    ensures ReadField(input, key, ty, current) == FromNull(ty)
    decreases ty
  {
    if ty.TOpt? && !ty.inner.TRec? {
      NullReads(input, key, ty.inner, Zero(ty.inner));
    }
  }

  /** Never an empty optional, nor one around an empty optional. */
  lemma {:induction false} NullIsPresent(ty: Ty, v: Value)
    requires FromNull(ty) == Ok(v) && Typed(ty, v)
    ensures !Vanishes(ty, v)
    decreases ty
  {
    if ty.TOpt? {
      NullIsPresent(ty.inner, v.o.value);
    }
  }

  /** A vector element that vanishes is written as null, and null reads as something present. */
  lemma VanishingElement(t: Ty, v: Value)
    requires Typed(t, v) && Vanishes(t, v)
    ensures WriteElement(t, v) == Ok(Null)
    ensures ReadElement(t, Null) == FromNull(t) && FromNull(t) != Ok(v)
  {
    WritesNothingIff(t, v);
    WriteIsPut(Object(map[]), "v", t, v);
    NullReads(Object(map["v" := Null]), "v", t, Zero(t));
    if FromNull(t) == Ok(v) {
      NullIsPresent(t, v);
    }
  }

  // ------------------------------------------------------------------ the round trip

  ghost function Outcome(ty: Ty, v: Value): Result<Value>
    requires Typed(ty, v)
  {
    if ReadsValid(ty, v) then Ok(Reset(ty, v)) else Err(Invalid)
  }

  /** `r` is the reset value, or a validation failure, if nothing is lost; and something else if it is. */
  ghost predicate ComesBack(ty: Ty, v: Value, r: Result<Value>)
    requires Typed(ty, v)
  {
    if Survives(ty, v) then r == Outcome(ty, v) else r != Ok(Reset(ty, v))
  }

  /** Reading the member a field wrote gives its value back. */
  lemma {:induction false} FieldRoundTrip(ty: Ty, v: Value, j: Json, input: Json, key: string, current: Value)
    requires KeysOk(ty) && Typed(ty, v) && Encode(ty, v) == Ok(Some(j)) && Lookup(input, key) == Ok(Some(j))
    ensures ComesBack(ty, v, ReadField(input, key, ty, current))
    decreases ty, 0
  {
    match (ty, v)
    case (TOpt(t), VOpt(o)) =>
      assert Encode(t, o.value) == Ok(Some(j));
      FieldRoundTrip(t, o.value, j, input, key, Zero(t));
    case (TVec(t), VVec(vs)) =>
      EncodedVector(t, vs, j);
      ElementsRoundTrip(t, vs, j.items);
      VectorBack(t, vs, j.items, input, key, current);
      hide Encode, ReadField, ComesBack, ReadElements, WriteElements;
    case (TRec(s), VRec(vals)) =>
      RecordRoundTrip(s, vals, j);
    case _ =>
      ScalarRoundTrip(ty, v, j);
      hide Encode, ReadScalar, Survives, ReadsValid, Reset;
  }

  lemma EncodedVector(t: Ty, vs: seq<Value>, j: Json)
    requires Encode(TVec(t), VVec(vs)) == Ok(Some(j))
    ensures j.Array? && WriteElements(t, vs) == Ok(j.items)
  {
    hide WriteElements;
  }

  lemma VectorBack(t: Ty, vs: seq<Value>, js: seq<Json>, input: Json, key: string, current: Value)
    requires (forall k :: 0 <= k < |vs| ==> Typed(t, vs[k])) && Lookup(input, key) == Ok(Some(Array(js)))
    requires ElementsComeBack(t, vs, ReadElements(t, js))
    ensures ComesBack(TVec(t), VVec(vs), ReadField(input, key, TVec(t), current))
  {
    hide ReadElements, ResetAll, AllSurvive;
  }

  lemma ScalarRoundTrip(ty: Ty, v: Value, j: Json)
    requires !ty.TOpt? && !ty.TVec? && !ty.TRec? && Typed(ty, v) && Encode(ty, v) == Ok(Some(j))
    ensures ComesBack(ty, v, ReadScalar(ty, j))
  {
    hide Cast, Truncate;
    match (ty, v)
    case (TMap, VMap(m)) => MapRoundTrip(m);
    case (TEnum(w, signed), VInt(n)) => CastBack(w, signed, n);
    case (TTicks(Whole(w, signed)), VInt(n)) => TicksBack(w, signed, n);
    case (TTicks(Fraction), VReal(r)) => WholeTicks(r);
    case _ =>
  }

  /** An enum comes back exactly if it fits an int. */
  lemma CastBack(w: Width, signed: bool, n: int)
    requires InRange(n, w, signed)
    ensures Cast(Cast(n, W32, true), w, signed) == n <==> FitsInt(w, signed, n)
  {
    var x, k := CastTo(n, W32, true);
    hide Cast;
    match w {
      case W8 => CastIs(x, W8, signed, n, -0x100_0000 * k);
      case W16 => CastIs(x, W16, signed, n, -TWO_16 * k);
      case W32 => CastIs(x, W32, signed, n, -k);
      case W64 =>
        CastIs(x, W64, signed, if signed || x >= 0 then x else x + TWO_64, if signed || x >= 0 then 0 else -1);
        if InRange(n, W32, true) {
          CastIs(n, W32, true, n, 0);
        } else if !signed && n >= TWO_64 - TWO_31 {
          CastIs(n, W32, true, n - TWO_64, TWO_32);
        }
    }
  }

  lemma CastTo(n: int, w: Width, signed: bool) returns (r: int, k: int)
    ensures r == Cast(n, w, signed) && n == r + k * Span(w)
  {
    r := Cast(n, w, signed);
    k := n / Span(w) + if r < 0 then 1 else 0;
  }

  /** The cast is the one number in range that differs by a multiple of the span. */
  lemma CastIs(n: int, w: Width, signed: bool, r: int, k: int)
    requires InRange(r, w, signed) && n == r + k * Span(w)
    ensures Cast(n, w, signed) == r
  {
    if r >= 0 {
      DivModUnique(n, Span(w), k, r);
    } else {
      DivModUnique(n, Span(w), k - 1, r + Span(w));
    }
  }

  /** Integer tick counts always come back. */
  lemma TicksBack(w: Width, signed: bool, n: int)
    requires InRange(n, w, signed)
    ensures Cast(Cast(n, W64, true), w, signed) == n
  {
    var x, k := CastTo(n, W64, true);
    hide Cast;
    match w
    case W8 => CastIs(x, W8, signed, n, -0x100_0000_0000_0000 * k);
    case W16 => CastIs(x, W16, signed, n, -TWO_48 * k);
    case W32 => CastIs(x, W32, signed, n, -TWO_32 * k);
    case W64 => CastIs(x, W64, signed, n, -k);
  }

  /** A fractional tick count comes back exactly if it is whole. */
  lemma WholeTicks(r: real)
    ensures Truncate(r) as real == r <==> r.Floor as real == r
  {
    if r.Floor as real == r {
      FloorIs(-r, -r.Floor);
    } else if Truncate(r) as real == r {
      FloorIs(r, Truncate(r));
    }
  }

  lemma FloorIs(r: real, n: int)
    requires r == n as real
    ensures r.Floor == n
  {
  }

  /** An enum over 64 bits with value 2^32 is written, and comes back, as 0. */
  lemma WideEnumLost(key: string)
    ensures var ty := TEnum(W64, true);
            Typed(ty, VInt(TWO_32)) && Encode(ty, VInt(TWO_32)) == Ok(Some(Number(0))) && !Survives(ty, VInt(TWO_32))
    ensures ReadField(Object(map[key := Number(0)]), key, TEnum(W64, true), VInt(TWO_32)) == Ok(VInt(0))
  {
  }

  /** A duration of one and a half ticks comes back as one. */
  lemma HalfTickLost(key: string)
    ensures var ty := TTicks(Fraction);
            Typed(ty, VReal(1.5)) && Encode(ty, VReal(1.5)) == Ok(Some(Number(1))) && !Survives(ty, VReal(1.5))
    ensures ReadField(Object(map[key := Number(1)]), key, TTicks(Fraction), VReal(1.5)) == Ok(VReal(1.0))
  {
    assert 1.5.Floor == 1;
  }

  lemma MapRoundTrip(m: map<string, string>)
    ensures ReadScalar(TMap, Object(map k | k in m :: Text(m[k]))) == Ok(VMap(m))
  {
    var o := map k | k in m :: Text(m[k]);
    assert m == map k | k in o :: (if o[k].Text? then o[k].s else "");
  }

  lemma RecordsAre(s: Schema, vals: seq<Value>)
    requires TypedFields(s, vals)
    ensures var (t, v) := (TRec(s), VRec(vals));
            && Typed(t, v)
            && (Survives(t, v) <==> FieldsSurvive(s, vals))
            && (ReadsValid(t, v) <==> FieldsReadValid(s, vals))
            && Reset(t, v) == VRec(ResetFields(s, vals))
  {
  }

  /** An element is written and read as the member of a field. */
  lemma ElementIsField(t: Ty, v: Value, j: Json)
    requires Typed(t, v) && !t.TRec? && !Vanishes(t, v) && WriteElement(t, v) == Ok(j)
    ensures Encode(t, v) == Ok(Some(j)) && Lookup(Object(map["v" := j]), "v") == Ok(Some(j))
  {
    WritesNothingIff(t, v);
    WriteIsPut(Object(map[]), "v", t, v);
    hide Encode, Vanishes, WriteField;
  }

  lemma {:induction false} ElementRoundTrip(t: Ty, v: Value, j: Json)
    requires KeysOk(t) && Typed(t, v) && WriteElement(t, v) == Ok(j)
    ensures if ElementSurvives(t, v) then ReadElement(t, j) == Outcome(t, v) else ReadElement(t, j) != Ok(Reset(t, v))
    decreases t, 1
  {
    if t.TRec? {
      RecordRoundTrip(t.schema, v.vals, j);
      RecordsAre(t.schema, v.vals);
      hide Survives, ReadsValid, Reset, Deserialize, Serialize;
    } else if Vanishes(t, v) {
      VanishingElement(t, v);
      VanishingIsPlain(t, v);
      hide FromNull, WriteElement, ReadElement;
    } else {
      ElementIsField(t, v, j);
      FieldRoundTrip(t, v, j, Object(map["v" := j]), "v", Zero(t));
      hide Encode, ReadField, Survives, Vanishes;
    }
  }

  ghost predicate AllReadValid(t: Ty, vs: seq<Value>)
    requires forall k :: 0 <= k < |vs| ==> Typed(t, vs[k])
  {
    forall k :: 0 <= k < |vs| ==> ReadsValid(t, vs[k])
  }

  ghost predicate ElementsComeBack(t: Ty, vs: seq<Value>, r: Result<seq<Value>>)
    requires forall k :: 0 <= k < |vs| ==> Typed(t, vs[k])
  {
    if !AllSurvive(t, vs) then r != Ok(ResetAll(t, vs))
    else r == if AllReadValid(t, vs) then Ok(ResetAll(t, vs)) else Err(Invalid)
  }

  lemma WrittenHead(t: Ty, vs: seq<Value>, js: seq<Json>)
    requires vs != [] && WriteElements(t, vs) == Ok(js)
    ensures js != [] && WriteElement(t, vs[0]) == Ok(js[0]) && WriteElements(t, vs[1..]) == Ok(js[1..])
  {
    hide WriteElement;
  }

  /** The first element and the rest come back, so all do. */
  lemma HeadAndRest(t: Ty, vs: seq<Value>, js: seq<Json>)
    requires vs != [] && js != [] && forall k :: 0 <= k < |vs| ==> Typed(t, vs[k])
    requires if ElementSurvives(t, vs[0]) then ReadElement(t, js[0]) == Outcome(t, vs[0])
             else ReadElement(t, js[0]) != Ok(Reset(t, vs[0]))
    requires ElementsComeBack(t, vs[1..], ReadElements(t, js[1..]))
    ensures ElementsComeBack(t, vs, ReadElements(t, js))
  {
    AllHead(t, vs);
    ResetAllHead(t, vs);
    hide ReadElement, ElementSurvives, Reset, ReadsValid, Typed, AllSurvive, AllReadValid, ResetAll;
  }

  lemma {:induction false} ElementsRoundTrip(t: Ty, vs: seq<Value>, js: seq<Json>)
    requires KeysOk(t) && (forall k :: 0 <= k < |vs| ==> Typed(t, vs[k])) && WriteElements(t, vs) == Ok(js)
    ensures ElementsComeBack(t, vs, ReadElements(t, js))
    decreases t, |vs| + 2
  {
    hide ReadElement, WriteElement, Typed, KeysOk;
    if vs != [] {
      WrittenHead(t, vs, js);
      hide WriteElements, ReadElements, ElementsComeBack;
      ElementRoundTrip(t, vs[0], js[0]);
      ElementsRoundTrip(t, vs[1..], js[1..]);
      HeadAndRest(t, vs, js);
    } else {
      assert ResetAll(t, vs) == [];
    }
  }

  lemma AllHead(t: Ty, vs: seq<Value>)
    requires vs != [] && forall k :: 0 <= k < |vs| ==> Typed(t, vs[k])
    ensures AllSurvive(t, vs) <==> ElementSurvives(t, vs[0]) && AllSurvive(t, vs[1..])
    ensures AllReadValid(t, vs) <==> ReadsValid(t, vs[0]) && AllReadValid(t, vs[1..])
  {
    hide ElementSurvives, ReadsValid, Typed;
    assert forall k :: 0 <= k < |vs| ==> vs[k] == if k == 0 then vs[0] else vs[1..][k - 1];
  }

  lemma ResetAllHead(t: Ty, vs: seq<Value>)
    requires vs != [] && forall k :: 0 <= k < |vs| ==> Typed(t, vs[k])
    ensures ResetAll(t, vs) == [Reset(t, vs[0])] + ResetAll(t, vs[1..])
    ensures ResetAll(t, vs)[0] == Reset(t, vs[0]) && ResetAll(t, vs)[1..] == ResetAll(t, vs[1..])
  {
  }

  lemma {:induction false} RecordRoundTrip(s: Schema, vals: seq<Value>, j: Json)
    requires SchemaKeysOk(s) && TypedFields(s, vals) && Serialize(s, vals) == Ok(j)
    ensures if !FieldsSurvive(s, vals) then Deserialize(s, j) != Ok(VRec(ResetFields(s, vals)))
            else Deserialize(s, j) == if FieldsReadValid(s, vals) then Ok(VRec(ResetFields(s, vals))) else Err(Invalid)
    decreases s, |s.fields| + 3
  {
    FieldsRoundTrip(s, vals, j, 0);
    hide SurviveFrom, ReadValidFrom, SerializeFrom, DeserializeFrom;
    assert ResetFields(s, vals)[0..] == ResetFields(s, vals);
  }

  /** What reading leaves in field `i`. */
  ghost function ReadBack(s: Schema, j: Json, i: nat): Result<Value>
    requires i < |s.fields|
  {
    var f := s.fields[i];
    if Reads(f.policy) then ReadField(j, f.name, f.ty, f.init) else Ok(f.init)
  }

  /** A field that is not both written and read, or that vanishes, comes back as its default;
      any other as its reset value, or a validation failure, unless it loses something. */
  lemma {:induction false} FieldComesBack(s: Schema, vals: seq<Value>, j: Json, i: nat)
    requires SchemaKeysOk(s) && TypedFields(s, vals) && SerializeFrom(s, vals, 0, Null) == Ok(j) && i < |vals|
    ensures var f := s.fields[i];
            if f.policy != Normal || Vanishes(f.ty, vals[i]) then ReadBack(s, j, i) == Ok(f.init)
            else ComesBack(f.ty, vals[i], ReadBack(s, j, i))
    decreases s, 0
  {
    var f := s.fields[i];
    FieldLookup(s, vals, 0, Null, j, i);
    WritesNothingIff(f.ty, vals[i]);
    if f.policy == Normal && !Vanishes(f.ty, vals[i]) {
      FieldRoundTrip(f.ty, vals[i], Encode(f.ty, vals[i]).value.value, j, f.name, f.init);
    }
  }

  lemma {:induction false} OneRoundTrip(s: Schema, vals: seq<Value>, j: Json, i: nat)
    requires SchemaKeysOk(s) && TypedFields(s, vals) && SerializeFrom(s, vals, 0, Null) == Ok(j) && i < |vals|
    ensures if !FieldSurvives(s, vals, i) then ReadBack(s, j, i) != Ok(ResetFields(s, vals)[i])
            else ReadBack(s, j, i) == if FieldReadsValid(s, vals, i) then Ok(ResetFields(s, vals)[i]) else Err(Invalid)
    decreases s, 1
  {
    FieldComesBack(s, vals, j, i);
    hide ReadBack, SerializeFrom;
    if s.fields[i].policy == Normal && Vanishes(s.fields[i].ty, vals[i]) {
      VanishingIsPlain(s.fields[i].ty, vals[i]);
    }
  }

  lemma {:induction false} FieldsRoundTrip(s: Schema, vals: seq<Value>, j: Json, i: nat)
    requires SchemaKeysOk(s) && TypedFields(s, vals) && SerializeFrom(s, vals, 0, Null) == Ok(j) && i <= |vals|
    ensures if !SurviveFrom(s, vals, i) then DeserializeFrom(s, j, i) != Ok(ResetFields(s, vals)[i..])
            else DeserializeFrom(s, j, i)
                 == if ReadValidFrom(s, vals, i) then Ok(ResetFields(s, vals)[i..]) else Err(Invalid)
    decreases s, |s.fields| - i + 2
  {
    var reset := ResetFields(s, vals);
    if i < |vals| {
      OneRoundTrip(s, vals, j, i);
      FieldsRoundTrip(s, vals, j, i + 1);
      hide ReadField, SerializeFrom, FieldSurvives, FieldReadsValid, ResetFields;
      assert reset[i..] == [reset[i]] + reset[i + 1..];
      assert reset[i..][0] == reset[i] && reset[i..][1..] == reset[i + 1..];
    } else {
      assert reset[i..] == [];
    }
  }

  // ------------------------------------------------------------------ when writing succeeds

  lemma {:induction false} FieldWrites(ty: Ty, v: Value)
    requires Typed(ty, v)
    ensures if WritesValid(ty, v) then Encode(ty, v).Ok? else Encode(ty, v) == Err(Invalid)
    decreases ty, 0
  {
    match (ty, v)
    case (TOpt(t), VOpt(o)) =>
      if o.Some? {
        FieldWrites(t, o.value);
      }
    case (TVec(t), VVec(vs)) => ElementsWrite(t, vs);
    case (TRec(s), VRec(vals)) => RecordWrites(s, vals);
    case _ =>
  }

  lemma {:induction false} ElementsWrite(t: Ty, vs: seq<Value>)
    requires forall k :: 0 <= k < |vs| ==> Typed(t, vs[k])
    ensures if forall k :: 0 <= k < |vs| ==> WritesValid(t, vs[k]) then WriteElements(t, vs).Ok?
            else WriteElements(t, vs) == Err(Invalid)
    decreases t, |vs| + 2
  {
    if vs != [] {
      FieldWrites(t, vs[0]);
      WriteIsPut(Object(map[]), "v", t, vs[0]);
      ElementsWrite(t, vs[1..]);
      assert forall k :: 0 <= k < |vs| ==> vs[k] == if k == 0 then vs[0] else vs[1..][k - 1];
    }
  }

  lemma {:induction false} RecordWrites(s: Schema, vals: seq<Value>)
    requires TypedFields(s, vals)
    ensures if FieldsWriteValid(s, vals) then Serialize(s, vals).Ok? else Serialize(s, vals) == Err(Invalid)
    decreases s, |s.fields| + 1
  {
    FieldsWrite(s, vals, 0, Null);
  }

  lemma {:induction false} FieldsWrite(s: Schema, vals: seq<Value>, i: nat, out: Json)
    requires TypedFields(s, vals) && i <= |vals|
    ensures if forall p :: i <= p < |vals| && Writes(s.fields[p].policy) ==> WritesValid(s.fields[p].ty, vals[p])
            then SerializeFrom(s, vals, i, out).Ok? else SerializeFrom(s, vals, i, out) == Err(Invalid)
    decreases s, |s.fields| - i
  {
    if i < |vals| {
      var f := s.fields[i];
      if Writes(f.policy) {
        FieldWrites(f.ty, vals[i]);
        WriteIsPut(out, f.name, f.ty, vals[i]);
        if WritesValid(f.ty, vals[i]) {
          FieldsWrite(s, vals, i + 1, WriteField(out, f.name, f.ty, vals[i]).value);
        }
      } else {
        FieldsWrite(s, vals, i + 1, out);
      }
    }
  }

  /** Serialization fails exactly when a configuration that is written does not validate; and
      what was written comes back, reset, exactly when nothing carried is lost and the reset
      configurations validate in turn. */
  lemma RoundTrip(s: Schema, vals: seq<Value>)
    requires SchemaKeysOk(s) && TypedFields(s, vals)
    ensures Serialize(s, vals).Ok? <==> FieldsWriteValid(s, vals)
    ensures Serialize(s, vals).Ok? ==>
              var back := Deserialize(s, Serialize(s, vals).value);
              && (back == Ok(VRec(ResetFields(s, vals))) <==> FieldsSurvive(s, vals) && FieldsReadValid(s, vals))
              && (FieldsSurvive(s, vals) && !FieldsReadValid(s, vals) ==> back == Err(Invalid))
  {
    RecordWrites(s, vals);
    if Serialize(s, vals).Ok? {
      RecordRoundTrip(s, vals, Serialize(s, vals).value);
    }
  }

  // ------------------------------------------------------------------ schemas that lose nothing

  /** No optional directly inside a vector or an optional, optional fields that default to
      empty, enums of at most 32 bits and durations of whole ticks. */
  ghost predicate Plain(ty: Ty)
    decreases ty, 0
  {
    match ty
    case TEnum(w, _) => w != W64
    case TTicks(rep) => rep.Whole?
    case TOpt(t) => !t.TOpt? && Plain(t)
    case TVec(t) => !t.TOpt? && Plain(t)
    case TRec(s) => PlainSchema(s)
    case _ => true
  }

  ghost predicate PlainSchema(s: Schema)
    decreases s, 0
  {
    forall i :: 0 <= i < |s.fields| ==>
      && Plain(s.fields[i].ty)
      && (s.fields[i].policy == Normal && s.fields[i].ty.TOpt? ==> s.fields[i].init == VOpt(None))
  }

  lemma {:induction false} PlainSurvives(ty: Ty, v: Value)
    requires Plain(ty) && Typed(ty, v)
    ensures Survives(ty, v)
    decreases ty, 0
  {
    match (ty, v)
    case (TOpt(t), VOpt(o)) =>
      if o.Some? {
        PlainSurvives(t, o.value);
      }
    case (TVec(t), VVec(vs)) =>
      forall k | 0 <= k < |vs| ensures ElementSurvives(t, vs[k]) {
        PlainSurvives(t, vs[k]);
      }
    case (TRec(s), VRec(vals)) => PlainFieldsSurvive(s, vals);
    case _ =>
  }

  /** In such a schema every configuration survives, so only validation can stand in the way. */
  lemma {:induction false} PlainFieldsSurvive(s: Schema, vals: seq<Value>)
    requires PlainSchema(s) && TypedFields(s, vals)
    ensures FieldsSurvive(s, vals)
    decreases s, 0
  {
    forall i | 0 <= i < |vals| ensures FieldSurvives(s, vals, i) {
      var (ty, v) := (s.fields[i].ty, vals[i]);
      PlainSurvives(ty, v);
      assert Plain(ty);
      assert ty.TOpt? && v.o.Some? ==> !Vanishes(ty.inner, v.o.value);
    }
  }
}
