/**
 What a document says. Independently of reading back: which JSON value stands under the key of
 every field that was written, and which value a field takes from any document, whoever wrote it.
 */
module CodecDocument {
  import opened Basics
  import opened Codec
  import opened CodecRoundTrip

  // ------------------------------------------------------------------ what is written

  /** `j` is the JSON form of `v`. */
  ghost predicate Depicts(ty: Ty, v: Value, j: Json)
    requires Typed(ty, v)
    decreases ty, 0
  {
    match (ty, v)
    case (TBool, VBool(b)) => j == Bool(b)
    case (TInt(_, _), VInt(n)) => j == Number(n)
    // the int with the same low 32 bits
    case (TEnum(_, _), VInt(n)) => j.Number? && -TWO_31 <= j.n < TWO_31 && (n - j.n) % TWO_32 == 0
    case (TTicks(Whole(_, _)), VInt(n)) =>
      j.Number? && -(TWO_64 / 2) <= j.n < TWO_64 / 2 && (n - j.n) % TWO_64 == 0
    // the whole number next to it on the side of zero
    case (TTicks(Fraction), VReal(r)) =>
      j.Number? && if r >= 0.0 then j.n as real <= r < (j.n + 1) as real else (j.n - 1) as real < r <= j.n as real
    case (TReal, VReal(r)) => j == Real(r)
    case (TText, VText(s)) => j == Text(s)
    case (TMap, VMap(m)) => j.Object? && j.members.Keys == m.Keys && forall k :: k in m ==> j.members[k] == Text(m[k])
    case (TJson, VJson(w)) => j == w
    case (TOpt(t), VOpt(o)) => o.Some? && Depicts(t, o.value, j)
    case (TVec(t), VVec(vs)) => j.Array? && ElementsDepicted(t, vs, j.items)
    case (TRec(s), VRec(vals)) => Documents(s, vals, j)
    case _ => false
  }

  /** An array shows the elements in order, an empty optional among them as null. */
  ghost predicate ElementsDepicted(t: Ty, vs: seq<Value>, js: seq<Json>)
    requires forall k :: 0 <= k < |vs| ==> Typed(t, vs[k])
    decreases t, 2
  {
    |js| == |vs| && forall k :: 0 <= k < |vs| ==> ElementDepicted(t, vs[k], js[k])
  }

  ghost predicate ElementDepicted(t: Ty, v: Value, j: Json)
    requires Typed(t, v)
    decreases t, 1
  {
    if Vanishes(t, v) then j == Null else Depicts(t, v, j)
  }

  /** A document shows under its key each field that is neither secret nor excluded, empty
      optionals aside, and shows nothing else. */
  ghost predicate Documents(s: Schema, vals: seq<Value>, j: Json)
    requires TypedFields(s, vals)
    decreases s, 2
  {
    && Container(j)
    && (forall i :: 0 <= i < |vals| ==> FieldDocumented(s, vals, j, i))
    && forall key :: j.Object? && key in j.members ==> NamesShown(s, vals, key)
  }

  ghost predicate FieldDocumented(s: Schema, vals: seq<Value>, j: Json, i: nat)
    requires TypedFields(s, vals) && i < |vals|
    decreases s, 1
  {
    var f := s.fields[i];
    if f.policy == Secret || f.policy == Excluded || Vanishes(f.ty, vals[i]) then Lookup(j, f.name) == Ok(None)
    else Shown(j, f.name) && Depicts(f.ty, vals[i], j.members[f.name])
  }

  predicate Shown(j: Json, key: string) {
    j.Object? && key in j.members
  }

  predicate MayShow(p: Policy) {
    p == Normal || p == ReadOnly
  }

  /** The key is that of a field that may be shown. */
  ghost predicate NamesShown(s: Schema, vals: seq<Value>, key: string)
    requires TypedFields(s, vals)
  {
    exists i :: 0 <= i < |vals| && s.fields[i].name == key && MayShow(s.fields[i].policy)
  }

  lemma CastSame(n: int, w: Width)
    ensures (n - Cast(n, w, true)) % Span(w) == 0
  {
    var r, k := CastTo(n, w, true);
    hide Cast;
    DivModUnique(n - r, Span(w), k, 0);
  }

  lemma TruncateNear(r: real)
    ensures var n := Truncate(r);
            if r >= 0.0 then n as real <= r < (n + 1) as real else (n - 1) as real < r <= n as real
  {
  }

  lemma ScalarDepicted(ty: Ty, v: Value, j: Json)
    requires !ty.TOpt? && !ty.TVec? && !ty.TRec? && Typed(ty, v) && Encode(ty, v) == Ok(Some(j))
    ensures Depicts(ty, v, j)
  {
    hide Cast, Truncate;
    match (ty, v)
    case (TEnum(_, _), VInt(n)) => CastSame(n, W32);
    case (TTicks(Whole(_, _)), VInt(n)) => CastSame(n, W64);
    case (TTicks(Fraction), VReal(r)) => TruncateNear(r);
    case (TMap, VMap(m)) => assert j == Object(map k | k in m :: Text(m[k]));
    case _ =>
  }

  /** What a field contributes is the JSON form of its value. */
  lemma {:induction false} FieldDepicted(ty: Ty, v: Value, j: Json)
    requires KeysOk(ty) && Typed(ty, v) && Encode(ty, v) == Ok(Some(j))
    ensures Depicts(ty, v, j)
    decreases ty, 0
  {
    match (ty, v)
    case (TOpt(t), VOpt(o)) =>
      assert Encode(t, o.value) == Ok(Some(j));
      FieldDepicted(t, o.value, j);
    case (TVec(t), VVec(vs)) =>
      EncodedVector(t, vs, j);
      ElementsShown(t, vs, j.items);
    case (TRec(s), VRec(vals)) =>
      EncodedRecord(s, vals, j);
      DocumentShows(s, vals, j);
    case _ => ScalarDepicted(ty, v, j);
  }

  lemma EncodedRecord(s: Schema, vals: seq<Value>, j: Json)
    requires Encode(TRec(s), VRec(vals)) == Ok(Some(j))
    ensures Serialize(s, vals) == Ok(j)
  {
    hide Serialize;
  }

  lemma {:induction false} ElementShown(t: Ty, v: Value, j: Json)
    requires KeysOk(t) && Typed(t, v) && WriteElement(t, v) == Ok(j)
    ensures ElementDepicted(t, v, j)
    decreases t, 1
  {
    if t.TRec? {
      DocumentShows(t.schema, v.vals, j);
      hide Serialize;
    } else if Vanishes(t, v) {
      VanishingElement(t, v);
    } else {
      ElementIsField(t, v, j);
      FieldDepicted(t, v, j);
      hide WriteElement, Encode, Depicts;
    }
  }

  lemma {:induction false} ElementsShown(t: Ty, vs: seq<Value>, js: seq<Json>)
    requires KeysOk(t) && (forall k :: 0 <= k < |vs| ==> Typed(t, vs[k])) && WriteElements(t, vs) == Ok(js)
    ensures ElementsDepicted(t, vs, js)
    decreases t, |vs| + 2
  {
    hide WriteElement, ElementDepicted, Typed, KeysOk;
    if vs != [] {
      WrittenHead(t, vs, js);
      hide WriteElements;
      ElementShown(t, vs[0], js[0]);
      ElementsShown(t, vs[1..], js[1..]);
      forall k | 0 <= k < |vs| ensures |js| == |vs| && ElementDepicted(t, vs[k], js[k]) {
        if k > 0 {
          assert ElementDepicted(t, vs[1..][k - 1], js[1..][k - 1]);
        }
      }
    }
  }

  lemma {:induction false} NoOtherKeys(s: Schema, vals: seq<Value>, i: nat, out: Json, res: Json, key: string)
    requires |vals| == |s.fields| && i <= |vals| && Container(out) && SerializeFrom(s, vals, i, out) == Ok(res)
    requires Shown(res, key) && !Shown(out, key)
    ensures exists p :: i <= p < |vals| && s.fields[p].name == key && MayShow(s.fields[p].policy)
    decreases |vals| - i
  {
    if i < |vals| {
      var f := s.fields[i];
      if Writes(f.policy) {
        WriteIsPut(out, f.name, f.ty, vals[i]);
        var out2 := WriteField(out, f.name, f.ty, vals[i]).value;
        if f.name != key {
          NoOtherKeys(s, vals, i + 1, out2, res, key);
        }
      } else {
        NoOtherKeys(s, vals, i + 1, out, res, key);
      }
    }
  }

  lemma {:induction false} FieldShows(s: Schema, vals: seq<Value>, j: Json, i: nat)
    requires SchemaKeysOk(s) && TypedFields(s, vals) && SerializeFrom(s, vals, 0, Null) == Ok(j) && i < |vals|
    ensures FieldDocumented(s, vals, j, i)
    decreases s, 0
  {
    var f := s.fields[i];
    FieldLookup(s, vals, 0, Null, j, i);
    WritesNothingIff(f.ty, vals[i]);
    hide SerializeFrom;
    if Writes(f.policy) && !Vanishes(f.ty, vals[i]) {
      FieldDepicted(f.ty, vals[i], Encode(f.ty, vals[i]).value.value);
      hide Encode, Depicts, Vanishes;
    }
  }

  /** Whatever is serialized is a document of the configuration. */
  lemma {:induction false} DocumentShows(s: Schema, vals: seq<Value>, j: Json)
    requires SchemaKeysOk(s) && TypedFields(s, vals) && Serialize(s, vals) == Ok(j)
    ensures Documents(s, vals, j)
    decreases s, 1
  {
    forall i | 0 <= i < |vals| ensures FieldDocumented(s, vals, j, i) {
      FieldShows(s, vals, j, i);
    }
    hide FieldDocumented;
    if |vals| > 0 {
      FieldLookup(s, vals, 0, Null, j, 0);
    }
    forall key | Shown(j, key) ensures NamesShown(s, vals, key) {
      NoOtherKeys(s, vals, 0, Null, j, key);
    }
  }

  // ------------------------------------------------------------------ what is read

  /** `v` is what a field of type `ty` takes from the JSON value `j`. */
  ghost predicate Yields(ty: Ty, j: Json, v: Value)
    decreases ty, 0
  {
    match ty
    case TBool => if j.Null? then v == VBool(false) else j.Bool? && v == VBool(j.b)
    case TInt(lo, hi) => if j.Null? then v == VInt(0) else j.Number? && lo <= j.n <= hi && v == VInt(j.n)
    // the number of the underlying type with the same low bits
    case TEnum(w, signed) =>
      if j.Null? then v == VInt(0)
      else j.Number? && -TWO_31 <= j.n < TWO_31 && v.VInt? && InRange(v.n, w, signed) && (v.n - j.n) % Span(w) == 0
    case TTicks(Whole(w, signed)) =>
      if j.Null? then v == VInt(0)
      else
        j.Number? && -(TWO_64 / 2) <= j.n < TWO_64 / 2 && v.VInt? && InRange(v.n, w, signed)
        && (v.n - j.n) % Span(w) == 0
    case TTicks(Fraction) =>
      if j.Null? then v == VReal(0.0) else j.Number? && -(TWO_64 / 2) <= j.n < TWO_64 / 2 && v == VReal(j.n as real)
    case TReal => if j.Null? then v == VReal(0.0) else j.Real? && v == VReal(j.r)
    case TText => if j.Null? then v == VText("") else j.Text? && v == VText(j.s)
    case TMap =>
      if j.Null? then v == VMap(map[])
      else j.Object? && v.VMap? && v.m.Keys == j.members.Keys && forall k :: k in v.m ==> j.members[k] == Text(v.m[k])
    case TJson => v == VJson(j)
    case TOpt(t) => v.VOpt? && v.o.Some? && Yields(t, j, v.o.value)
    case TVec(t) => j.Array? && v.VVec? && ElementsYield(t, j.items, v.vs)
    case TRec(s) => v.VRec? && Read(s, j, v.vals)
  }

  ghost predicate ElementsYield(t: Ty, js: seq<Json>, vs: seq<Value>)
    decreases t, 1
  {
    |vs| == |js| && forall k :: 0 <= k < |js| ==> Yields(t, js[k], vs[k])
  }

  /** Every field that is neither excluded nor read-only takes the value under its key, if there
      is one; all others keep their defaults; and the result validates. */
  ghost predicate Read(s: Schema, j: Json, vals: seq<Value>)
    decreases s, 3
  {
    |vals| == |s.fields| && s.validate(vals) && ReadFrom(s, j, vals, 0)
  }

  ghost predicate ReadFrom(s: Schema, j: Json, vals: seq<Value>, i: nat)
    requires |vals| == |s.fields|
    decreases s, 2
  {
    forall p :: i <= p < |vals| ==> FieldRead(s, j, vals, p)
  }

  ghost predicate FieldRead(s: Schema, j: Json, vals: seq<Value>, i: nat)
    requires i < |vals| == |s.fields|
    decreases s, 1
  {
    var f := s.fields[i];
    if f.policy == Excluded || f.policy == ReadOnly then vals[i] == f.init
    else if Shown(j, f.name) then Yields(f.ty, j.members[f.name], vals[i])
    else Container(j) && vals[i] == f.init
  }

  lemma CastUnique(n: int, w: Width, signed: bool, v: int)
    requires InRange(v, w, signed)
    ensures v == Cast(n, w, signed) <==> (v - n) % Span(w) == 0
  {
    var r, k := CastTo(n, w, signed);
    hide Cast;
    if (v - n) % Span(w) == 0 {
      var q := (v - n) / Span(w);
      assert n == v + -q * Span(w);
      CastIs(n, w, signed, v, -q);
    } else if v == r {
      DivModUnique(v - n, Span(w), -k, 0);
    }
  }

  lemma ScalarYields(ty: Ty, j: Json, v: Value)
    requires !ty.TOpt? && !ty.TVec? && !ty.TRec?
    ensures ReadScalar(ty, j) == Ok(v) <==> Yields(ty, j, v)
  {
    hide Cast;
    if ty.TMap? && j.Object? && v.VMap? {
      MapYields(j.members, v.m);
    } else if ty.TEnum? && j.Number? && v.VInt? && InRange(v.n, ty.width, ty.signed) {
      CastUnique(j.n, ty.width, ty.signed, v.n);
    } else if ty.TTicks? && ty.rep.Whole? && j.Number? && v.VInt? && InRange(v.n, ty.rep.width, ty.rep.signed) {
      CastUnique(j.n, ty.rep.width, ty.rep.signed, v.n);
    }
  }

  lemma MapYields(members: map<string, Json>, m: map<string, string>)
    ensures ReadScalar(TMap, Object(members)) == Ok(VMap(m))
            <==> m.Keys == members.Keys && forall k :: k in m ==> members[k] == Text(m[k])
  {
    if m.Keys == members.Keys && forall k :: k in m ==> members[k] == Text(m[k]) {
      assert m == map k | k in members :: (if members[k].Text? then members[k].s else "");
    }
  }

  /** A number the field cannot hold. */
  predicate Exceeds(ty: Ty, j: Json) {
    match ty
    case TInt(lo, hi) => j.Number? && !(lo <= j.n <= hi)
    case TEnum(_, _) => j.Number? && !(-TWO_31 <= j.n < TWO_31)
    case TTicks(_) => j.Number? && !(-(TWO_64 / 2) <= j.n < TWO_64 / 2)
    case _ => false
  }

  /** A value of another kind than the field, null being of every kind. */
  predicate Mismatches(ty: Ty, j: Json) {
    match ty
    case TBool => !j.Null? && !j.Bool?
    case TInt(_, _) => !j.Null? && !j.Number?
    case TEnum(_, _) => !j.Null? && !j.Number?
    case TTicks(_) => !j.Null? && !j.Number?
    case TReal => !j.Null? && !j.Real?
    case TText => !j.Null? && !j.Text?
    case TMap => !j.Null? && !(j.Object? && forall k :: k in j.members ==> j.members[k].Text?)
    case _ => false
  }

  /** The errors of a scalar field, for any document that has its key. */
  lemma ScalarErrors(input: Json, key: string, ty: Ty, current: Value, j: Json)
    requires !ty.TOpt? && !ty.TVec? && !ty.TRec? && Lookup(input, key) == Ok(Some(j))
    ensures ReadField(input, key, ty, current) == Err(OutOfRange) <==> Exceeds(ty, j)
    ensures ReadField(input, key, ty, current) == Err(WrongType) <==> Mismatches(ty, j)
    ensures ReadField(input, key, ty, current) != Err(Invalid)
  {
    hide Cast;
  }

  /** A field takes exactly what its key holds, whoever wrote the document. */
  lemma {:induction false} FieldYields(input: Json, key: string, ty: Ty, current: Value, j: Json, v: Value)
    requires Lookup(input, key) == Ok(Some(j))
    ensures ReadField(input, key, ty, current) == Ok(v) <==> Yields(ty, j, v)
    decreases ty, 0
  {
    match ty
    case TOpt(t) =>
      if v.VOpt? && v.o.Some? {
        if t.TRec? {
          DocumentReads(t.schema, j, v.o.value);
        } else {
          FieldYields(input, key, t, Zero(t), j, v.o.value);
        }
      }
    case TVec(t) =>
      if j.Array? && v.VVec? {
        ElementsRead(t, j.items, v.vs);
      }
    case TRec(s) => DocumentReads(s, j, v);
    case _ => ScalarYields(ty, j, v);
  }

  lemma {:induction false} ElementYields(t: Ty, j: Json, v: Value)
    ensures ReadElement(t, j) == Ok(v) <==> Yields(t, j, v)
    decreases t, 1
  {
    if t.TRec? {
      DocumentReads(t.schema, j, v);
      hide Deserialize;
    } else {
      FieldYields(Object(map["v" := j]), "v", t, Zero(t), j, v);
      hide ReadField, Yields;
    }
  }

  lemma {:induction false} ElementsRead(t: Ty, js: seq<Json>, vs: seq<Value>)
    ensures ReadElements(t, js) == Ok(vs) <==> ElementsYield(t, js, vs)
    decreases t, |js| + 2
  {
    hide ReadElement, Yields;
    if js != [] {
      if vs != [] {
        ElementYields(t, js[0], vs[0]);
        ElementsRead(t, js[1..], vs[1..]);
        YieldHead(t, js, vs);
        hide ElementsYield;
        assert vs == [vs[0]] + vs[1..];
      }
    }
  }

  lemma YieldHead(t: Ty, js: seq<Json>, vs: seq<Value>)
    requires js != [] && vs != []
    ensures ElementsYield(t, js, vs) <==> Yields(t, js[0], vs[0]) && ElementsYield(t, js[1..], vs[1..])
  {
    hide Yields;
    if ElementsYield(t, js[1..], vs[1..]) && Yields(t, js[0], vs[0]) {
      forall k | 0 <= k < |js| ensures Yields(t, js[k], vs[k]) {
        assert k > 0 ==> Yields(t, js[1..][k - 1], vs[1..][k - 1]);
      }
    }
  }

  /** Reading gives a configuration exactly if it is the one the document says. */
  lemma {:induction false} DocumentReads(s: Schema, j: Json, v: Value)
    ensures Deserialize(s, j) == Ok(v) <==> v.VRec? && Read(s, j, v.vals)
    decreases s, |s.fields| + 3
  {
    if v.VRec? {
      FieldsRead(s, j, v.vals, 0);
      hide DeserializeFrom, ReadFrom;
      assert v.vals[0..] == v.vals;
    }
  }

  lemma {:induction false} OneRead(s: Schema, j: Json, vals: seq<Value>, i: nat)
    requires i < |vals| == |s.fields|
    ensures ReadBack(s, j, i) == Ok(vals[i]) <==> FieldRead(s, j, vals, i)
    decreases s, 1
  {
    var f := s.fields[i];
    if Reads(f.policy) && Shown(j, f.name) {
      FieldYields(j, f.name, f.ty, f.init, j.members[f.name], vals[i]);
    }
  }

  lemma {:induction false} FieldsRead(s: Schema, j: Json, vals: seq<Value>, i: nat)
    requires i <= |s.fields|
    ensures |vals| == |s.fields| ==>
              (DeserializeFrom(s, j, i) == Ok(vals[i..]) <==> ReadFrom(s, j, vals, i))
    ensures DeserializeFrom(s, j, i).Ok? ==> |DeserializeFrom(s, j, i).value| == |s.fields| - i
    decreases s, |s.fields| - i + 2
  {
    if i < |s.fields| {
      FieldsRead(s, j, vals, i + 1);
      if |vals| == |s.fields| {
        OneRead(s, j, vals, i);
        assert vals[i..] == [vals[i]] + vals[i + 1..];
        assert vals[i..][0] == vals[i] && vals[i..][1..] == vals[i + 1..];
      }
      hide ReadField, FieldRead;
    } else if |vals| == |s.fields| {
      assert vals[i..] == [];
    }
  }

  // ------------------------------------------------------------------ which error

  /** Only null and objects have members, and only arrays have elements. */
  lemma StructureErrors(input: Json, key: string, t: Ty, current: Value)
    ensures !Container(input) ==> ReadField(input, key, t, current) == Err(WrongType)
    ensures t.TVec? && Shown(input, key) && !input.members[key].Array? ==>
              ReadField(input, key, t, current) == Err(WrongType)
  {
  }

  lemma {:induction false} FieldFails(s: Schema, j: Json, i: nat, p: nat)
    requires i <= p < |s.fields| && ReadBack(s, j, p).Err? && forall q :: i <= q < p ==> ReadBack(s, j, q).Ok?
    ensures DeserializeFrom(s, j, i) == Err(ReadBack(s, j, p).error)
    decreases p - i
  {
    hide ReadField;
    if i < p {
      assert ReadBack(s, j, i).Ok?;
      FieldFails(s, j, i + 1, p);
    }
  }

  /** The first field that cannot be read decides the error; if all can, validation does. */
  lemma DocumentFails(s: Schema, j: Json, p: nat, vals: seq<Value>)
    requires p <= |s.fields| && forall q :: 0 <= q < p ==> ReadBack(s, j, q).Ok?
    ensures p < |s.fields| && ReadBack(s, j, p).Err? ==> Deserialize(s, j) == Err(ReadBack(s, j, p).error)
    ensures |vals| == |s.fields| && ReadFrom(s, j, vals, 0) && !s.validate(vals) ==> Deserialize(s, j) == Err(Invalid)
  {
    if p < |s.fields| && ReadBack(s, j, p).Err? {
      FieldFails(s, j, 0, p);
    }
    FieldsRead(s, j, vals, 0);
    hide DeserializeFrom, ReadFrom, ReadBack;
    assert |vals| == |s.fields| ==> vals[0..] == vals;
  }
}
