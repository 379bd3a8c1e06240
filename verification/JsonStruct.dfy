/**
Conversion between JSON and google.protobuf.Struct. It is partial on purpose: arrays become objects
keyed by index, nulls are dropped on the way back, and an empty container comes back as null.
*/
module JsonStruct {

  /** A JSON value; numbers are taken as doubles without rounding. */
  datatype Json =
    | Null
    | Bool(b: bool)
    | Number(n: real)
    | Str(s: string)
    | Binary(bytes: seq<int>)
    | Array(elems: seq<Json>)
    | Object(members: map<string, Json>)

  datatype Value =
    | NotSet
    | NullValue
    | BoolValue(b: bool)
    | NumberValue(n: real)
    | StringValue(s: string)
    | StructValue(st: Struct)
    | ListValue(elems: seq<Value>)

  datatype Struct = Struct(fields: map<string, Value>)

  predicate IsContainer(j: Json) {
    j.Array? || j.Object?
  }

  predicate IsLeaf(j: Json) {
    j.Bool? || j.Number? || j.Str?
  }

  // ----- keys of array elements

  /** `std::to_string` of an index. */
  function Decimal(n: nat): (s: string)
    ensures |s| > 0
  {
    if n < 10 then [Digit(n)] else Decimal(n / 10) + [Digit(n % 10)]
  }

  function Digit(d: nat): char
    requires d < 10
  {
    ['0', '1', '2', '3', '4', '5', '6', '7', '8', '9'][d]
  }

  lemma {:induction false} DecimalInjective(m: nat, n: nat)
    requires Decimal(m) == Decimal(n)
    ensures m == n
  {
    var a, b := Decimal(m), Decimal(n);
    assert a[|a| - 1] == Digit(m % 10) && b[|b| - 1] == Digit(n % 10);
    if m >= 10 && n >= 10 {
      assert a[..|a| - 1] == Decimal(m / 10) && b[..|b| - 1] == Decimal(n / 10);
      DecimalInjective(m / 10, n / 10);
    }
  }

  /** The number that a string of digits stands for in base ten. */
  function Reading(s: string): int {
    if s == [] then 0 else 10 * Reading(s[..|s| - 1]) + (s[|s| - 1] as int - '0' as int)
  }

  /** The usual decimal notation: only digits, no leading zero, and read in base ten it gives the number back. */
  lemma {:induction false} DecimalReads(n: nat)
    ensures Reading(Decimal(n)) == n
    ensures forall i :: 0 <= i < |Decimal(n)| ==> '0' <= Decimal(n)[i] <= '9'
    ensures n > 0 ==> Decimal(n)[0] != '0'
    ensures n == 0 ==> Decimal(n) == "0"
  {
    if n >= 10 {
      DecimalReads(n / 10);
      assert Decimal(n)[..|Decimal(n)| - 1] == Decimal(n / 10);
    }
  }

  /** The elements of an array under their index keys, the first `n` of them. */
  function Keyed(elems: seq<Json>, n: nat): (m: map<string, Json>)
    requires n <= |elems|
    ensures forall k :: k in m ==> m[k] in elems
  {
    if n == 0 then map[] else Keyed(elems, n - 1)[Decimal(n - 1) := elems[n - 1]]
  }

  predicate IsKey(k: string, n: nat) {
    exists i :: 0 <= i < n && k == Decimal(i)
  }

  lemma {:induction false} KeyedKeys(elems: seq<Json>, n: nat)
    requires n <= |elems|
    ensures forall k :: k in Keyed(elems, n) <==> IsKey(k, n)
  {
    if n > 0 {
      KeyedKeys(elems, n - 1);
      forall k ensures k in Keyed(elems, n) <==> IsKey(k, n) {
        assert k in Keyed(elems, n - 1) <==> IsKey(k, n - 1);
        IsKeyUpTo(k, n);
      }
    }
  }

  lemma IsKeyUpTo(k: string, n: nat)
    requires n > 0
    ensures IsKey(k, n) <==> IsKey(k, n - 1) || k == Decimal(n - 1)
  {
  }

  lemma NewKey(n: nat)
    ensures !IsKey(Decimal(n), n)
  {
    forall i | 0 <= i < n ensures Decimal(i) != Decimal(n) {
      if Decimal(i) == Decimal(n) {
        DecimalInjective(i, n);
      }
    }
  }

  /** Nothing is lost: key `i` holds element `i`, and there are no other keys. */
  lemma {:induction false} KeyedElements(elems: seq<Json>, n: nat)
    requires n <= |elems|
    ensures |Keyed(elems, n)| == n
    ensures forall i :: 0 <= i < n ==> Decimal(i) in Keyed(elems, n) && Keyed(elems, n)[Decimal(i)] == elems[i]
    ensures forall k :: k in Keyed(elems, n) <==> IsKey(k, n)
  {
    KeyedKeys(elems, n);
    if n > 0 {
      KeyedElements(elems, n - 1);
      NewKey(n - 1);
      assert Decimal(n - 1) !in Keyed(elems, n - 1);
      forall i | 0 <= i < n ensures Decimal(i) in Keyed(elems, n) && Keyed(elems, n)[Decimal(i)] == elems[i] {
        if i < n - 1 {
          assert Decimal(i) in Keyed(elems, n - 1);
        }
      }
    }
  }

  /** The members of a container. */
  function Children(j: Json): (m: map<string, Json>)
    requires IsContainer(j)
    ensures forall k :: k in m ==> m[k] < j
  {
    match j
    case Object(m) => m
    case Array(elems) => Keyed(elems, |elems|)
  }

  // ----- the conversions

  function ToStruct(j: Json): Struct {
    if IsContainer(j) then Fields(j)
    else if j.Null? then Struct(map[])
    else Struct(map["" := LeafValue(j)])
  }

  function Fields(j: Json): Struct
    requires IsContainer(j)
    decreases j, 0
  {
    Struct(map k | k in Children(j) :: ToValue(Children(j)[k]))
  }

  function ToValue(j: Json): Value
    decreases j, 1
  {
    if IsContainer(j) then StructValue(Fields(j)) else LeafValue(j)
  }

  function LeafValue(j: Json): Value
    requires !IsContainer(j)
  {
    match j
    case Null => NullValue
    case Bool(b) => BoolValue(b)
    case Number(n) => NumberValue(n)
    case Str(s) => StringValue(s)
    case Binary(_) => NotSet
  }

  predicate Decodes(v: Value) {
    v.BoolValue? || v.NumberValue? || v.StringValue? || v.StructValue?
  }

  function FromValue(v: Value): Json
    requires Decodes(v)
  {
    match v
    case BoolValue(b) => Bool(b)
    case NumberValue(n) => Number(n)
    case StringValue(s) => Str(s)
    case StructValue(st) => ToJson(st)
  }

  function ToJson(st: Struct): Json {
    Wrap(map k | k in st.fields && Decodes(st.fields[k]) :: FromValue(st.fields[k]))
  }

  /** An object; assigning no member at all leaves the default, null. */
  function Wrap(m: map<string, Json>): Json {
    if m == map[] then Null else Object(m)
  }

  // ----- what the conversions carry over

  /** Value `v` says what JSON value `j` says: the same scalar, or a Struct with the members of the container. */
  ghost predicate Encodes(j: Json, v: Value)
    decreases j
  {
    match j
    case Null => v == NullValue
    case Bool(b) => v == BoolValue(b)
    case Number(n) => v == NumberValue(n)
    case Str(s) => v == StringValue(s)
    case Binary(_) => v == NotSet
    case Object(m) =>
      v.StructValue? && v.st.fields.Keys == m.Keys && forall k :: k in m ==> Encodes(m[k], v.st.fields[k])
    case Array(e) =>
      && v.StructValue? && |v.st.fields| == |e|
      && forall i :: 0 <= i < |e| ==> Decimal(i) in v.st.fields && Encodes(e[i], v.st.fields[Decimal(i)])
  }

  lemma {:induction false} ValueEncodes(j: Json)
    ensures Encodes(j, ToValue(j))
    decreases j
  {
    match j
    case Object(m) =>
      assert Children(j) == m && ToValue(j).st.fields.Keys == m.Keys;
      forall k | k in m ensures Encodes(m[k], ToValue(j).st.fields[k]) {
        ValueEncodes(m[k]);
      }
    case Array(e) =>
      KeyedElements(e, |e|);
      assert ToValue(j).st.fields.Keys == Keyed(e, |e|).Keys;
      SameSize(ToValue(j).st.fields, Keyed(e, |e|));
      forall i | 0 <= i < |e|
        ensures Decimal(i) in ToValue(j).st.fields && Encodes(e[i], ToValue(j).st.fields[Decimal(i)])
      {
        assert Keyed(e, |e|)[Decimal(i)] == e[i];
        ValueEncodes(e[i]);
      }
    case _ =>
  }

  lemma SameSize(m: map<string, Value>, k: map<string, Json>)
    requires m.Keys == k.Keys
    ensures |m| == |k|
  {
    assert |m| == |m.Keys| && |k| == |k.Keys|;
  }

  /** A container becomes the Struct of its members, null an empty Struct, and a scalar one field with an empty key. */
  lemma StructSaysTheSame(j: Json)
    ensures IsContainer(j) ==> Encodes(j, StructValue(ToStruct(j)))
    ensures j.Null? ==> ToStruct(j).fields == map[]
    ensures !IsContainer(j) && !j.Null? ==>
      ToStruct(j).fields.Keys == {""} && Encodes(j, ToStruct(j).fields[""])
  {
    ValueEncodes(j);
  }

  /** The kinds of values that are copied back. */
  predicate CopiedKind(v: Value) {
    match v
    case NotSet => false
    case NullValue => false
    case ListValue(_) => false
    case _ => true
  }

  /** JSON value `j` says what value `v` says, apart from the fields that are not copied back. */
  ghost predicate Restores(v: Value, j: Json)
    decreases v
  {
    match v
    case BoolValue(b) => j == Bool(b)
    case NumberValue(n) => j == Number(n)
    case StringValue(s) => j == Str(s)
    case StructValue(st) =>
      if forall k :: k in st.fields ==> !CopiedKind(st.fields[k]) then j == Null
      else
        && j.Object?
        && (forall k :: k in j.members <==> k in st.fields && CopiedKind(st.fields[k]))
        && (forall k :: k in st.fields && CopiedKind(st.fields[k]) ==> Restores(st.fields[k], j.members[k]))
    case _ => false
  }

  /** The copied fields come back with the values they had, and without any the result is null. */
  lemma {:induction false} JsonSaysTheSame(st: Struct)
    ensures Restores(StructValue(st), ToJson(st))
    decreases st
  {
    var m := map k | k in st.fields && Decodes(st.fields[k]) :: FromValue(st.fields[k]);
    forall k | k in st.fields && CopiedKind(st.fields[k]) ensures k in m && Restores(st.fields[k], m[k]) {
      if st.fields[k].StructValue? {
        JsonSaysTheSame(st.fields[k].st);
      }
    }
  }

  /** There and back. */
  function Trip(j: Json): Json {
    ToJson(ToStruct(j))
  }

  // ----- the loops of the source

  /** What `items()` runs over: the members of a container, nothing for null, and a lone value under an empty key. */
  function Items(j: Json): map<string, Json> {
    if IsContainer(j) then Children(j) else if j.Null? then map[] else map["" := j]
  }

  lemma ToStructItems(j: Json, fields: map<string, Value>)
    requires fields.Keys == Items(j).Keys
    requires forall k :: k in fields ==> fields[k] == ToValue(Items(j)[k])
    ensures Struct(fields) == ToStruct(j)
  {
    if !IsContainer(j) && !j.Null? {
      assert "" in fields;
    }
    assert fields == ToStruct(j).fields;
  }

  method JsonToStruct(j: Json) returns (st: Struct)
    ensures st == ToStruct(j)
    decreases j, if IsContainer(j) then 0 else 2
  {
    var items := Items(j);
    var fields: map<string, Value> := map[];
    var todo := items.Keys;
    while todo != {}
      invariant todo <= items.Keys && fields.Keys == items.Keys - todo
      invariant forall k :: k in fields ==> fields[k] == ToValue(items[k])
      decreases |todo|
    {
      var k :| k in todo;
      var pv := EncodeValue(items[k]);
      fields := fields[k := pv];
      todo := todo - {k};
    }
    st := Struct(fields);
    ToStructItems(j, fields);
  }

  /** The if-chain that fills one Value. */
  method EncodeValue(v: Json) returns (pv: Value)
    ensures pv == ToValue(v)
    decreases v, 1
  {
    pv := NotSet;
    if v.Bool? {
      pv := BoolValue(v.b);
    } else if v.Number? {
      pv := NumberValue(v.n);
    } else if v.Str? {
      pv := StringValue(v.s);
    } else if v.Null? {
      pv := NullValue;
    } else if v.Array? || v.Object? {
      var inner := JsonToStruct(v);
      pv := StructValue(inner);
    }
  }

  /** `j[k] = v`, which turns null into an object. */
  function Put(j: Json, k: string, v: Json): Json
    requires j.Null? || j.Object?
  {
    if j.Null? then Object(map[k := v]) else Object(j.members[k := v])
  }

  lemma PutWrap(m: map<string, Json>, k: string, v: Json)
    ensures Put(Wrap(m), k, v) == Wrap(m[k := v])
  {
    assert k in m[k := v];
  }

  method StructToJson(st: Struct) returns (j: Json)
    ensures j == ToJson(st)
    decreases st
  {
    j := Null;
    ghost var done: map<string, Json> := map[];
    var todo := st.fields.Keys;
    while todo != {}
      invariant todo <= st.fields.Keys && j == Wrap(done)
      invariant done == map k | k in st.fields && k !in todo && Decodes(st.fields[k]) :: FromValue(st.fields[k])
      decreases |todo|
    {
      var k :| k in todo;
      if Decodes(st.fields[k]) {
        var v := DecodeValue(st.fields[k]);
        PutWrap(done, k, v);
        j := Put(j, k, v);
        done := done[k := v];
      }
      todo := todo - {k};
    }
  }

  /** The switch over the kinds that are copied back; the other kinds are skipped. */
  method DecodeValue(v: Value) returns (j: Json)
    requires Decodes(v)
    ensures j == FromValue(v)
    decreases v
  {
    match v
    case BoolValue(b) => j := Bool(b);
    case NumberValue(n) => j := Number(n);
    case StringValue(s) => j := Str(s);
    case StructValue(st) => j := StructToJson(st);
  }
}
