/**
What survives the trip through google.protobuf.Struct: exactly which JSON values come back unchanged,
and how repeated trips settle.
*/
module RoundTrip {
  import opened JsonStruct

  /** A non-empty object whose members are booleans, numbers, strings or objects of the same kind. */
  predicate Solid(j: Json) {
    j.Object? && j.members != map[] && forall k :: k in j.members ==> IsLeaf(j.members[k]) || Solid(j.members[k])
  }

  predicate Settled(j: Json) {
    j.Null? || Solid(j)
  }

  /** A member that leaves a trace in the Struct and comes back. */
  predicate Carried(j: Json) {
    IsLeaf(j) || IsContainer(j)
  }

  function Member(j: Json): Json
    requires Carried(j)
  {
    if IsContainer(j) then Trip(j) else j
  }

  lemma MemberTrip(c: Json)
    ensures Decodes(ToValue(c)) <==> Carried(c)
    ensures Carried(c) ==> FromValue(ToValue(c)) == Member(c)
  {
  }

  lemma SameMembers(fields: map<string, Value>, ch: map<string, Json>)
    requires fields.Keys == ch.Keys && forall k :: k in ch ==> fields[k] == ToValue(ch[k])
    ensures (map k | k in fields && Decodes(fields[k]) :: FromValue(fields[k])) ==
            (map k | k in ch && Carried(ch[k]) :: Member(ch[k]))
  {
    forall k | k in ch ensures Decodes(fields[k]) <==> Carried(ch[k]) {
      MemberTrip(ch[k]);
    }
    forall k | k in ch && Carried(ch[k]) ensures FromValue(fields[k]) == Member(ch[k]) {
      MemberTrip(ch[k]);
    }
  }

  /** A trip of a container acts on its members one by one: leaves stay, containers make the trip, the rest go. */
  lemma TripByMembers(j: Json)
    requires IsContainer(j)
    ensures Trip(j) == Wrap(map k | k in Children(j) && Carried(Children(j)[k]) :: Member(Children(j)[k]))
  {
    SameMembers(Fields(j).fields, Children(j));
  }

  lemma {:induction false} SolidIsFixed(j: Json)
    requires Solid(j)
    ensures Trip(j) == j
  {
    TripByMembers(j);
    forall k | k in j.members ensures Carried(j.members[k]) && Member(j.members[k]) == j.members[k] {
      if IsContainer(j.members[k]) {
        SolidIsFixed(j.members[k]);
      }
    }
    assert j.members == map k | k in j.members && Carried(j.members[k]) :: Member(j.members[k]);
  }

  lemma {:induction false} FixedIsSettled(j: Json)
    requires Trip(j) == j
    ensures Settled(j)
  {
    if IsContainer(j) {
      TripByMembers(j);
      var m := map k | k in Children(j) && Carried(Children(j)[k]) :: Member(Children(j)[k]);
      assert j == Object(m) && m != map[];
      forall k | k in j.members ensures IsLeaf(j.members[k]) || Solid(j.members[k]) {
        assert k in m;
        if IsContainer(j.members[k]) {
          FixedIsSettled(j.members[k]);
        }
      }
    }
  }

  /** The round trip is the identity exactly on null and on the solid objects. */
  lemma TripIsIdentityIff(j: Json)
    ensures Trip(j) == j <==> Settled(j)
  {
    if Trip(j) == j {
      FixedIsSettled(j);
    } else if Solid(j) {
      SolidIsFixed(j);
    }
  }

  // ----- repeated trips

  ghost function MaxOf(s: set<nat>): (m: nat)
    ensures forall x :: x in s ==> x <= m
    ensures s != {} ==> m in s
    ensures s == {} ==> m == 0
  {
    if s == {} then 0
    else
      var x :| x in s;
      assert s == (s - {x}) + {x};
      var m := MaxOf(s - {x});
      if x > m then x else m
  }

  /** Scalars and null have height 0, a container one more than its highest member. */
  ghost function Height(j: Json): nat
    decreases j, 1
  {
    if IsContainer(j) then 1 + MaxOf(Heights(j)) else 0
  }

  ghost function Heights(j: Json): set<nat>
    requires IsContainer(j)
    decreases j, 0
  {
    set k | k in Children(j) :: Height(Children(j)[k])
  }

  /** How deep a value is unsettled: 0 when settled, else one more than its worst member. */
  ghost function Unrest(j: Json): nat
    decreases j, 1
  {
    if !IsContainer(j) || Solid(j) then 0 else 1 + MaxOf(Unrests(j))
  }

  ghost function Unrests(j: Json): set<nat>
    requires IsContainer(j)
    decreases j, 0
  {
    set k | k in Children(j) :: Unrest(Children(j)[k])
  }

  ghost function Worst(j: Json): nat
    requires IsContainer(j)
  {
    MaxOf(Unrests(j))
  }

  lemma WorstAtLeast(j: Json, k: string)
    requires IsContainer(j) && k in Children(j)
    ensures Unrest(Children(j)[k]) <= Worst(j)
  {
    assert Unrest(Children(j)[k]) in Unrests(j);
  }

  lemma WorstAtMost(j: Json, b: nat)
    requires IsContainer(j) && forall k :: k in Children(j) ==> Unrest(Children(j)[k]) <= b
    ensures Worst(j) <= b
  {
  }

  lemma HeightOfMember(j: Json, k: string)
    requires IsContainer(j) && k in Children(j)
    ensures Height(Children(j)[k]) < Height(j)
  {
    assert Height(Children(j)[k]) in Heights(j);
  }

  lemma {:induction false} UnrestAtMostHeight(j: Json)
    ensures Unrest(j) <= Height(j)
  {
    if IsContainer(j) && !Solid(j) {
      forall k | k in Children(j) ensures Unrest(Children(j)[k]) <= Height(j) - 1 {
        UnrestAtMostHeight(Children(j)[k]);
        HeightOfMember(j, k);
      }
      WorstAtMost(j, Height(j) - 1);
    }
  }

  /** A container that is not solid and whose trip is an object that is not solid either had an unsettled member. */
  lemma UnsolidHasUnrest(j: Json)
    requires IsContainer(j) && Trip(j).Object? && !Solid(Trip(j))
    ensures Worst(j) >= 1
  {
    TripByMembers(j);
    var t := Trip(j);
    var k :| k in t.members && !(IsLeaf(t.members[k]) || Solid(t.members[k]));
    var c := Children(j)[k];
    assert IsContainer(c) && t.members[k] == Trip(c);
    if Solid(c) {
      SolidIsFixed(c);
    }
    WorstAtLeast(j, k);
  }

  /** Each trip lowers the unrest by one until it is gone. */
  lemma {:induction false} TripCalms(j: Json)
    requires IsContainer(j)
    ensures Trip(j).Null? || Trip(j).Object?
    ensures Unrest(j) > 0 ==> Unrest(Trip(j)) < Unrest(j)
    ensures Unrest(j) == 0 ==> Trip(j) == j
  {
    if Solid(j) {
      SolidIsFixed(j);
    } else {
      TripByMembers(j);
      var t := Trip(j);
      if t.Object? && !Solid(t) {
        UnsolidHasUnrest(j);
        forall k | k in Children(t) ensures Unrest(Children(t)[k]) <= Worst(j) - 1 {
          var c := Children(j)[k];
          WorstAtLeast(j, k);
          if IsContainer(c) {
            TripCalms(c);
          }
        }
        WorstAtMost(t, Worst(j) - 1);
      }
    }
  }

  ghost function Trips(j: Json, n: nat): Json
    decreases n
  {
    if n == 0 then j else Trips(Trip(j), n - 1)
  }

  lemma TripStep(j: Json)
    requires IsContainer(j) || j.Null?
    ensures IsContainer(Trip(j)) || Trip(j).Null?
    ensures Unrest(Trip(j)) <= if Unrest(j) > 0 then Unrest(j) - 1 else 0
  {
    if j.Null? {
      TripIsIdentityIff(j);
    } else {
      TripCalms(j);
    }
  }

  lemma {:induction false} CalmAfter(j: Json, n: nat)
    requires IsContainer(j) || j.Null?
    requires n >= Unrest(j)
    ensures Settled(Trips(j, n))
    decreases n
  {
    if n > 0 {
      TripStep(j);
      CalmAfter(Trip(j), n - 1);
    }
  }

  /**
  Repeated trips of a container reach a fixed point within as many passes as the container is high, and
  the fixed point is null or a solid object.
  */
  lemma TripsConverge(j: Json, n: nat)
    requires IsContainer(j) && n >= Height(j)
    ensures Settled(Trips(j, n)) && Trip(Trips(j, n)) == Trips(j, n)
  {
    UnrestAtMostHeight(j);
    CalmAfter(j, n);
    TripIsIdentityIff(Trips(j, n));
  }

  /** A lone scalar is wrapped under an empty key by the first pass and then stays. */
  lemma ScalarsSettle(j: Json, n: nat)
    requires !IsContainer(j) && n >= 1
    ensures Settled(Trips(j, n)) && Trip(Trips(j, n)) == Trips(j, n)
    ensures IsLeaf(j) ==> Trips(j, n) == Object(map["" := j])
  {
    if IsLeaf(j) {
      LeafTrip(j);
    }
    StaySettled(Trip(j), n - 1);
  }

  lemma LeafTrip(j: Json)
    requires IsLeaf(j)
    ensures Trip(j) == Object(map["" := j])
  {
    var m := map k | k in ToStruct(j).fields && Decodes(ToStruct(j).fields[k]) :: FromValue(ToStruct(j).fields[k]);
    assert m == map["" := j];
    assert "" in m;
  }

  lemma {:induction false} StaySettled(j: Json, n: nat)
    requires Settled(j)
    ensures Trips(j, n) == j && Trip(j) == j
  {
    TripIsIdentityIff(j);
    if n > 0 {
      StaySettled(j, n - 1);
    }
  }

  // ----- the bound is sharp

  /** `h` empty-in-the-middle objects, one in the other. */
  function Nest(h: nat): Json
    requires h >= 1
  {
    if h == 1 then Object(map[]) else Object(map["a" := Nest(h - 1)])
  }

  /** What is left of a nest after one pass: the same, with null at the bottom. */
  function Hollow(h: nat): Json {
    if h == 0 then Null else Object(map["a" := Hollow(h - 1)])
  }

  lemma OneMember(c: Json)
    ensures Trip(Object(map["a" := c])) == if Carried(c) then Object(map["a" := Member(c)]) else Null
    ensures Height(Object(map["a" := c])) == 1 + Height(c)
  {
    var j := Object(map["a" := c]);
    TripByMembers(j);
    var m := map k | k in Children(j) && Carried(Children(j)[k]) :: Member(Children(j)[k]);
    if Carried(c) {
      assert "a" in m && m == map["a" := Member(c)];
    } else {
      assert m == map[];
    }
    assert "a" in Children(j) && Heights(j) == {Height(c)};
  }

  lemma {:induction false} NestTrip(h: nat)
    requires h >= 1
    ensures Height(Nest(h)) == h && Trip(Nest(h)) == Hollow(h - 1)
  {
    if h == 1 {
      TripByMembers(Nest(1));
    } else {
      NestTrip(h - 1);
      OneMember(Nest(h - 1));
    }
  }

  lemma {:induction false} HollowTrip(h: nat)
    requires h >= 1
    ensures Trip(Hollow(h)) == Hollow(h - 1)
  {
    OneMember(Hollow(h - 1));
    if h > 1 {
      HollowTrip(h - 1);
    }
  }

  lemma {:induction false} HollowTrips(h: nat, n: nat)
    requires n <= h
    ensures Trips(Hollow(h), n) == Hollow(h - n)
  {
    if n > 0 {
      HollowTrip(h);
      HollowTrips(h - 1, n - 1);
    }
  }

  lemma {:induction false} HollowUnsettled(h: nat)
    requires h >= 1
    ensures !Settled(Hollow(h))
  {
    assert "a" in Hollow(h).members;
    if h > 1 {
      HollowUnsettled(h - 1);
    }
  }

  lemma NestTrips(h: nat, n: nat)
    requires 1 <= n <= h
    ensures Trips(Nest(h), n) == Hollow(h - n)
  {
    NestTrip(h);
    HollowTrips(h - 1, n - 1);
  }

  /** Height-many passes are needed: a nest of height `h` is unsettled after every smaller number of passes. */
  lemma HeightIsNeeded(h: nat, n: nat)
    requires 1 <= n < h
    ensures Height(Nest(h)) == h && !Settled(Trips(Nest(h), n))
  {
    NestTrip(h);
    NestTrips(h, n);
    HollowUnsettled(h - n);
  }

  // ----- the other direction

  /** A Struct all of whose values are copied back, with no empty Struct inside. */
  predicate Full(st: Struct) {
    forall k :: k in st.fields ==>
      var v := st.fields[k];
      v.BoolValue? || v.NumberValue? || v.StringValue? || (v.StructValue? && v.st.fields != map[] && Full(v.st))
  }

  lemma ReturnByFields(st: Struct)
    ensures ToStruct(ToJson(st)).fields ==
            map k | k in st.fields && Decodes(st.fields[k]) :: ToValue(FromValue(st.fields[k]))
  {
    var m := map k | k in st.fields && Decodes(st.fields[k]) :: FromValue(st.fields[k]);
    if m == map[] {
      assert forall k :: k in st.fields && Decodes(st.fields[k]) ==> k in m;
    }
  }

  lemma {:induction false} FullReturns(st: Struct)
    requires Full(st)
    ensures ToStruct(ToJson(st)) == st
  {
    ReturnByFields(st);
    forall k | k in st.fields ensures Decodes(st.fields[k]) && ToValue(FromValue(st.fields[k])) == st.fields[k] {
      var v := st.fields[k];
      if v.StructValue? {
        FullReturns(v.st);
        NonEmptyIsContainer(v.st);
      }
    }
    assert st.fields == map k | k in st.fields && Decodes(st.fields[k]) :: ToValue(FromValue(st.fields[k]));
  }

  lemma NonEmptyIsContainer(st: Struct)
    requires ToStruct(ToJson(st)) == st && st.fields != map[]
    ensures IsContainer(ToJson(st))
  {
  }

  lemma {:induction false} ReturnsIsFull(st: Struct)
    requires ToStruct(ToJson(st)) == st
    ensures Full(st)
  {
    ReturnByFields(st);
    forall k | k in st.fields
      ensures var v := st.fields[k];
        v.BoolValue? || v.NumberValue? || v.StringValue? || (v.StructValue? && v.st.fields != map[] && Full(v.st))
    {
      var v := st.fields[k];
      assert Decodes(v) && ToValue(FromValue(v)) == v;
      if v.StructValue? {
        var inner := v.st;
        ReturnsIsFull(inner);
        assert inner.fields == map[] ==> ToJson(inner).Null?;
      }
    }
  }

  /** A Struct survives the trip to JSON and back exactly when it is full. */
  lemma ReturnIsIdentityIff(st: Struct)
    ensures ToStruct(ToJson(st)) == st <==> Full(st)
  {
    if Full(st) {
      FullReturns(st);
    } else if ToStruct(ToJson(st)) == st {
      ReturnsIsFull(st);
    }
  }
}
