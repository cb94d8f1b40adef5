/** The member records the reflection queries produce, and the ordering
    the reader and the writer give them. `Type.GetFields`/`GetProperties`
    and custom-attribute lookup are inputs: a type is described by its
    public instance fields and properties, in declaration order. */
module Reflect {
  import opened Utf16
  import opened Outcomes
  import opened Dispatch

  /** `[DataMember(Name = ..., Order = ...)]`; .NET's default `Order` is -1. */
  datatype DataMemberAttr = DataMemberAttr(name: Option<Text>, order: int)

  /** A public instance field or property, with its `[DataMember]`, whether it
      carries `[NonDataMember]`, and whether it can be written: a field that is
      not `readonly`, a property with a set accessor of any visibility. */
  datatype MemberInfo =
    | FieldInfo(name: Text, fieldType: TypeDesc, dataMember: Option<DataMemberAttr>, nonDataMember: bool, writable: bool)
    | PropertyInfo(name: Text, propertyType: TypeDesc, dataMember: Option<DataMemberAttr>, nonDataMember: bool, writable: bool)

  /** What the library reads of a type through reflection. */
  datatype TypeInfo = TypeInfo(
    fields: seq<MemberInfo>,
    properties: seq<MemberInfo>,
    isDataContract: bool,
    hasDefaultConstructor: bool)

  /** A member paired with its data contract. */
  datatype MemberContractMap = MemberContractMap(member: MemberInfo, contract: DataMemberAttr)

  /** The declared type of a member: a property's `PropertyType`, a field's `FieldType`. */
  function MemberType(m: MemberInfo): (t: TypeDesc)
    ensures m.PropertyInfo? ==> t == m.propertyType
    ensures m.FieldInfo? ==> t == m.fieldType
  {
    if m.PropertyInfo? then m.propertyType else m.fieldType
  }

  /** The name a member has in JSON: the contract's name, else the member's own. */
  function ContractName(c: MemberContractMap): Text {
    c.contract.name.GetOr(c.member.name)
  }

  /** One row per member carrying `[DataMember]`, in input order; a member without one yields no row. */
  function DataMemberRows(ms: seq<MemberInfo>): (rows: seq<MemberContractMap>)
    ensures forall r :: r in rows <==> r.member in ms && r.member.dataMember == Some(r.contract)
    ensures |rows| <= |ms|
  {
    if ms == [] then []
    else
      var m := ms[0];
      (if m.dataMember.Some? then [MemberContractMap(m, m.dataMember.value)] else []) + DataMemberRows(ms[1..])
  }

  /** The members not marked `[NonDataMember]`, in input order. */
  function WithoutNonDataMembers(ms: seq<MemberInfo>): (r: seq<MemberInfo>)
    ensures forall m :: m in r <==> m in ms && !m.nonDataMember
  {
    if ms == [] then []
    else (if ms[0].nonDataMember then [] else [ms[0]]) + WithoutNonDataMembers(ms[1..])
  }

  /** The two orderings in use: the reader's `orderby Order, Name` and the writer's `orderby Name, Order`. */
  datatype SortOrder = ByOrderThenName | ByNameThenOrder

  /** `a` may precede `b` under `key`; names compare ordinally. */
  predicate KeyLe(key: SortOrder, a: MemberContractMap, b: MemberContractMap) {
    var na := ContractName(a);
    var nb := ContractName(b);
    var oa := a.contract.order;
    var ob := b.contract.order;
    match key
    case ByOrderThenName => oa < ob || (oa == ob && OrdinalLe(na, nb))
    case ByNameThenOrder => (na != nb && OrdinalLe(na, nb)) || (na == nb && oa <= ob)
  }

  lemma KeyLeTotal(key: SortOrder, a: MemberContractMap, b: MemberContractMap)
    ensures KeyLe(key, a, b) || KeyLe(key, b, a)
  {
    OrdinalLeTotal(ContractName(a), ContractName(b));
  }

  lemma KeyLeTransitive(key: SortOrder, a: MemberContractMap, b: MemberContractMap, c: MemberContractMap)
    requires KeyLe(key, a, b) && KeyLe(key, b, c)
    ensures KeyLe(key, a, c)
  {
    var na, nb, nc := ContractName(a), ContractName(b), ContractName(c);
    if OrdinalLe(na, nb) && OrdinalLe(nb, nc) {
      OrdinalLeTransitive(na, nb, nc);
    }
    if key == ByNameThenOrder && na != nb && nb != nc && OrdinalLe(na, nb) && OrdinalLe(nb, nc) && na == nc {
      OrdinalLeAntisymmetric(na, nb);
    }
  }

  /** Puts `x` before the first element it may precede. */
  function Insert(key: SortOrder, x: MemberContractMap, s: seq<MemberContractMap>): (r: seq<MemberContractMap>)
    ensures multiset(r) == multiset(s) + multiset{x}
  {
    if s == [] || KeyLe(key, x, s[0]) then [x] + s
    else assert s == [s[0]] + s[1..]; [s[0]] + Insert(key, x, s[1..])
  }

  /** A stable insertion sort: LINQ `orderby` over the rows. */
  function Sort(key: SortOrder, s: seq<MemberContractMap>): (r: seq<MemberContractMap>)
    ensures multiset(r) == multiset(s)
  {
    if s == [] then [] else assert s == [s[0]] + s[1..]; Insert(key, s[0], Sort(key, s[1..]))
  }

  predicate Sorted(key: SortOrder, s: seq<MemberContractMap>) {
    forall i, j :: 0 <= i < j < |s| ==> KeyLe(key, s[i], s[j])
  }

  lemma {:induction false} InsertSorted(key: SortOrder, x: MemberContractMap, s: seq<MemberContractMap>)
    requires Sorted(key, s)
    ensures Sorted(key, Insert(key, x, s))
    decreases |s|
  {
    if s == [] || KeyLe(key, x, s[0]) {
      forall j | 0 <= j < |s|
        ensures KeyLe(key, x, s[j])
      {
        if j > 0 {
          KeyLeTransitive(key, x, s[0], s[j]);
        }
      }
      assert forall j :: 0 < j < |s| + 1 ==> ([x] + s)[j] == s[j - 1];
    } else {
      KeyLeTotal(key, x, s[0]);
      InsertSorted(key, x, s[1..]);
      var r := Insert(key, x, s[1..]);
      forall j | 0 <= j < |r|
        ensures KeyLe(key, s[0], r[j])
      {
        assert r[j] in multiset(s[1..]) + multiset{x};
        if r[j] != x {
          assert r[j] in s[1..];
        }
      }
    }
  }

  /** Sorting yields the rows in key order. */
  lemma {:induction false} SortSorted(key: SortOrder, s: seq<MemberContractMap>)
    ensures Sorted(key, Sort(key, s))
  {
    if s != [] {
      SortSorted(key, s[1..]);
      InsertSorted(key, s[0], Sort(key, s[1..]));
    }
  }

  /** `Reflect.GetObjectMemberContracts`: the data members among the public
      fields then properties, without `[NonDataMember]` ones, by order then name. */
  function GetObjectMemberContracts(t: TypeInfo): (r: seq<MemberContractMap>)
    ensures multiset(r) == multiset(DataMemberRows(WithoutNonDataMembers(t.fields + t.properties)))
  {
    Sort(ByOrderThenName, DataMemberRows(WithoutNonDataMembers(t.fields + t.properties)))
  }

  /** What the query returns: exactly the contracted members without `[NonDataMember]`,
      in reader order, whatever `[DataContract]` says. */
  lemma GetObjectMemberContractsSpec(t: TypeInfo)
    ensures Sorted(ByOrderThenName, GetObjectMemberContracts(t))
    ensures forall r :: r in GetObjectMemberContracts(t) <==>
              (r.member in t.fields || r.member in t.properties) && !r.member.nonDataMember &&
              r.member.dataMember == Some(r.contract)
    ensures GetObjectMemberContracts(t) == GetObjectMemberContracts(t.(isDataContract := !t.isDataContract))
  {
    SortSorted(ByOrderThenName, DataMemberRows(WithoutNonDataMembers(t.fields + t.properties)));
    forall r ensures r in GetObjectMemberContracts(t) <==> r in DataMemberRows(WithoutNonDataMembers(t.fields + t.properties)) {
      assert r in GetObjectMemberContracts(t) <==> r in multiset(GetObjectMemberContracts(t));
    }
  }

  /** Sorting under orderings that agree on every pair of rows gives the same sequence. */
  lemma {:induction false} SortAgrees(s: seq<MemberContractMap>)
    requires forall i, j :: 0 <= i < |s| && 0 <= j < |s| ==>
               (KeyLe(ByOrderThenName, s[i], s[j]) <==> KeyLe(ByNameThenOrder, s[i], s[j]))
    ensures Sort(ByOrderThenName, s) == Sort(ByNameThenOrder, s)
  {
    if s != [] {
      assert forall i, j :: 0 <= i < |s[1..]| && 0 <= j < |s[1..]| ==> s[1..][i] == s[i + 1] && s[1..][j] == s[j + 1];
      SortAgrees(s[1..]);
      var t := Sort(ByOrderThenName, s[1..]);
      forall y | y in t
        ensures KeyLe(ByOrderThenName, s[0], y) <==> KeyLe(ByNameThenOrder, s[0], y)
      {
        assert y in multiset(s[1..]);
        assert y in s[1..];
      }
      InsertAgrees(s[0], t);
    }
  }

  lemma {:induction false} InsertAgrees(x: MemberContractMap, t: seq<MemberContractMap>)
    requires forall y :: y in t ==> (KeyLe(ByOrderThenName, x, y) <==> KeyLe(ByNameThenOrder, x, y))
    ensures Insert(ByOrderThenName, x, t) == Insert(ByNameThenOrder, x, t)
  {
    if t != [] && !KeyLe(ByOrderThenName, x, t[0]) {
      InsertAgrees(x, t[1..]);
    }
  }

  /** When every row shares one `Order`, the writer emits members in the reader's expected order. */
  lemma SameOrderSameSequence(s: seq<MemberContractMap>)
    requires forall i :: 0 <= i < |s| ==> s[i].contract.order == s[0].contract.order
    ensures Sort(ByOrderThenName, s) == Sort(ByNameThenOrder, s)
  {
    forall i, j | 0 <= i < |s| && 0 <= j < |s|
      ensures KeyLe(ByOrderThenName, s[i], s[j]) <==> KeyLe(ByNameThenOrder, s[i], s[j])
    {
      OrdinalLeReflexive(ContractName(s[i]));
    }
    SortAgrees(s);
  }

  /** With differing `Order`s the two sequences can differ: `A` (order 2) and `B` (order 1). */
  lemma DifferentOrdersDiffer()
    ensures var a := MemberContractMap(PropertyInfo(['A' as CodeUnit], Named([]), Some(DataMemberAttr(None, 2)), false, true), DataMemberAttr(None, 2));
            var b := MemberContractMap(PropertyInfo(['B' as CodeUnit], Named([]), Some(DataMemberAttr(None, 1)), false, true), DataMemberAttr(None, 1));
            Sort(ByOrderThenName, [a, b]) == [b, a] && Sort(ByNameThenOrder, [a, b]) == [a, b]
  {
    var a := MemberContractMap(PropertyInfo(['A' as CodeUnit], Named([]), Some(DataMemberAttr(None, 2)), false, true), DataMemberAttr(None, 2));
    var b := MemberContractMap(PropertyInfo(['B' as CodeUnit], Named([]), Some(DataMemberAttr(None, 1)), false, true), DataMemberAttr(None, 1));
    assert ContractName(a) == ['A' as CodeUnit] && ContractName(b) == ['B' as CodeUnit];
    assert OrdinalLe(ContractName(a), ContractName(b));
    assert Sort(ByOrderThenName, [b]) == [b];
    assert Sort(ByNameThenOrder, [b]) == [b];
    assert !KeyLe(ByOrderThenName, a, b);
    assert Insert(ByOrderThenName, a, []) == [a];
    assert KeyLe(ByNameThenOrder, a, b);
  }
}
