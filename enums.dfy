/** `convert_list_to_enum`: a list of strings becomes an enum whose member
    names are the values, upper-cased by default. */
module Enums {
  import opened Wrappers
  import opened Dicts
  import opened Strs

  const DEFAULT_ENUM_NAME := "DynamicEnum"

  /** The functional-API enum `NoValue(name, members)`. */
  datatype Enum = Enum(name: string, members: Dict<string, string>)

  /** The member name given to a value. */
  function MemberName(v: string, upper: bool): string {
    if upper then Upper(v) else v
  }

  /** The dict comprehension `{name(el): el for el in values}`, continued
      from `acc`: a later value under the same name replaces the earlier one,
      and the name keeps its first position. */
  function MembersFrom(acc: Dict<string, string>, values: seq<string>, upper: bool): (r: Dict<string, string>)
    ensures Distinct(acc) ==> Distinct(r)
    decreases |values|
  {
    if values == [] then acc
    else
      PutDistinct(acc, MemberName(values[0], upper), values[0]);
      MembersFrom(Put(acc, MemberName(values[0], upper), values[0]), values[1..], upper)
  }

  function Members(values: seq<string>, upper: bool): (r: Dict<string, string>)
    ensures Distinct(r)
  {
    MembersFrom([], values, upper)
  }

  /** `convert_list_to_enum(values, enum_name, upper)`. */
  function ConvertListToEnum(values: seq<string>, enumName: string, upper: bool): (r: Enum)
    ensures r.name == enumName && Distinct(r.members)
  {
    Enum(enumName, Members(values, upper))
  }

  /** Some value is named `k`. */
  predicate Named(values: seq<string>, upper: bool, k: string) {
    exists i :: 0 <= i < |values| && MemberName(values[i], upper) == k
  }

  /** The value a comprehension leaves under `k`: that of the last value
      named `k`, or the one in `acc` when none is. */
  lemma {:induction false} MembersFromGet(acc: Dict<string, string>, values: seq<string>, upper: bool, k: string)
    ensures Get(MembersFrom(acc, values, upper), k)
      == if Named(values, upper, k) then Some(values[LastNamed(values, upper, k)]) else Get(acc, k)
    decreases |values|
  {
    if values != [] {
      var n0 := MemberName(values[0], upper);
      var acc' := Put(acc, n0, values[0]);
      PutGet(acc, n0, values[0], k);
      MembersFromGet(acc', values[1..], upper, k);
      if Named(values[1..], upper, k) {
        LastNamedTail(values, upper, k);
      } else if n0 == k {
        LastNamedFirst(values, upper, k);
      } else {
        NamedCons(values, upper, k);
      }
    }
  }

  /** A name absent from the tail and from the first value is absent. */
  lemma NamedCons(values: seq<string>, upper: bool, k: string)
    requires values != [] && MemberName(values[0], upper) != k && !Named(values[1..], upper, k)
    ensures !Named(values, upper, k)
  {
    forall i | 0 < i < |values| ensures MemberName(values[i], upper) != k {
      assert values[i] == values[1..][i - 1];
    }
  }

  /** The index of the last value named `k`. */
  function LastNamed(values: seq<string>, upper: bool, k: string): (i: nat)
    requires Named(values, upper, k)
    ensures i < |values| && MemberName(values[i], upper) == k
    ensures forall j :: i < j < |values| ==> MemberName(values[j], upper) != k
    decreases |values|
  {
    var n := |values| - 1;
    if MemberName(values[n], upper) == k then n
    else
      var front := values[..n];
      var i :| 0 <= i < |values| && MemberName(values[i], upper) == k;
      assert i < n && front[i] == values[i];
      assert forall j :: 0 <= j < n ==> front[j] == values[j];
      LastNamed(front, upper, k)
  }

  /** The last value named `k` is the only index with the two properties. */
  lemma LastNamedUnique(values: seq<string>, upper: bool, k: string, i: nat)
    requires i < |values| && MemberName(values[i], upper) == k
    requires forall j :: i < j < |values| ==> MemberName(values[j], upper) != k
    ensures LastNamed(values, upper, k) == i
  {
    var l := LastNamed(values, upper, k);
    assert !(l < i) && !(i < l);
  }

  lemma LastNamedTail(values: seq<string>, upper: bool, k: string)
    requires values != []
    requires Named(values[1..], upper, k)
    ensures Named(values, upper, k)
    ensures LastNamed(values, upper, k) == LastNamed(values[1..], upper, k) + 1
  {
    var l := LastNamed(values[1..], upper, k);
    assert MemberName(values[l + 1], upper) == k;
    forall j | l + 1 < j < |values| ensures MemberName(values[j], upper) != k {
      assert values[j] == values[1..][j - 1];
    }
    LastNamedUnique(values, upper, k, l + 1);
  }

  lemma LastNamedFirst(values: seq<string>, upper: bool, k: string)
    requires values != [] && MemberName(values[0], upper) == k
    requires !Named(values[1..], upper, k)
    ensures LastNamed(values, upper, k) == 0
  {
    forall j | 0 < j < |values| ensures MemberName(values[j], upper) != k {
      assert values[j] == values[1..][j - 1];
    }
    LastNamedUnique(values, upper, k, 0);
  }

  /** The member names are exactly the names of the values, and each
      names the last value that has that name. */
  lemma MembersGet(values: seq<string>, upper: bool, k: string)
    ensures HasKey(Members(values, upper), k) <==> exists i :: 0 <= i < |values| && MemberName(values[i], upper) == k
    ensures HasKey(Members(values, upper), k) ==>
      Get(Members(values, upper), k) == Some(values[LastNamed(values, upper, k)])
  {
    MembersFromGet([], values, upper, k);
  }

  /** With `upper`, every member name is the upper case of some value and
      names a value whose upper case it is; values that coincide once
      upper-cased share one member, the last of them. */
  lemma UpperMembers(values: seq<string>, k: string)
    requires HasKey(Members(values, true), k)
    ensures exists i :: 0 <= i < |values| && Upper(values[i]) == k
    ensures var v := Get(Members(values, true), k).value; v in values && Upper(v) == k
    ensures forall j :: 0 <= j < |values| && Upper(values[j]) == k ==>
      Get(Members(values, true), k) == Some(values[LastNamed(values, true, k)])
  {
    MembersGet(values, true, k);
    var i :| 0 <= i < |values| && MemberName(values[i], true) == k;
  }

  /** Without `upper`, the members are the identity on the values. */
  lemma IdentityMembers(values: seq<string>, v: string)
    ensures HasKey(Members(values, false), v) <==> v in values
    ensures v in values ==> Get(Members(values, false), v) == Some(v)
  {
    MembersGet(values, false, v);
    if v in values {
      var i :| 0 <= i < |values| && values[i] == v;
      assert MemberName(values[i], false) == v;
    }
  }

  /** `['red', 'green', 'blue']` gives `{'RED': 'red', 'GREEN': 'green',
      'BLUE': 'blue'}` under the default name. */
  lemma DocumentedExample()
    ensures ConvertListToEnum(["red", "green", "blue"], DEFAULT_ENUM_NAME, true)
      == Enum("DynamicEnum", [("RED", "red"), ("GREEN", "green"), ("BLUE", "blue")])
  {
    assert Upper("red") == "RED";
    assert Upper("green") == "GREEN";
    assert Upper("blue") == "BLUE";
  }
}
