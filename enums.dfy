/**
 * Python `Enum` classes as the core uses them: looked up by value (`Language(lang)`,
 * `TimePreset(value)`) and listed (`[lang.value for lang in Language]`). The members are a
 * parameter of the model; main/enums.py is not part of this model.
 */
module Enums {
  import opened Wrappers

  /** One member of an `Enum`: its name and its string value. */
  datatype Member = Member(name: string, value: string)

  /**
   * The first member (in declaration order) satisfying `p`, as a `for ... break` loop over
   * the members finds it, or `None` when none does.
   */
  function FirstWhere(members: seq<Member>, p: Member -> bool): (r: Option<nat>)
    ensures r.Some? ==> r.value < |members| && p(members[r.value])
    ensures r.Some? ==> forall j :: 0 <= j < r.value ==> !p(members[j])
    ensures r.None? <==> forall j :: 0 <= j < |members| ==> !p(members[j])
  {
    if members == [] then None
    else if p(members[0]) then Some(0)
    else
      match FirstWhere(members[1..], p)
      case None => None
      case Some(i) => Some(i + 1)
  }

  /**
   * `E(v)`: the first member whose value is `v`, or `None` where Python raises
   * `ValueError`.
   */
  function ByValue(members: seq<Member>, v: string): (r: Option<nat>)
    ensures r.Some? ==> r.value < |members| && members[r.value].value == v
    ensures r.Some? ==> forall j :: 0 <= j < r.value ==> members[j].value != v
    ensures r.None? <==> forall j :: 0 <= j < |members| ==> members[j].value != v
  {
    FirstWhere(members, (m: Member) => m.value == v)
  }

  /** `[m.value for m in E]`, in declaration order. */
  function Values(members: seq<Member>): (r: seq<string>)
    ensures |r| == |members|
    ensures forall i :: 0 <= i < |r| ==> r[i] == members[i].value
  {
    seq(|members|, i requires 0 <= i < |members| => members[i].value)
  }

  /** A lookup by value succeeds exactly for the values the listing shows. */
  lemma ByValueFindsListedValues(members: seq<Member>, v: string)
    ensures ByValue(members, v).Some? <==> v in Values(members)
  {
    var vs := Values(members);
    if v in vs {
      var i :| 0 <= i < |vs| && vs[i] == v;
      assert members[i].value == v;
    }
  }
}
