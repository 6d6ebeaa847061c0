/** The REST handler listing model names: every vendor's models, in one
    list and grouped by vendor. The vendor manager is not part of this
    model: its `GetModels` result is a parameter. */
module Models {
  import opened Common

  /** One vendor's group of model names. */
  datatype GroupItems = GroupItems(group: string, items: seq<string>)

  /** The JSON reply: an error, or the keys "models" and "vendors". */
  datatype Response =
    | Failure(status: int, error: string)
    | Names(status: int, models: seq<string>, vendors: map<string, seq<string>>)

  const StatusOK := 200
  const StatusServerError := 500
  const RetrieveFailed := "Server failed to retrieve model names"

  /** Every group's items, group after group. */
  function AllNames(groups: seq<GroupItems>): seq<string> {
    if groups == [] then [] else AllNames(groups[..|groups| - 1]) + groups[|groups| - 1].items
  }

  function Sizes(groups: seq<GroupItems>): (r: seq<nat>)
    ensures |r| == |groups|
    ensures forall i :: 0 <= i < |groups| ==> r[i] == |groups[i].items|
  {
    if groups == [] then [] else Sizes(groups[..|groups| - 1]) + [|groups[|groups| - 1].items|]
  }

  /** As many names as the groups hold together. */
  lemma {:induction false} AllNamesLength(groups: seq<GroupItems>)
    ensures |AllNames(groups)| == Sum(Sizes(groups))
    decreases |groups|
  {
    if groups != [] {
      var init := groups[..|groups| - 1];
      AllNamesLength(init);
      assert Sizes(groups)[..|groups| - 1] == Sizes(init);
    }
  }

  /** The `j`-th model of group `i` sits after all models of the groups
      before it: nothing is dropped, duplicated or reordered. */
  lemma {:induction false} AllNamesAt(groups: seq<GroupItems>, i: nat, j: nat)
    requires i < |groups| && j < |groups[i].items|
    ensures Sum(Sizes(groups[..i])) + j < |AllNames(groups)|
    ensures AllNames(groups)[Sum(Sizes(groups[..i])) + j] == groups[i].items[j]
    decreases |groups|
  {
    var init := groups[..|groups| - 1];
    AllNamesLength(init);
    AllNamesLength(groups);
    if i == |groups| - 1 {
      assert groups[..i] == init;
    } else {
      AllNamesAt(init, i, j);
      assert init[..i] == groups[..i];
      assert init[i] == groups[i];
    }
  }

  /** `getAllModelNames`: appends each group's items in turn. */
  method GetAllModelNames(groups: seq<GroupItems>) returns (allModelNames: seq<string>)
    ensures allModelNames == AllNames(groups)
    ensures |allModelNames| == Sum(Sizes(groups))
  {
    allModelNames := [];
    for k := 0 to |groups|
      invariant allModelNames == AllNames(groups[..k])
    {
      assert groups[..k + 1][..k] == groups[..k];
      allModelNames := allModelNames + groups[k].items;
    }
    assert groups[..|groups|] == groups;
    AllNamesLength(groups);
  }

  /** The items of the last group called `name`, if any. */
  function LastOf(groups: seq<GroupItems>, name: string): Option<seq<string>> {
    if groups == [] then None
    else if groups[|groups| - 1].group == name then Some(groups[|groups| - 1].items)
    else LastOf(groups[..|groups| - 1], name)
  }

  /** `LastOf` picks the group of that name that no later group shares it
      with, and finds one whenever some group has the name. */
  lemma {:induction false} LastOfIsLast(groups: seq<GroupItems>, name: string, i: nat)
    requires i < |groups| && groups[i].group == name
    requires forall j :: i < j < |groups| ==> groups[j].group != name
    ensures LastOf(groups, name) == Some(groups[i].items)
    decreases |groups|
  {
    if i < |groups| - 1 {
      LastOfIsLast(groups[..|groups| - 1], name, i);
    }
  }

  lemma {:induction false} LastOfNone(groups: seq<GroupItems>, name: string)
    ensures LastOf(groups, name).None? <==> forall j :: 0 <= j < |groups| ==> groups[j].group != name
    decreases |groups|
  {
    if groups != [] {
      var init := groups[..|groups| - 1];
      LastOfNone(init, name);
      if groups[|groups| - 1].group != name {
        forall j | 0 <= j < |groups| - 1 ensures groups[j].group == init[j].group { }
      }
    }
  }

  /** The `vendors` map filled by the loop of `GetModelNames`: one key per
      group name, holding the items of the last group with that name. */
  method VendorsMap(groups: seq<GroupItems>) returns (vendors: map<string, seq<string>>)
    ensures forall name :: name in vendors <==> LastOf(groups, name).Some?
    ensures forall name :: name in vendors ==> Some(vendors[name]) == LastOf(groups, name)
  {
    vendors := map[];
    for k := 0 to |groups|
      invariant forall name :: name in vendors <==> LastOf(groups[..k], name).Some?
      invariant forall name :: name in vendors ==> Some(vendors[name]) == LastOf(groups[..k], name)
    {
      assert groups[..k + 1][..k] == groups[..k];
      vendors := vendors[groups[k].group := groups[k].items];
    }
    assert groups[..|groups|] == groups;
  }

  /** `GetModelNames`: a 500 with a fixed message when the models cannot be
      retrieved, otherwise a 200 with the flat list and the grouped map. */
  method GetModelNames(getModels: Result<seq<GroupItems>, string>) returns (r: Response)
    ensures getModels.Err? ==> r == Failure(StatusServerError, RetrieveFailed)
    ensures getModels.Ok? ==>
      && r.Names? && r.status == StatusOK
      && r.models == AllNames(getModels.value)
      && (forall name :: name in r.vendors <==> LastOf(getModels.value, name).Some?)
      && (forall name :: name in r.vendors ==> Some(r.vendors[name]) == LastOf(getModels.value, name))
  {
    if getModels.Err? {
      return Failure(StatusServerError, RetrieveFailed);
    }
    var vendors := VendorsMap(getModels.value);
    var models := GetAllModelNames(getModels.value);
    r := Names(StatusOK, models, vendors);
  }
}
