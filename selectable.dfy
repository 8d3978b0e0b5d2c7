/** SelectableObject: a placed object shows or hides all of its children (the
    rotation gizmo among them) when it is selected or deselected. */
module Selectable {

  /** The active flags of a transform's children after every child is set to `active`. */
  function SetAllActive(flags: seq<bool>, active: bool): (r: seq<bool>)
    ensures |r| == |flags|
    ensures forall i :: 0 <= i < |r| ==> r[i] == active
  {
    if flags == [] then [] else [active] + SetAllActive(flags[1..], active)
  }

  /** Selecting twice with the same flag is the same as selecting once. */
  lemma {:induction false} SetAllActiveIdempotent(flags: seq<bool>, active: bool)
    ensures SetAllActive(SetAllActive(flags, active), active) == SetAllActive(flags, active)
  {
    if flags != [] {
      SetAllActiveIdempotent(flags[1..], active);
    }
  }

  /** The second call decides: selecting with `b` and then with `c` leaves every flag `c`. */
  lemma {:induction false} SetAllActiveLastWins(flags: seq<bool>, b: bool, c: bool)
    ensures SetAllActive(SetAllActive(flags, b), c) == SetAllActive(flags, c)
  {
    if flags != [] {
      SetAllActiveLastWins(flags[1..], b, c);
    }
  }

  class SelectableObject {
    /** `gameObject.activeSelf` of each child of the object's transform, in child order. */
    var children: array<bool>
    /** The `_selected` field, which `SelectableObject.cs` declares and never writes. */
    var selected: bool

    constructor (childActive: seq<bool>)
      ensures fresh(children) && children[..] == childActive && !selected
    {
      children := new bool[|childActive|](i requires 0 <= i < |childActive| => childActive[i]);
      selected := false;
    }

    /** Sets the active flag of every child, in child order. */
    method Select(isSelect: bool)
      modifies children
      ensures children[..] == SetAllActive(old(children[..]), isSelect)
      ensures children.Length == old(children.Length)
      ensures selected == old(selected)
    {
      for i := 0 to children.Length
        invariant forall j :: 0 <= j < i ==> children[j] == isSelect
        invariant forall j :: i <= j < children.Length ==> children[j] == old(children[j])
      {
        children[i] := isSelect;
      }
    }
  }
}
