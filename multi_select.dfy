/** The selection logic of frontend/src/components/ui/MultiSelect.tsx,
    generic over the option type; options are identified by the string
    `getOptionValue` gives them. */
module MultiSelect {
  import opened Common

  /** `selected.some(item => getOptionValue(item) === getOptionValue(option))` */
  function IsSelected<T>(selected: seq<T>, option: T, value: T -> string): (r: bool)
    ensures r <==> value(option) in seq(|selected|, i requires 0 <= i < |selected| => value(selected[i]))
  {
    var values := seq(|selected|, i requires 0 <= i < |selected| => value(selected[i]));
    assert forall i :: 0 <= i < |selected| ==> values[i] == value(selected[i]);
    exists i :: 0 <= i < |selected| && value(selected[i]) == value(option)
  }

  /** handleRemoveOption: drops every item with the option's value. */
  function RemoveOption<T>(selected: seq<T>, option: T, value: T -> string): (r: seq<T>)
    ensures !IsSelected(r, option, value)
  {
    var keep := (item: T) => value(item) != value(option);
    FilterMembers(selected, keep);
    Filter(selected, keep)
  }

  /** handleToggleOption: a selected option is removed, any other appended. */
  function ToggleOption<T>(selected: seq<T>, option: T, value: T -> string): (r: seq<T>)
    ensures IsSelected(r, option, value) <==> !IsSelected(selected, option, value)
  {
    if IsSelected(selected, option, value) then RemoveOption(selected, option, value)
    else
      var r := selected + [option];
      assert r[|selected|] == option;
      r
  }

  /** Toggling an unselected option appends exactly it. */
  lemma ToggleUnselectedAppends<T>(selected: seq<T>, option: T, value: T -> string)
    requires !IsSelected(selected, option, value)
    ensures ToggleOption(selected, option, value) == selected + [option]
  {
  }

  /** Removing an option that is not selected changes nothing. */
  lemma RemoveAbsentIsNoOp<T>(selected: seq<T>, option: T, value: T -> string)
    requires !IsSelected(selected, option, value)
    ensures RemoveOption(selected, option, value) == selected
  {
    FilterKeepsAll(selected, (item: T) => value(item) != value(option));
  }

  /** Removal keeps every item with another value. */
  lemma RemoveKeepsOthers<T>(selected: seq<T>, option: T, value: T -> string, k: nat)
    requires k < |selected| && value(selected[k]) != value(option)
    ensures selected[k] in RemoveOption(selected, option, value)
  {
    FilterMembers(selected, (item: T) => value(item) != value(option));
  }

  /** Toggling an unselected option twice restores the original selection. */
  lemma ToggleTwice<T>(selected: seq<T>, option: T, value: T -> string)
    requires !IsSelected(selected, option, value)
    ensures ToggleOption(ToggleOption(selected, option, value), option, value) == selected
  {
    var keep := (item: T) => value(item) != value(option);
    var once := selected + [option];
    assert once[|selected|] == option;
    FilterAppend(selected, [option], keep);
    FilterKeepsAll(selected, keep);
    assert Filter([option], keep) == [] by {
      assert [option][1..] == [];
    }
  }

  /** Toggling never selects two items with the same value. */
  lemma ToggleKeepsValuesDistinct<T>(selected: seq<T>, option: T, value: T -> string)
    requires DistinctBy(selected, value)
    ensures DistinctBy(ToggleOption(selected, option, value), value)
  {
    if IsSelected(selected, option, value) {
      FilterKeepsDistinct(selected, (item: T) => value(item) != value(option), value);
    } else {
      var r := selected + [option];
      forall i, j | 0 <= i < j < |r| ensures value(r[i]) != value(r[j]) {
        if j == |selected| {
          assert r[i] == selected[i];
        }
      }
    }
  }
}
