/** src/components/IndexSelector.tsx: the benchmark picker, a capped list of selected
    index ids that the component hands back to its parent after every change. */
module IndexSelector {
  import opened Prelude

  /** The `maxSelections` prop's default. */
  const DefaultMaxSelections: nat := 4

  /** A selection the component keeps in shape: within the cap and without repeats. */
  predicate WellFormed(selected: seq<string>, maxSelections: int)
  {
    |selected| <= maxSelections && Distinct(selected)
  }

  /** `toggleIndex`: a selected id is removed; an unselected one is appended while
      there is room, and ignored at the cap. */
  function Toggle(selected: seq<string>, id: string, maxSelections: int): (r: seq<string>)
    ensures id in selected ==> id !in r && forall x :: x in r <==> x in selected && x != id
    ensures id in selected ==> r == Remove(selected, id)
    ensures id !in selected && |selected| < maxSelections ==> r == selected + [id]
    ensures id !in selected && |selected| >= maxSelections ==> r == selected
  {
    if id in selected then Without(selected, id)
    else if |selected| < maxSelections then selected + [id]
    else selected
  }

  /** `removeIndex`: the chip's close button, which ignores the cap. */
  function Remove(selected: seq<string>, id: string): (r: seq<string>)
    ensures id !in r && forall x :: x in r <==> x in selected && x != id
    ensures IsSubsequence(r, selected)
  {
    WithoutKeepsOthers(selected, id);
    Without(selected, id)
  }

  /** `isDisabled`: an option is greyed out when it is unselected and the selection is full. */
  predicate IsDisabled(selected: seq<string>, id: string, maxSelections: int)
  {
    id !in selected && |selected| >= maxSelections
  }

  /** A greyed-out option is exactly one whose toggle would change nothing without
      being a removal. */
  lemma DisabledIffToggleIgnored(selected: seq<string>, id: string, maxSelections: int)
    ensures IsDisabled(selected, id, maxSelections) <==> (id !in selected && Toggle(selected, id, maxSelections) == selected)
  {
    if id !in selected && |selected| < maxSelections {
      assert Toggle(selected, id, maxSelections)[|selected|] == id;
    }
  }

  /** What the user can do in the component. */
  datatype Action = ClickOption(id: string) | RemoveChip(id: string) | ClearAll

  /** The selection handed to `onSelectionChange` (or kept, when nothing is handed):
      an option click is guarded by `!isDisabled`, the chip removes, "Clear all" empties. */
  function Apply(selected: seq<string>, action: Action, maxSelections: int): (r: seq<string>)
    ensures action.ClickOption? && IsDisabled(selected, action.id, maxSelections) ==> r == selected
    ensures action.ClickOption? && !IsDisabled(selected, action.id, maxSelections) ==>
      r == Toggle(selected, action.id, maxSelections)
    ensures action.RemoveChip? ==> r == Remove(selected, action.id)
    ensures action.ClearAll? ==> r == []
  {
    match action
    case ClickOption(id) => if IsDisabled(selected, id, maxSelections) then selected else Toggle(selected, id, maxSelections)
    case RemoveChip(id) => Remove(selected, id)
    case ClearAll => []
  }

  /** The `!isDisabled` guard on the option is redundant: a click always acts as a toggle. */
  lemma ClickIsToggle(selected: seq<string>, id: string, maxSelections: int)
    ensures Apply(selected, ClickOption(id), maxSelections) == Toggle(selected, id, maxSelections)
  {
  }

  /** Every action keeps a selection within the cap and free of repeats. */
  lemma ApplyKeepsWellFormed(selected: seq<string>, action: Action, maxSelections: int)
    requires WellFormed(selected, maxSelections)
    ensures WellFormed(Apply(selected, action, maxSelections), maxSelections)
  {
    match action
    case ClickOption(id) =>
      if id in selected {
        WithoutKeepsOthers(selected, id);
      } else if |selected| < maxSelections {
        AppendFreshDistinct(selected, id);
      }
    case RemoveChip(id) =>
      WithoutKeepsOthers(selected, id);
    case ClearAll =>
  }

  /** Toggling an id on and off again gives back the selection it started from. */
  lemma {:induction false} ToggleTwiceRestores(selected: seq<string>, id: string, maxSelections: int)
    requires id !in selected && |selected| < maxSelections
    ensures Toggle(Toggle(selected, id, maxSelections), id, maxSelections) == selected
  {
    WithoutAppended(selected, id);
  }

  lemma {:induction false} WithoutAppended(s: seq<string>, id: string)
    requires id !in s
    ensures Without(s + [id], id) == s
  {
    if s == [] {
      assert Without([id], id) == Filter([id][1..], (y: string) => y != id);
    } else {
      WithoutAppended(s[1..], id);
      assert (s + [id])[1..] == s[1..] + [id];
      assert Without(s + [id], id) == [s[0]] + Without(s[1..] + [id], id);
    }
  }
}
