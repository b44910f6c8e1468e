/**
  The change handler shared by the capability and modality checkboxes of the new-model form.
  The form field holds a list of values, or is undefined (`None`); a click either asks the
  form to replace the list or asks nothing at all.
*/
module CheckboxToggle {
  import opened Wrappers
  import opened Seqs

  /** What one click asks of the form. */
  datatype Update<T> = NoUpdate | Replace(list: seq<T>)

  /** `field.value || []`: an undefined field reads as the empty list. */
  function Current<T>(value: Option<seq<T>>): seq<T> {
    value.GetOr([])
  }

  /** `field.value?.includes(item)`: the box shows as checked. */
  function IsChecked<T(==)>(value: Option<seq<T>>, item: T): (b: bool)
    ensures b <==> item in Current(value)
  {
    match value
    case None => false
    case Some(list) => Includes(list, item)
  }

  /**
    `onCheckedChange`: checking appends the item unless it is already there (then nothing is
    asked); unchecking asks for the list without any occurrence of the item.
  */
  function OnCheckedChange<T(==)>(value: Option<seq<T>>, item: T, checked: bool): (u: Update<T>)
    ensures checked ==> (u.NoUpdate? <==> item in Current(value))
    ensures checked && u.Replace? ==> u.list == Current(value) + [item]
    ensures !checked ==> u.Replace? && item !in u.list
    ensures !checked ==> IsSubsequence(u.list, Current(value))
    ensures !checked ==> multiset(u.list) == multiset(Current(value))[item := 0]
  {
    var current := Current(value);
    if checked then
      if !Includes(current, item) then Replace(current + [item]) else NoUpdate
    else
      Replace(RemoveAll(current, item))
  }

  /** The field after the form has applied an update. */
  function Apply<T>(value: Option<seq<T>>, u: Update<T>): Option<seq<T>> {
    match u
    case NoUpdate => value
    case Replace(list) => Some(list)
  }

  /** One click: the handler runs and the form applies what it asked for. */
  function Click<T(==)>(value: Option<seq<T>>, item: T, checked: bool): Option<seq<T>> {
    Apply(value, OnCheckedChange(value, item, checked))
  }

  /** After a click the box shows the state just chosen. */
  lemma ClickSetsItsBox<T>(value: Option<seq<T>>, item: T, checked: bool)
    ensures IsChecked(Click(value, item, checked), item) == checked
  {
  }

  /** A click leaves every other box as it was. */
  lemma ClickLeavesOtherBoxes<T>(value: Option<seq<T>>, item: T, checked: bool, other: T)
    requires other != item
    ensures IsChecked(Click(value, item, checked), other) == IsChecked(value, other)
  {
    var current := Current(value);
    if !checked {
      assert multiset(RemoveAll(current, item))[other] == multiset(current)[other];
    }
  }

  /** Checking keeps the existing entries in order: they form a prefix of the new list. */
  lemma CheckKeepsPrefix<T>(value: Option<seq<T>>, item: T)
    ensures Current(value) <= Current(Click(value, item, true))
    ensures |Current(Click(value, item, true))| == |Current(value)| + (if item in Current(value) then 0 else 1)
  {
  }

  /** Checking twice is the same as checking once. */
  lemma CheckIdempotent<T>(value: Option<seq<T>>, item: T)
    ensures Click(Click(value, item, true), item, true) == Click(value, item, true)
  {
    var once := Click(value, item, true);
    assert item in Current(once);
  }

  /** Checking an absent item and then unchecking it gives back the original list. */
  lemma CheckThenUncheckRestores<T>(value: Option<seq<T>>, item: T)
    requires !IsChecked(value, item)
    ensures Current(Click(Click(value, item, true), item, false)) == Current(value)
  {
    RemoveAppended(Current(value), item);
  }

  /** A click never introduces a duplicate. */
  lemma ClickKeepsNoDup<T>(value: Option<seq<T>>, item: T, checked: bool)
    requires NoDup(Current(value))
    ensures NoDup(Current(Click(value, item, checked)))
  {
    var current := Current(value);
    if checked {
      if item !in current {
        var list := current + [item];
        forall i, j | 0 <= i < j < |list|
          ensures list[i] != list[j]
        {
          if j == |current| {
            assert list[i] == current[i];
          }
        }
      }
    } else {
      RemoveAllKeepsNoDup(current, item);
    }
  }
}
