/**
  The modality checkboxes of the new-model form: a run of clicks on the input (or output)
  modality boxes, each handled by the shared checkbox handler.
*/
module ModalitiesCheckbox {
  import opened Wrappers
  import opened Seqs
  import opened Schema
  import CheckboxToggle

  /** One click on the box of `modality`, leaving it checked or unchecked. */
  datatype Event = Event(modality: Modality, checked: bool)

  /** The field after a run of clicks, applied in order. */
  function Replay(value: Option<seq<Modality>>, events: seq<Event>): Option<seq<Modality>>
    decreases |events|
  {
    if events == [] then value
    else Replay(CheckboxToggle.Click(value, events[0].modality, events[0].checked), events[1..])
  }

  /** The state chosen by the last click on the box of `m`, if it was clicked at all. */
  function LastClick(events: seq<Event>, m: Modality): Option<bool>
    decreases |events|
  {
    if events == [] then None
    else
      match LastClick(events[1..], m)
      case Some(b) => Some(b)
      case None => if events[0].modality == m then Some(events[0].checked) else None
  }

  /** After any run of clicks each box shows its last click, or its starting state if never clicked. */
  lemma {:induction false} ReplayShowsLastClick(value: Option<seq<Modality>>, events: seq<Event>, m: Modality)
    ensures CheckboxToggle.IsChecked(Replay(value, events), m)
         == LastClick(events, m).GetOr(CheckboxToggle.IsChecked(value, m))
    decreases |events|
  {
    if events != [] {
      var e := events[0];
      var next := CheckboxToggle.Click(value, e.modality, e.checked);
      ReplayShowsLastClick(next, events[1..], m);
      if e.modality == m {
        CheckboxToggle.ClickSetsItsBox(value, e.modality, e.checked);
      } else {
        CheckboxToggle.ClickLeavesOtherBoxes(value, e.modality, e.checked, m);
      }
    }
  }

  /** Starting from a list without duplicates, no run of clicks creates one. */
  lemma {:induction false} ReplayKeepsNoDup(value: Option<seq<Modality>>, events: seq<Event>)
    requires NoDup(CheckboxToggle.Current(value))
    ensures NoDup(CheckboxToggle.Current(Replay(value, events)))
    decreases |events|
  {
    if events != [] {
      var e := events[0];
      CheckboxToggle.ClickKeepsNoDup(value, e.modality, e.checked);
      ReplayKeepsNoDup(CheckboxToggle.Click(value, e.modality, e.checked), events[1..]);
    }
  }
}
