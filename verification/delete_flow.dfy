/** The delete-confirmation dialog shared by the category and tag tables:
    `handleDeleteClick`, `handleConfirmDelete` and the dialog's
    `onOpenChange`. The `onDelete` callback is an emitted effect. */
module DeleteFlow {
  import opened Wrappers

  /** The record a delete was requested for; categories and tags both
      reduce to their id and the name shown in the dialog. */
  datatype Target = Target(id: string, name: string)

  /** `deleteDialogOpen` and `categoryToDelete` / `tagToDelete`. */
  datatype Dialog = Dialog(open: bool, pending: Option<Target>)

  /** The state when the table mounts. */
  const Initial := Dialog(false, None)

  /** What the user can do to the dialog. `OpenChange(b)` is the dialog's
      `onOpenChange(b)`: the Cancel button, the action button and Escape send
      `false`. */
  datatype Event = ClickDelete(target: Target) | Confirm | OpenChange(open: bool)

  /** The state after one event and the id passed to `onDelete`, if any. */
  datatype Step = Step(dialog: Dialog, deleted: Option<string>)

  /** One event handler. */
  function Handle(d: Dialog, e: Event): (s: Step)
    ensures e.ClickDelete? ==> s == Step(Dialog(true, Some(e.target)), None)
    ensures e == Confirm && d.pending.Some? ==> s == Step(Dialog(false, None), Some(d.pending.value.id))
    ensures e == Confirm && d.pending.None? ==> s == Step(d, None)
    ensures e.OpenChange? ==> s == Step(Dialog(e.open, d.pending), None)
    ensures s.deleted.Some? <==> e == Confirm && d.pending.Some?
  {
    match e
    case ClickDelete(t) => Step(Dialog(true, Some(t)), None)
    case Confirm =>
      if d.pending.Some? then Step(Dialog(false, None), Some(d.pending.value.id))
      else Step(d, None)
    case OpenChange(b) => Step(d.(open := b), None)
  }

  /** The state after a sequence of events and every id passed to
      `onDelete`, in order. */
  datatype Trace = Trace(dialog: Dialog, deleted: seq<string>)

  function Run(d: Dialog, events: seq<Event>): Trace
    decreases |events|
  {
    if |events| == 0 then Trace(d, [])
    else
      var s := Handle(d, events[0]);
      var rest := Run(s.dialog, events[1..]);
      Trace(rest.dialog, (if s.deleted.Some? then [s.deleted.value] else []) + rest.deleted)
  }

  /** How many `Confirm` events a sequence holds. */
  function Confirms(events: seq<Event>): nat
    decreases |events|
  {
    if |events| == 0 then 0
    else (if events[0] == Confirm then 1 else 0) + Confirms(events[1..])
  }

  /** The ids of every target clicked in a sequence of events. */
  function Clicked(events: seq<Event>): set<string>
    decreases |events|
  {
    if |events| == 0 then {}
    else (if events[0].ClickDelete? then {events[0].target.id} else {}) + Clicked(events[1..])
  }

  /** Each `Confirm` deletes at most once, and only an id that was pending at
      the start or was clicked during the run is ever deleted. */
  lemma {:induction false} DeletionsAreRequested(d: Dialog, events: seq<Event>)
    ensures |Run(d, events).deleted| <= Confirms(events)
    ensures forall id :: id in Run(d, events).deleted ==>
      id in Clicked(events) || (d.pending.Some? && id == d.pending.value.id)
    decreases |events|
  {
    if |events| > 0 {
      var s := Handle(d, events[0]);
      DeletionsAreRequested(s.dialog, events[1..]);
    }
  }

  /** Between two clicks a request is deleted at most once: a run without
      `ClickDelete` emits one deletion if something was pending, none
      otherwise. */
  lemma {:induction false} AtMostOncePerRequest(d: Dialog, events: seq<Event>)
    requires forall i :: 0 <= i < |events| ==> !events[i].ClickDelete?
    ensures d.pending.None? ==> Run(d, events).deleted == []
    ensures d.pending.Some? ==> Run(d, events).deleted == [] || Run(d, events).deleted == [d.pending.value.id]
    decreases |events|
  {
    if |events| > 0 {
      var s := Handle(d, events[0]);
      AtMostOncePerRequest(s.dialog, events[1..]);
    }
  }

  /** Without a `Confirm` nothing is ever deleted, whatever is clicked or
      closed. */
  lemma {:induction false} NoConfirmNoDeletion(d: Dialog, events: seq<Event>)
    requires forall i :: 0 <= i < |events| ==> events[i] != Confirm
    ensures Run(d, events).deleted == []
    decreases |events|
  {
    if |events| > 0 {
      NoConfirmNoDeletion(Handle(d, events[0]).dialog, events[1..]);
    }
  }

  /** Closing the dialog keeps the pending target and deletes nothing;
      confirming right after a click deletes that target once; and after a
      close, the next click replaces the closed target, so confirming then
      deletes only the new one. The confirm button exists only while the
      dialog is open, so in the table a confirm always follows a click;
      `Handle` itself tests only whether a target is pending. */
  lemma CancelThenConfirm(d: Dialog, t: Target, u: Target)
    ensures Run(d, [ClickDelete(t), OpenChange(false)]) == Trace(Dialog(false, Some(t)), [])
    ensures Run(d, [ClickDelete(t), Confirm]) == Trace(Initial, [t.id])
    ensures Run(d, [ClickDelete(t), OpenChange(false), ClickDelete(u), Confirm]) == Trace(Initial, [u.id])
  {
    var shown := Dialog(true, Some(t));
    assert [ClickDelete(t), OpenChange(false)][1..] == [OpenChange(false)];
    assert [OpenChange(false)][1..] == [];
    assert Run(shown, [OpenChange(false)]) == Trace(Dialog(false, Some(t)), []);
    assert [ClickDelete(t), Confirm][1..] == [Confirm];
    assert [Confirm][1..] == [];
    assert Run(shown, [Confirm]) == Trace(Initial, [t.id]);
    var four := [ClickDelete(t), OpenChange(false), ClickDelete(u), Confirm];
    var reshown := Dialog(true, Some(u));
    assert [ClickDelete(u), Confirm][1..] == [Confirm];
    assert Run(reshown, [Confirm]) == Trace(Initial, [u.id]);
    assert Run(Dialog(false, Some(t)), [ClickDelete(u), Confirm]) == Trace(Initial, [u.id]);
    assert four[1..][1..] == [ClickDelete(u), Confirm];
    assert Run(shown, four[1..]) == Trace(Initial, [u.id]);
  }
}
