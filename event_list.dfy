/** The list of a day's events: who may edit or delete an event, the delete with its busy
    marker, and the empty state. */
module EventList {
  import opened Common
  import opened Types

  /** The edit and delete buttons of an event are shown only to the user who created it. */
  predicate CanEdit(user: Option<User>, event: Event) {
    user.Some? && user.value.id == event.createdBy
  }

  /** The empty-state message replaces the items exactly when there are no events. */
  predicate ShowsEmptyState(events: seq<Event>) {
    |events| == 0
  }

  /** The events whose controls are shown: the user's own events, in list order. */
  function EditableEvents(user: Option<User>, events: seq<Event>): (r: seq<Event>)
    ensures |r| <= |events|
    ensures forall e :: e in r <==> e in events && CanEdit(user, e)
    ensures user.None? ==> r == []
  {
    if events == [] then []
    else
      var rest := EditableEvents(user, events[1..]);
      assert forall e :: e in events <==> e == events[0] || e in events[1..];
      if CanEdit(user, events[0]) then [events[0]] + rest else rest
  }

  /** Nobody's controls show for an event created by someone else, whoever else is signed in. */
  lemma {:induction false} OthersEventsHaveNoControls(user: User, events: seq<Event>)
    requires forall i :: 0 <= i < |events| ==> events[i].createdBy != user.id
    ensures EditableEvents(Some(user), events) == []
  {
    if events != [] {
      OthersEventsHaveNoControls(user, events[1..]);
    }
  }

  /** With the empty state shown, no event carries controls. */
  lemma EmptyStateHasNoControls(user: Option<User>, events: seq<Event>)
    requires ShowsEmptyState(events)
    ensures EditableEvents(user, events) == []
  {
  }

  class EventListView {
    var events: seq<Event>
    /** The id of the event being deleted, whose delete button shows a spinner. */
    var deletingId: Option<string>

    constructor (events: seq<Event>)
      ensures this.events == events && deletingId.None?
    {
      this.events := events;
      deletingId := None;
    }

    /** The first half of `handleDelete`, up to the awaited delete: nothing happens without a
        user; otherwise the event is marked as being deleted. `started` says whether
        `deleteEvent` is called. */
    method BeginDelete(user: Option<User>, eventId: string) returns (started: bool)
      modifies this`deletingId
      ensures started <==> user.Some?
      ensures started ==> deletingId == Some(eventId)
      ensures !started ==> deletingId == old(deletingId)
    {
      if user.None? {
        return false;
      }
      deletingId := Some(eventId);
      started := true;
    }

    /** The second half of `handleDelete`, once the delete has answered: the marker is
        cleared whatever the answer, and `refresh` (the call of `onEventsUpdate`) happens only
        when the delete succeeded. */
    method FinishDelete(outcome: Backend) returns (refresh: bool)
      modifies this`deletingId
      ensures deletingId.None?
      ensures refresh <==> outcome.Succeeded?
    {
      refresh := false;
      match outcome {
        case Failed(_) =>
        case Threw(_) =>
        case Succeeded => refresh := true;
      }
      deletingId := None;
    }

    /** The whole of `handleDelete` for one event: without a user nothing changes; with one,
        no event is left marked as being deleted once it is over, whatever the answer. */
    method HandleDelete(user: Option<User>, eventId: string, outcome: Backend) returns (refresh: bool)
      modifies this`deletingId
      ensures user.None? ==> deletingId == old(deletingId) && !refresh
      ensures user.Some? ==> deletingId.None?
      ensures refresh <==> user.Some? && outcome.Succeeded?
    {
      var started := BeginDelete(user, eventId);
      refresh := false;
      if started {
        refresh := FinishDelete(outcome);
      }
    }
  }
}
