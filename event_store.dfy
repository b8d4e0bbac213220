/** The event store: the user's schedule events mirrored from the server, with `loading`/`error`. */
module Events {
  import opened Outcomes
  import opened RequestCycle
  import SeqOps

  datatype Event = Event(
    eventId: int,
    title: string,
    emoticon: Option<string>,
    startDatetime: string,
    endDatetime: string,
    isRecurring: string,
    memo: string,
    category: string,
    allDay: bool)

  function EventIdOf(e: Event): int { e.eventId }

  /** `fetchEventById` only refreshes items already in the list: it never inserts. */
  lemma FetchByIdNeverInserts(events: seq<Event>, eventId: int, fetched: Event)
    ensures |SeqOps.ReplaceByKey(events, EventIdOf, eventId, fetched)| == |events|
    ensures SeqOps.KeyAbsent(events, EventIdOf, eventId) ==>
      SeqOps.ReplaceByKey(events, EventIdOf, eventId, fetched) == events
  {
    if SeqOps.KeyAbsent(events, EventIdOf, eventId) {
      SeqOps.ReplaceAbsent(events, EventIdOf, eventId, fetched);
    }
  }

  class EventStore {
    var events: seq<Event>
    var loading: bool
    var error: Option<ApiError>
    /** Every state announced to subscribers so far, oldest first. */
    ghost var published: seq<Snapshot<Event>>

    constructor ()
      ensures events == [] && !loading && error == None && published == []
    {
      events, loading, error := [], false, None;
      published := [];
    }

    /** One `set` call: the current state is announced. */
    ghost method Publish()
      modifies this`published
      ensures published == old(published) + [Snapshot(events, loading, error)]
    {
      published := published + [Snapshot(events, loading, error)];
    }

    /** Entry step of every call. */
    method Begin()
      modifies this
      ensures events == old(events) && loading && error == None
      ensures published == old(published) + [Snapshot(events, true, None)]
    {
      loading, error := true, None;
      Publish();
    }

    /** `finally` step of every call. */
    method Finish()
      modifies this
      ensures events == old(events) && !loading && error == old(error)
      ensures published == old(published) + [Snapshot(events, false, error)]
    {
      loading := false;
      Publish();
    }

    /** The body shared by the four wholesale fetches: the list becomes the server's. */
    method Refresh(reply: Reply<seq<Event>>)
      modifies this
      ensures events == if reply.Ok? then reply.value else old(events)
      ensures !loading && error == ErrorOf(reply)
      ensures published == old(published) + Cycle(old(events), events, error)
    {
      Begin();
      match reply {
        case Ok(fetched) => events := fetched;
        case Err(e) => error := Some(e);
      }
      Publish();
      Finish();
    }

    /** `GET /events`. */
    method FetchEvents(reply: Reply<seq<Event>>)
      modifies this
      ensures events == if reply.Ok? then reply.value else old(events)
      ensures !loading && error == ErrorOf(reply)
      ensures published == old(published) + Cycle(old(events), events, error)
    {
      Refresh(reply);
    }

    /** `GET /api/events/events/week` (the only event path written with the `/api` prefix). */
    method FetchWeeklyEvents(reply: Reply<seq<Event>>)
      modifies this
      ensures events == if reply.Ok? then reply.value else old(events)
      ensures !loading && error == ErrorOf(reply)
      ensures published == old(published) + Cycle(old(events), events, error)
    {
      Refresh(reply);
    }

    /** `GET /events/events/month`. */
    method FetchMonthlyEvents(reply: Reply<seq<Event>>)
      modifies this
      ensures events == if reply.Ok? then reply.value else old(events)
      ensures !loading && error == ErrorOf(reply)
      ensures published == old(published) + Cycle(old(events), events, error)
    {
      Refresh(reply);
    }

    /** `GET /events/events/day`. */
    method FetchDailyEvents(reply: Reply<seq<Event>>)
      modifies this
      ensures events == if reply.Ok? then reply.value else old(events)
      ensures !loading && error == ErrorOf(reply)
      ensures published == old(published) + Cycle(old(events), events, error)
    {
      Refresh(reply);
    }

    /** The body shared by `fetchEventById` and `updateEvent`: the returned event replaces the items with that id. */
    method ReplaceById(eventId: int, reply: Reply<Event>)
      modifies this
      ensures events == if reply.Ok? then SeqOps.ReplaceByKey(old(events), EventIdOf, eventId, reply.value) else old(events)
      ensures !loading && error == ErrorOf(reply)
      ensures published == old(published) + Cycle(old(events), events, error)
    {
      Begin();
      match reply {
        case Ok(fetched) => events := SeqOps.ReplaceByKey(events, EventIdOf, eventId, fetched);
        case Err(e) => error := Some(e);
      }
      Publish();
      Finish();
    }

    /** `GET /events/:id`; the fetched event replaces the items with that id (none is inserted). */
    method FetchEventById(eventId: int, reply: Reply<Event>)
      modifies this
      ensures events == if reply.Ok? then SeqOps.ReplaceByKey(old(events), EventIdOf, eventId, reply.value) else old(events)
      ensures !loading && error == ErrorOf(reply)
      ensures published == old(published) + Cycle(old(events), events, error)
    {
      ReplaceById(eventId, reply);
    }

    /** `POST /events`; the returned event is appended. */
    method AddEvent(reply: Reply<Event>)
      modifies this
      ensures events == if reply.Ok? then old(events) + [reply.value] else old(events)
      ensures !loading && error == ErrorOf(reply)
      ensures published == old(published) + Cycle(old(events), events, error)
    {
      Begin();
      match reply {
        case Ok(added) => events := events + [added];
        case Err(e) => error := Some(e);
      }
      Publish();
      Finish();
    }

    /** `PUT /events/:id`; the returned event replaces the items with that id. */
    method UpdateEvent(eventId: int, reply: Reply<Event>)
      modifies this
      ensures events == if reply.Ok? then SeqOps.ReplaceByKey(old(events), EventIdOf, eventId, reply.value) else old(events)
      ensures !loading && error == ErrorOf(reply)
      ensures published == old(published) + Cycle(old(events), events, error)
    {
      ReplaceById(eventId, reply);
    }

    /** `DELETE /events/:id`; the items with that id are dropped. */
    method DeleteEvent(eventId: int, reply: Reply<()>)
      modifies this
      ensures events == if reply.Ok? then SeqOps.RemoveByKey(old(events), EventIdOf, eventId) else old(events)
      ensures !loading && error == ErrorOf(reply)
      ensures published == old(published) + Cycle(old(events), events, error)
    {
      Begin();
      match reply {
        case Ok(_) => events := SeqOps.RemoveByKey(events, EventIdOf, eventId);
        case Err(e) => error := Some(e);
      }
      Publish();
      Finish();
    }
  }
}
