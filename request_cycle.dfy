/**
 * The loading/error protocol the todo and event stores run around every server call:
 * `set({loading: true, error: null})` on entry, then the `set` of the `try` block (new
 * items) or of the `catch` block (the error), then `set({loading: false})` in `finally`.
 * Each `set` publishes the whole state to subscribers.
 */
module RequestCycle {
  import opened Outcomes

  /** One published state of a store: its items, `loading` and `error`. */
  datatype Snapshot<T> = Snapshot(items: seq<T>, loading: bool, error: Option<ApiError>)

  /** The error a call leaves behind: the one it caught, or none. */
  function ErrorOf<T>(reply: Reply<T>): (e: Option<ApiError>)
    ensures e.Some? <==> reply.Err?
    ensures reply.Err? ==> e == Some(reply.error)
  {
    match reply
    case Ok(_) => None
    case Err(err) => Some(err)
  }

  /** The three states published by one call that starts with `before` and ends with `after` and `error`. */
  function Cycle<T>(before: seq<T>, after: seq<T>, error: Option<ApiError>): seq<Snapshot<T>> {
    [Snapshot(before, true, None), Snapshot(after, true, error), Snapshot(after, false, error)]
  }

  /**
   * The protocol, stated on its own: loading is raised with the error cleared before anything
   * else, the outcome is published while still loading, and loading is lowered last with the
   * outcome kept.
   */
  ghost predicate Bracketed<T>(trace: seq<Snapshot<T>>) {
    && |trace| == 3
    && trace[0].loading && trace[0].error == None
    && trace[1].loading
    && !trace[2].loading
    && trace[2].items == trace[1].items && trace[2].error == trace[1].error
  }

  lemma CycleIsBracketed<T>(before: seq<T>, after: seq<T>, error: Option<ApiError>)
    ensures Bracketed(Cycle(before, after, error))
    ensures Cycle(before, after, error)[0].items == before
  {
  }

  /** A call that failed publishes its error and leaves the items as they were. */
  lemma FailedCycle<T, U>(before: seq<T>, reply: Reply<U>)
    requires reply.Err?
    ensures var c := Cycle(before, before, ErrorOf(reply));
      forall i :: 0 <= i < |c| ==> c[i].items == before && (i > 0 ==> c[i].error == Some(reply.error))
  {
  }
}
