/** Delivery of `server:status_update` to the completion listeners. Each
    loaded component registers its own handler, and the event bus calls the
    registered handlers one after another; nothing is shared between them. */
module StatusDispatch {
  import opened Wrappers
  import opened Downstream
  import M2RestartHandler
  import M30Handler

  datatype Listener = M2Restart | M30

  function React(listener: Listener, update: StatusUpdate, klippy: Klippy): Reaction
  {
    match listener
    case M2Restart => M2RestartHandler.CheckRestartExecution(update, klippy)
    case M30 => M30Handler.CheckM30Execution(update, klippy)
  }

  /** The channel as seen by the next send: the first outcome is used up. */
  function Next(klippy: Klippy): Klippy
  {
    match klippy
    case Unavailable => Unavailable
    case Available(outcomes) => Available(if outcomes == [] then [] else outcomes[1..])
  }

  /** One update handed to every registered listener in turn: the commands
      they send, in order. */
  function Deliver(listeners: seq<Listener>, update: StatusUpdate, klippy: Klippy): seq<string>
  {
    if listeners == [] then []
    else React(listeners[0], update, klippy).sent + Deliver(listeners[1..], update, Next(klippy))
  }

  function Resets(n: nat): (r: seq<string>)
    ensures |r| == n && forall k | 0 <= k < n :: r[k] == ResetFile
  {
    seq(n, _ => ResetFile)
  }

  /** Every listener resets on a completed job, whatever became of the
      other listeners' sends; no listener resets on any other update. */
  lemma {:induction false} DeliverResets(listeners: seq<Listener>, update: StatusUpdate, outcomes: seq<bool>)
    ensures Deliver(listeners, update, Available(outcomes))
         == if ReportsComplete(update) then Resets(|listeners|) else []
    decreases |listeners|
  {
    if listeners != [] {
      var next := Next(Available(outcomes));
      DeliverResets(listeners[1..], update, next.outcomes);
      if ReportsComplete(update) {
        assert [ResetFile] + Resets(|listeners| - 1) == Resets(|listeners|);
      }
    }
  }

  /** With both components loaded, one completion yields two resets. */
  lemma BothComponentsResetTwice(update: StatusUpdate, outcomes: seq<bool>)
    requires ReportsComplete(update)
    ensures Deliver([M2Restart, M30], update, Available(outcomes)) == [ResetFile, ResetFile]
  {
    DeliverResets([M2Restart, M30], update, outcomes);
  }

  /** A stream of updates, each delivered to all listeners. */
  function DeliverAll(listeners: seq<Listener>, updates: seq<StatusUpdate>, klippy: Klippy): seq<string>
  {
    if updates == [] then []
    else Deliver(listeners, updates[0], klippy) + DeliverAll(listeners, updates[1..], klippy)
  }

  function CountComplete(updates: seq<StatusUpdate>): (n: nat)
    ensures n <= |updates|
  {
    if updates == [] then 0
    else (if ReportsComplete(updates[0]) then 1 else 0) + CountComplete(updates[1..])
  }

  /** Nothing remembers an earlier update: every completed update, a
      repeated one included, costs one reset per listener. */
  lemma {:induction false} DeliverAllResets(listeners: seq<Listener>, updates: seq<StatusUpdate>, outcomes: seq<bool>)
    ensures DeliverAll(listeners, updates, Available(outcomes))
         == Resets(|listeners| * CountComplete(updates))
  {
    if updates != [] {
      var n := |listeners|;
      var c := CountComplete(updates[1..]);
      var first := Deliver(listeners, updates[0], Available(outcomes));
      var rest := DeliverAll(listeners, updates[1..], Available(outcomes));
      assert DeliverAll(listeners, updates, Available(outcomes)) == first + rest;
      DeliverResets(listeners, updates[0], outcomes);
      DeliverAllResets(listeners, updates[1..], outcomes);
      assert rest == Resets(n * c);
      var m := if ReportsComplete(updates[0]) then n else 0;
      assert first == Resets(m);
      assert CountComplete(updates) == (if ReportsComplete(updates[0]) then 1 else 0) + c;
      Distribute(n, if ReportsComplete(updates[0]) then 1 else 0, c);
      ResetsAppend(m, n * c);
    }
  }

  lemma Distribute(n: nat, a: nat, c: nat)
    ensures n * (a + c) == n * a + n * c
  {
  }

  lemma ResetsAppend(a: nat, b: nat)
    ensures Resets(a) + Resets(b) == Resets(a + b)
  {
  }

  /** The same completed update delivered twice resets the file twice per
      listener: nothing deduplicates it. */
  lemma RedeliveredCompletion(listeners: seq<Listener>, update: StatusUpdate, outcomes: seq<bool>)
    requires ReportsComplete(update)
    ensures DeliverAll(listeners, [update, update], Available(outcomes)) == Resets(2 * |listeners|)
  {
    DeliverAllResets(listeners, [update, update], outcomes);
    assert [update, update][1..] == [update];
    assert [update][1..] == [];
    assert CountComplete([update, update]) == 2;
    assert |listeners| * 2 == 2 * |listeners|;
  }
}
