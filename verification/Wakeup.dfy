/**
 The local wakeup queue of the lease manager.  Each method is one critical
 section of the manager's mutex, so an interleaving of callers is a sequence of
 calls, and what Valid says holds in every interleaving.

 A flight is a reference into table, so that "the flight in the map" and "the
 flight a caller joined" can differ, as they can in the code.  waiters records,
 for the proof, every caller between joining and leaving and the channel it
 last captured.
 */
module Wakeup {
  import opened Wrappers

  type Key = nat     // a lease key
  type Ref = nat
  type Chan = nat
  type Caller = nat

  datatype Flight = Flight(ch: Chan, refs: int)

  /** How the store answered a conditional release. */
  datatype Answer = Accepted | TokenMoved | Unavailable

  datatype Waiter = Waiter(key: Key, fl: Ref, captured: Option<Chan>)

  /** The manager's fields as one value. */
  datatype Queue = Queue(
    flights: map<Key, Ref>,
    table: map<Ref, Flight>,     // the flights, by reference
    born: Ref,                   // flights made so far
    made: Chan,                      // channels made so far
    closed: set<Chan>,
    waiters: map<Caller, Waiter>)

  ghost function Of(waiters: map<Caller, Waiter>, fl: Ref): set<Caller> {
    set w | w in waiters && waiters[w].fl == fl
  }

  // ------------------------------------------------------------ the invariant

  /** The map holds distinct flights, each with a waiter, and every waiter's flight is the one in the map. */
  ghost predicate FlightsOk(q: Queue) {
    && (forall p :: p in q.table ==> p < q.born)
    && (forall k :: k in q.flights ==> q.flights[k] in q.table && q.table[q.flights[k]].refs > 0)
    && (forall k, l :: k in q.flights && l in q.flights && q.flights[k] == q.flights[l] ==> k == l)
    && forall w :: w in q.waiters ==> q.waiters[w].key in q.flights && q.flights[q.waiters[w].key] == q.waiters[w].fl
  }

  ghost predicate CountsOk(q: Queue) {
    forall p :: p in q.table ==> q.table[p].refs == |Of(q.waiters, p)|
  }

  /** An open channel belongs to one flight. */
  ghost predicate ChannelsOk(q: Queue) {
    && (forall p :: p in q.table ==> q.table[p].ch < q.made && q.table[p].ch !in q.closed)
    && (forall p, r :: p in q.table && r in q.table && p != r ==> q.table[p].ch != q.table[r].ch)
    && forall c :: c in q.closed ==> c < q.made
  }

  ghost predicate Waiting(q: Queue, w: Caller) {
    w in q.waiters && q.waiters[w].captured.Some?
  }

  /** The channel the caller captured has been closed. */
  ghost predicate Woken(q: Queue, w: Caller)
    requires Waiting(q, w)
  {
    q.waiters[w].captured.value in q.closed
  }

  /** A captured channel is its flight's current one, or has been closed. */
  ghost predicate CaptureOk(q: Queue, w: Caller)
    requires Waiting(q, w)
  {
    Woken(q, w) || (q.waiters[w].fl in q.table && q.waiters[w].captured.value == q.table[q.waiters[w].fl].ch)
  }

  ghost predicate CapturesOk(q: Queue) {
    forall w :: Waiting(q, w) ==> CaptureOk(q, w)
  }

  ghost predicate Ok(q: Queue) {
    FlightsOk(q) && CountsOk(q) && ChannelsOk(q) && CapturesOk(q)
  }

  // ------------------------------------------------------------- preservation

  lemma CountJoin(waiters: map<Caller, Waiter>, w: Caller, x: Waiter)
    requires w !in waiters
    ensures var after := waiters[w := x];
            |Of(after, x.fl)| == |Of(waiters, x.fl)| + 1 && forall p :: p != x.fl ==> Of(after, p) == Of(waiters, p)
  {
    assert Of(waiters[w := x], x.fl) == Of(waiters, x.fl) + {w};
  }

  lemma CountLeave(waiters: map<Caller, Waiter>, w: Caller)
    requires w in waiters
    ensures var fl := waiters[w].fl;
            && |Of(waiters - {w}, fl)| == |Of(waiters, fl)| - 1
            && (Of(waiters, fl) == {w} <==> |Of(waiters - {w}, fl)| == 0)
            && forall p :: p != fl ==> Of(waiters - {w}, p) == Of(waiters, p)
  {
    assert Of(waiters, waiters[w].fl) == Of(waiters - {w}, waiters[w].fl) + {w};
  }

  /** A new flight for a key the map lacks, with nobody on it yet. */
  function Launched(q: Queue, key: Key): Queue {
    q.(flights := q.flights[key := q.born], table := q.table[q.born := Flight(q.made, 0)],
       born := q.born + 1, made := q.made + 1)
  }

  function Boarded(q: Queue, key: Key, w: Caller): Queue
    requires key in q.flights && q.flights[key] in q.table
  {
    var fl := q.flights[key];
    q.(table := q.table[fl := q.table[fl].(refs := q.table[fl].refs + 1)],
       waiters := q.waiters[w := Waiter(key, fl, None)])
  }

  lemma BoardCounts(q: Queue, key: Key, w: Caller)
    requires CountsOk(q) && w !in q.waiters && key in q.flights && q.flights[key] in q.table
    ensures CountsOk(Boarded(q, key, w))
  {
    CountJoin(q.waiters, w, Waiter(key, q.flights[key], None));
  }

  lemma BoardFlights(q: Queue, key: Key, w: Caller)
    requires FlightsOk(q) && key in q.flights
    ensures FlightsOk(Boarded(q, key, w))
  {
  }

  lemma BoardChannels(q: Queue, key: Key, w: Caller)
    requires ChannelsOk(q) && CapturesOk(q) && key in q.flights && q.flights[key] in q.table
    ensures ChannelsOk(Boarded(q, key, w)) && CapturesOk(Boarded(q, key, w))
  {
    var q' := Boarded(q, key, w);
    forall v | Waiting(q', v) ensures CaptureOk(q', v) {
      assert CaptureOk(q, v);
    }
  }

  lemma BoardKeeps(q: Queue, key: Key, w: Caller)
    requires Ok(q) && w !in q.waiters && key in q.flights
    ensures Ok(Boarded(q, key, w))
  {
    BoardCounts(q, key, w);
    BoardFlights(q, key, w);
    BoardChannels(q, key, w);
  }

  /** The new flight breaks the invariant only in having nobody on it, until its caller boards. */
  lemma LaunchAndBoardKeeps(q: Queue, key: Key, w: Caller)
    requires Ok(q) && w !in q.waiters && key !in q.flights
    ensures Ok(Boarded(Launched(q, key), key, w))
  {
    var l := Launched(q, key);
    assert Of(q.waiters, q.born) == {};
    BoardCounts(l, key, w);
    LaunchChannels(q, key);
    BoardChannels(l, key, w);
    LaunchFlights(q, key, w);
  }

  lemma LaunchFlights(q: Queue, key: Key, w: Caller)
    requires FlightsOk(q) && key !in q.flights
    ensures FlightsOk(Boarded(Launched(q, key), key, w))
  {
    var q' := Boarded(Launched(q, key), key, w);
    assert forall k :: k in q.flights ==> q'.flights[k] == q.flights[k] && q.flights[k] != q.born;
  }

  lemma LaunchChannels(q: Queue, key: Key)
    requires ChannelsOk(q) && CapturesOk(q) && forall p :: p in q.table ==> p < q.born
    ensures ChannelsOk(Launched(q, key)) && CapturesOk(Launched(q, key))
  {
    var q' := Launched(q, key);
    forall v | Waiting(q', v) ensures CaptureOk(q', v) {
      assert CaptureOk(q, v);
    }
  }

  function Captured(q: Queue, w: Caller, ch: Chan): Queue
    requires w in q.waiters
  {
    q.(waiters := q.waiters[w := q.waiters[w].(captured := Some(ch))])
  }

  lemma CaptureCounts(q: Queue, w: Caller, ch: Chan)
    requires w in q.waiters && CountsOk(q)
    ensures CountsOk(Captured(q, w, ch))
  {
    forall p ensures Of(Captured(q, w, ch).waiters, p) == Of(q.waiters, p) {
    }
  }

  lemma CaptureKeeps(q: Queue, w: Caller)
    requires Ok(q) && w in q.waiters
    ensures q.waiters[w].fl in q.table && Ok(Captured(q, w, q.table[q.waiters[w].fl].ch))
  {
    var ch := q.table[q.waiters[w].fl].ch;
    CaptureCounts(q, w, ch);
    var q' := Captured(q, w, ch);
    forall v | Waiting(q', v) ensures CaptureOk(q', v) {
      assert v != w ==> CaptureOk(q, v);
    }
  }

  function Left(q: Queue, w: Caller): Queue
    requires w in q.waiters && q.waiters[w].fl in q.table
  {
    var x := q.waiters[w];
    var refs := q.table[x.fl].refs - 1;
    q.(table := q.table[x.fl := q.table[x.fl].(refs := refs)], waiters := q.waiters - {w},
       flights := if refs <= 0 && x.key in q.flights && q.flights[x.key] == x.fl then q.flights - {x.key}
                  else q.flights)
  }

  lemma LeaveCounts(q: Queue, w: Caller)
    requires CountsOk(q) && w in q.waiters && q.waiters[w].fl in q.table
    ensures CountsOk(Left(q, w)) && Left(q, w).table[q.waiters[w].fl].refs == |Of(q.waiters - {w}, q.waiters[w].fl)|
  {
    CountLeave(q.waiters, w);
  }

  lemma LeaveFlights(q: Queue, w: Caller)
    requires FlightsOk(q) && CountsOk(q) && w in q.waiters
    ensures FlightsOk(Left(q, w))
  {
    var x, q' := q.waiters[w], Left(q, w);
    LeaveCounts(q, w);
    forall v | v in q'.waiters
      ensures q'.waiters[v].key in q'.flights && q'.flights[q'.waiters[v].key] == q'.waiters[v].fl
    {
      if q.waiters[v].fl == x.fl {
        assert v in Of(q.waiters - {w}, x.fl);
      }
    }
  }

  lemma LeaveChannels(q: Queue, w: Caller)
    requires ChannelsOk(q) && CapturesOk(q) && w in q.waiters && q.waiters[w].fl in q.table
    ensures ChannelsOk(Left(q, w)) && CapturesOk(Left(q, w))
  {
    var q' := Left(q, w);
    forall v | Waiting(q', v) ensures CaptureOk(q', v) {
      assert CaptureOk(q, v);
    }
  }

  lemma LeaveKeeps(q: Queue, w: Caller)
    requires Ok(q) && w in q.waiters
    ensures q.waiters[w].fl in q.table && Ok(Left(q, w))
  {
    LeaveCounts(q, w);
    LeaveFlights(q, w);
    LeaveChannels(q, w);
  }

  function Notified(q: Queue, key: Key): Queue
    requires key in q.flights ==> q.flights[key] in q.table
  {
    if key !in q.flights then q
    else
      var fl := q.flights[key];
      q.(closed := q.closed + {q.table[fl].ch}, table := q.table[fl := q.table[fl].(ch := q.made)], made := q.made + 1)
  }

  /** Notifying wakes everyone waiting on the key and nobody else. */
  lemma NotifyWakes(q: Queue, key: Key, w: Caller)
    requires Ok(q) && Waiting(q, w)
    ensures Waiting(Notified(q, key), w)
    ensures q.waiters[w].key == key ==> Woken(Notified(q, key), w)
    ensures q.waiters[w].key != key ==> Woken(Notified(q, key), w) == Woken(q, w)
  {
  }

  lemma NotifyKeeps(q: Queue, key: Key)
    requires Ok(q)
    ensures Ok(Notified(q, key))
  {
    var q' := Notified(q, key);
    forall w | Waiting(q', w) ensures CaptureOk(q', w) {
      assert CaptureOk(q, w);
      NotifyWakes(q, key, w);
    }
  }

  // ----------------------------------------------------------------- the code

  class Manager {
    var flights: map<Key, Ref>
    var table: map<Ref, Flight>
    var born: Ref
    var made: Chan
    var closed: set<Chan>
    ghost var waiters: map<Caller, Waiter>

    ghost function View(): Queue
      reads this
    {
      Queue(flights, table, born, made, closed, waiters)
    }

    ghost predicate Valid()
      reads this
    {
      Ok(View())
    }

    constructor ()
      ensures Valid() && flights == map[] && waiters == map[]
    {
      flights, table, born, made, closed, waiters := map[], map[], 0, 0, {}, map[];
    }

    /** Joins the key's flight, making one when the map has none. */
    method Join(key: Key, ghost w: Caller) returns (fl: Ref)
      requires Valid() && w !in waiters
      modifies this
      ensures Valid() && closed == old(closed)
      ensures waiters == old(waiters)[w := Waiter(key, fl, None)]
    {
      if key in flights {
        BoardKeeps(View(), key, w);
      } else {
        LaunchAndBoardKeeps(View(), key, w);
        flights, table := flights[key := born], table[born := Flight(made, 0)];
        born, made := born + 1, made + 1;
      }
      fl := flights[key];
      table := table[fl := table[fl].(refs := table[fl].refs + 1)];
      waiters := waiters[w := Waiter(key, fl, None)];
      assert View() == if key in old(flights) then Boarded(old(View()), key, w)
                       else Boarded(Launched(old(View()), key), key, w);
    }

    /** The current channel, captured before the store is read. */
    method WaitChannel(fl: Ref, ghost w: Caller) returns (ch: Chan)
      requires Valid() && w in waiters && waiters[w].fl == fl
      modifies `waiters
      ensures Valid() && waiters == old(waiters)[w := old(waiters)[w].(captured := Some(ch))] && ch !in closed
    {
      CaptureKeeps(View(), w);
      ch := table[fl].ch;
      waiters := waiters[w := waiters[w].(captured := Some(ch))];
    }

    /** The last to leave takes the flight out of the map. */
    method Leave(key: Key, fl: Ref, ghost w: Caller)
      requires Valid() && w in waiters && waiters[w].fl == fl && waiters[w].key == key
      modifies this
      ensures Valid() && waiters == old(waiters) - {w} && closed == old(closed)
    {
      LeaveKeeps(View(), w);
      table := table[fl := table[fl].(refs := table[fl].refs - 1)];
      waiters := waiters - {w};
      if table[fl].refs <= 0 && key in flights && flights[key] == fl {
        flights := flights - {key};
      }
      assert View() == Left(old(View()), w);
    }

    method NotifyWaiters(key: Key)
      requires Valid()
      modifies this
      ensures Valid() && View() == Notified(old(View()), key)
    {
      NotifyKeeps(View(), key);
      if key in flights {
        var fl := flights[key];
        closed := closed + {table[fl].ch};
        table := table[fl := table[fl].(ch := made)];
        made := made + 1;
        assert View() == Notified(old(View()), key);
      }
    }

    /**
     No lost wakeup: when a release succeeds or finds its token moved, every
     local caller that captured a channel before reading the store finds it
     closed.  Only a release the store did not answer leaves them to their timers.
     */
    method Release(key: Key, answer: Answer)
      requires Valid()
      modifies this
      ensures Valid() && waiters == old(waiters)
      ensures !answer.Unavailable? ==>
                forall w :: Waiting(View(), w) && waiters[w].key == key ==> Woken(View(), w)
      ensures forall w :: Waiting(View(), w) && (waiters[w].key != key || answer.Unavailable?) ==>
                (Woken(View(), w) <==> waiters[w].captured.value in old(closed))
    {
      if !answer.Unavailable? {
        NotifyWaiters(key);
        forall w | Waiting(View(), w)
          ensures Woken(View(), w) || waiters[w].key != key
          ensures waiters[w].key != key ==> (Woken(View(), w) <==> waiters[w].captured.value in old(closed))
        {
          assert Waiting(old(View()), w);
          NotifyWakes(old(View()), key, w);
        }
      }
    }
  }

  /** The map holds a flight for a key exactly while somebody is between joining and leaving. */
  lemma MapIsBounded(q: Queue, key: Key)
    requires Ok(q)
    ensures key in q.flights <==> exists w :: w in q.waiters && q.waiters[w].key == key
  {
    if key in q.flights {
      var w :| w in Of(q.waiters, q.flights[key]);
      assert q.waiters[w].key == key;
    }
  }
}
