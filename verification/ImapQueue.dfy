/** The lock around one IMAP connection: hand-off on release, two priorities, a bound
    on the queue and a cancellation that may race the hand-off. */
module ImapQueue {
  import opened Basics

  const QUEUE_LIMIT: nat := 64

  /** One call waiting for the connection. `ticket` stands for the identity of its `ready`
      channel, handed out in arrival order; `done` says the caller can be told to give up. */
  datatype Waiter = Waiter(ticket: nat, background: bool, done: bool)

  /** What the mutex guards, plus the channels closed so far and the next ticket. */
  datatype Queue = Queue(busy: bool, waiters: seq<Waiter>, ready: set<nat>, next: nat)

  datatype Answer = Refused | Full | Owner | Queued(ticket: nat)

  // ----- the three critical sections, as functions of the guarded state

  function RemoveAt<T>(s: seq<T>, i: nat): (r: seq<T>)
    requires i < |s|
    ensures |r| == |s| - 1
  {
    s[..i] + s[i + 1..]
  }

  function Tickets(ws: seq<Waiter>): set<nat> {
    set i | 0 <= i < |ws| :: ws[i].ticket
  }

  /** Whom a release wakes: the first foreground waiter, else the first of all. */
  function Chosen(ws: seq<Waiter>): (i: nat)
    requires ws != []
    ensures i < |ws|
    ensures !ws[i].background ==> i == Foreground(ws)
    ensures ws[i].background ==> i == 0 && forall j | 0 <= j < |ws| :: ws[j].background
  {
    var i := Foreground(ws);
    if i < |ws| then i else 0
  }

  /** The place of the first foreground waiter, or the length when there is none. */
  function Foreground(ws: seq<Waiter>): (i: nat)
    ensures i <= |ws|
    ensures i < |ws| ==> !ws[i].background
    ensures forall j | 0 <= j < i :: ws[j].background
  {
    if ws == [] || !ws[0].background then 0 else 1 + Foreground(ws[1..])
  }

  function Entered(q: Queue, cancelled: bool, done: bool, background: bool): (Queue, Answer) {
    if cancelled then (q, Refused)
    else if !q.busy then (q.(busy := true), Owner)
    else if done && |q.waiters| >= QUEUE_LIMIT then (q, Full)
    else (q.(waiters := q.waiters + [Waiter(q.next, background, done)], next := q.next + 1), Queued(q.next))
  }

  function Released(q: Queue): Queue {
    if q.waiters == [] then q.(busy := false)
    else
      var i := Chosen(q.waiters);
      q.(waiters := RemoveAt(q.waiters, i), ready := q.ready + {q.waiters[i].ticket})
  }

  function Place(ws: seq<Waiter>, ticket: nat): (i: nat)
    requires ticket in Tickets(ws)
    ensures i < |ws| && ws[i].ticket == ticket
    ensures forall j | 0 <= j < i :: ws[j].ticket != ticket
  {
    if ws[0].ticket == ticket then 0
    else
      assert ticket in Tickets(ws[1..]) by { TicketsAfterRemoval(ws, 0); }
      1 + Place(ws[1..], ticket)
  }

  function Withdrawn(q: Queue, ticket: nat): Queue {
    if ticket in Tickets(q.waiters) then q.(waiters := RemoveAt(q.waiters, Place(q.waiters, ticket))) else q
  }

  /** Removing a place removes its ticket, if no other waiter has it. */
  lemma TicketsAfterRemoval(ws: seq<Waiter>, i: nat)
    requires i < |ws|
    ensures Tickets(ws) == Tickets(RemoveAt(ws, i)) + {ws[i].ticket}
  {
    var r := RemoveAt(ws, i);
    forall k | 0 <= k < |ws| && k != i
      ensures ws[k].ticket in Tickets(r)
    {
      assert r[if k < i then k else k - 1] == ws[k];
    }
  }

  // ----- the queue as it is written: fields changed under a mutex

  class ImapQueue {
    var busy: bool
    var waiters: seq<Waiter>
    ghost var ready: set<nat>
    var next: nat

    constructor ()
      ensures State() == Queue(false, [], {}, 0)
    {
      busy, waiters, ready, next := false, [], {}, 0;
    }

    ghost function State(): Queue
      reads this
    {
      Queue(busy, waiters, ready, next)
    }

    /** The first section of `acquire`, up to where it may have to wait. */
    method Enter(cancelled: bool, done: bool, background: bool) returns (answer: Answer)
      modifies this
      ensures (State(), answer) == Entered(old(State()), cancelled, done, background)
      ensures cancelled ==> answer == Refused && State() == old(State())
      ensures !cancelled && !old(busy) ==> answer == Owner && busy && waiters == old(waiters) && next == old(next)
      ensures !cancelled && old(busy) && done && |old(waiters)| >= 64 ==> answer == Full && State() == old(State())
      ensures !cancelled && old(busy) && !(done && |old(waiters)| >= 64) ==>
                && answer == Queued(old(next)) && busy && next == old(next) + 1
                && waiters == old(waiters) + [Waiter(old(next), background, done)]
    {
      if cancelled { return Refused; }
      if !busy {
        busy := true;
        return Owner;
      }
      if done && |waiters| >= QUEUE_LIMIT { return Full; }
      answer := Queued(next);
      waiters := waiters + [Waiter(next, background, done)];
      next := next + 1;
    }

    /** The section after a cancelled wait: false when the waiter is gone because it
        was handed the connection, which the caller must then release. */
    method Withdraw(ticket: nat) returns (waited: bool)
      modifies this
      ensures State() == Withdrawn(old(State()), ticket)
      ensures waited == (ticket in old(Tickets(waiters)))
    {
      var i := 0;
      while i < |waiters|
        invariant i <= |waiters|
        invariant State() == old(State())
        invariant forall j | 0 <= j < i :: waiters[j].ticket != ticket
      {
        if waiters[i].ticket == ticket {
          assert i == Place(waiters, ticket);
          waiters := waiters[..i] + waiters[i + 1..];
          return true;
        }
        i := i + 1;
      }
      return false;
    }

    method Release()
      modifies this
      ensures State() == Released(old(State()))
    {
      if |waiters| == 0 {
        busy := false;
        return;
      }
      var chosen, i := 0, 0;
      while i < |waiters|
        invariant i <= |waiters| && chosen == 0
        invariant forall j | 0 <= j < i :: waiters[j].background
      {
        if !waiters[i].background {
          chosen := i;
          break;
        }
        i := i + 1;
      }
      assert chosen == Chosen(waiters) by { ChosenIsUnique(waiters, chosen); }
      ready := ready + {waiters[chosen].ticket};
      waiters := waiters[..chosen] + waiters[chosen + 1..];
    }
  }

  lemma ChosenIsUnique(ws: seq<Waiter>, i: nat)
    requires i < |ws|
    requires !ws[i].background ==> forall j | 0 <= j < i :: ws[j].background
    requires ws[i].background ==> i == 0 && forall j | 0 <= j < |ws| :: ws[j].background
    ensures i == Chosen(ws)
  {
    var c := Chosen(ws);
    assert ws[c].background == ws[i].background;
  }

  // ----- many processes

  /** Where a process is in `acquire` or in its use of the connection; a process not in
      the map is in neither. A cancelling process has left its wait and not yet locked the
      queue again; a returning one found its waiter gone and is about to release. */
  datatype Phase = Waiting(ticket: nat) | Cancelling(ticket: nat) | Running | Returning {
    predicate Pends() { Waiting? || Cancelling? }
  }

  datatype World = World(q: Queue, at: map<nat, Phase>)

  datatype Event =
    | Enter(p: nat, cancelled: bool, done: bool, background: bool)
    | Resume(p: nat)
    | Cancel(p: nat)
    | Withdraw(p: nat)
    | Release(p: nat)

  const INITIAL := World(Queue(false, [], {}, 0), map[])

  predicate Enabled(w: World, e: Event) {
    match e
    case Enter(p, _, _, _) => p !in w.at
    case Resume(p) => p in w.at && w.at[p].Waiting? && w.at[p].ticket in w.q.ready
    case Cancel(p) => p in w.at && w.at[p].Waiting?
    case Withdraw(p) => p in w.at && w.at[p].Cancelling?
    case Release(p) => p in w.at && (w.at[p].Running? || w.at[p].Returning?)
  }

  function Step(w: World, e: Event): World
    requires Enabled(w, e)
  {
    match e
    case Enter(p, cancelled, done, background) =>
      var (q, answer) := Entered(w.q, cancelled, done, background);
      (match answer
       case Refused => w
       case Full => w
       case Owner => World(q, w.at[p := Running])
       case Queued(t) => World(q, w.at[p := Waiting(t)]))
    case Resume(p) => w.(at := w.at[p := Running])
    case Cancel(p) => w.(at := w.at[p := Cancelling(w.at[p].ticket)])
    case Withdraw(p) =>
      var t := w.at[p].ticket;
      if t in Tickets(w.q.waiters) then World(Withdrawn(w.q, t), w.at - {p})
      else w.(at := w.at[p := Returning])
    case Release(p) => World(Released(w.q), w.at - {p})
  }

  predicate Runs(w: World, es: seq<Event>)
    decreases |es|
  {
    es == [] || (Enabled(w, es[0]) && Runs(Step(w, es[0]), es[1..]))
  }

  function After(w: World, es: seq<Event>): World
    requires Runs(w, es)
    decreases |es|
  {
    if es == [] then w else After(Step(w, es[0]), es[1..])
  }

  /** A process that must release the connection sooner or later: it runs, or was handed
      the connection and has not noticed, or noticed too late and is giving it back. */
  predicate Owns(w: World, p: nat) {
    p in w.at && match w.at[p]
                 case Running => true
                 case Returning => true
                 case Waiting(t) => t in w.q.ready
                 case Cancelling(t) => t in w.q.ready
  }

  function Owners(w: World): set<nat> {
    set p | p in w.at && Owns(w, p)
  }

  predicate Pending(w: World, p: nat) {
    p in w.at && w.at[p].Pends()
  }

  function DoneWaiters(ws: seq<Waiter>): nat {
    if ws == [] then 0 else (if ws[|ws| - 1].done then 1 else 0) + DoneWaiters(ws[..|ws| - 1])
  }

  /** Waiters stand in arrival order, and no one of them has been woken. */
  ghost predicate Arrival(q: Queue) {
    && (forall i, j | 0 <= i < j < |q.waiters| :: q.waiters[i].ticket < q.waiters[j].ticket)
    && (forall t | t in Tickets(q.waiters) :: t < q.next && t !in q.ready)
    && (forall t | t in q.ready :: t < q.next)
  }

  /** Each pending process has its own ticket, waiting or woken; each waiting ticket has a process. */
  ghost predicate Claimed(at: map<nat, Phase>, waiting: set<nat>, ready: set<nat>) {
    && (forall p | p in at && at[p].Pends() :: at[p].ticket in waiting + ready)
    && (forall p, r | p in at && r in at && p != r && at[p].Pends()
                      && at[r].Pends() :: at[p].ticket != at[r].ticket)
    && (forall t | t in waiting :: exists p :: p in at && at[p].Pends() && at[p].ticket == t)
  }

  /** The connection is busy exactly when one process owns it, and an idle queue is empty. */
  ghost predicate Exclusive(w: World) {
    if w.q.busy then exists p :: Owners(w) == {p} else Owners(w) == {} && w.q.waiters == []
  }

  ghost predicate Safe(w: World) {
    && Arrival(w.q) && Claimed(w.at, Tickets(w.q.waiters), w.q.ready)
    && Exclusive(w) && DoneWaiters(w.q.waiters) <= QUEUE_LIMIT
  }

  lemma DoneAtMostAll(ws: seq<Waiter>)
    ensures DoneWaiters(ws) <= |ws|
  {
  }

  lemma {:induction false} DoneAfterRemoval(ws: seq<Waiter>, i: nat)
    requires i < |ws|
    ensures DoneWaiters(RemoveAt(ws, i)) <= DoneWaiters(ws)
  {
    var last := |ws| - 1;
    if i == last {
      assert RemoveAt(ws, i) == ws[..last];
    } else {
      DoneAfterRemoval(ws[..last], i);
      assert RemoveAt(ws, i)[..last - 1] == RemoveAt(ws[..last], i);
    }
  }

  lemma ArrivalAfterRemoval(q: Queue, i: nat)
    requires Arrival(q) && i < |q.waiters|
    ensures Arrival(q.(waiters := RemoveAt(q.waiters, i)))
    ensures Tickets(RemoveAt(q.waiters, i)) == Tickets(q.waiters) - {q.waiters[i].ticket}
  {
    TicketsAfterRemoval(q.waiters, i);
  }

  lemma ArrivalAfterEntry(q: Queue, w: Waiter)
    requires Arrival(q) && w.ticket == q.next
    ensures Arrival(q.(waiters := q.waiters + [w], next := q.next + 1))
    ensures Tickets(q.waiters + [w]) == Tickets(q.waiters) + {w.ticket}
  {
    TicketsAfterRemoval(q.waiters + [w], |q.waiters|);
    assert RemoveAt(q.waiters + [w], |q.waiters|) == q.waiters;
    forall i | 0 <= i < |q.waiters|
      ensures q.waiters[i].ticket < q.next
    {
      assert q.waiters[i].ticket in Tickets(q.waiters);
    }
  }

  /** Every step of any process keeps the queue safe: a grant is neither lost nor doubled,
      also when cancellation comes at the same instant. */
  lemma StepKeepsSafe(w: World, e: Event)
    requires Safe(w) && Enabled(w, e)
    ensures Safe(Step(w, e))
  {
    match e
    case Enter(p, cancelled, done, background) => EnterKeepsSafe(w, p, cancelled, done, background);
    case Resume(p) =>
      ClaimedAfterLeaving(w.at, Tickets(w.q.waiters), w.q.ready, p, w.at[p := Running]);
      assert Tickets(w.q.waiters) - {w.at[p].ticket} == Tickets(w.q.waiters);
      assert Owners(Step(w, e)) == Owners(w);
    case Cancel(p) =>
      ClaimedAfterCancel(w.at, Tickets(w.q.waiters), w.q.ready, p);
      assert Owners(Step(w, e)) == Owners(w);
    case Withdraw(p) => WithdrawKeepsSafe(w, p);
    case Release(p) => ReleaseKeepsSafe(w, p);
  }

  lemma EnterKeepsSafe(w: World, p: nat, cancelled: bool, done: bool, background: bool)
    requires Safe(w) && p !in w.at
    ensures Safe(Step(w, Enter(p, cancelled, done, background)))
  {
    var v := Step(w, Enter(p, cancelled, done, background));
    if v == w {
    } else if !w.q.busy {
      assert Owners(v) == {p};
    } else {
      QueuedKeepsSafe(w, v, p, Waiter(w.q.next, background, done));
    }
  }

  lemma {:induction false} QueuedKeepsSafe(w: World, v: World, p: nat, last: Waiter)
    requires Safe(w) && p !in w.at && w.q.busy && last.ticket == w.q.next
    requires last.done ==> |w.q.waiters| < QUEUE_LIMIT
    requires v.q == w.q.(waiters := w.q.waiters + [last], next := w.q.next + 1) && v.at == w.at[p := Waiting(w.q.next)]
    ensures Safe(v)
  {
    ArrivalAfterEntry(w.q, last);
    DoneAtMostAll(w.q.waiters);
    assert v.q.waiters[..|w.q.waiters|] == w.q.waiters;
    ClaimedAfterEntry(w.at, Tickets(w.q.waiters), w.q.ready, p, w.q.next);
    WaiterOwnsNothing(w, v, p);
  }

  lemma WaiterOwnsNothing(w: World, v: World, p: nat)
    requires p !in w.at && w.q.next !in w.q.ready
    requires v.q.ready == w.q.ready && v.at == w.at[p := Waiting(w.q.next)]
    ensures Owners(v) == Owners(w)
  {
  }

  lemma ClaimedAfterEntry(at: map<nat, Phase>, waiting: set<nat>, ready: set<nat>, p: nat, t: nat)
    requires Claimed(at, waiting, ready) && p !in at && t !in waiting + ready
    ensures Claimed(at[p := Waiting(t)], waiting + {t}, ready)
  {
    var to := at[p := Waiting(t)];
    forall s | s in waiting + {t}
      ensures exists r :: r in to && to[r].Pends() && to[r].ticket == s
    {
      if s != t {
        var r :| r in at && at[r].Pends() && at[r].ticket == s;
        assert to[r] == at[r];
      } else {
        assert to[p].ticket == t;
      }
    }
  }

  lemma ClaimedAfterCancel(at: map<nat, Phase>, waiting: set<nat>, ready: set<nat>, p: nat)
    requires Claimed(at, waiting, ready) && p in at && at[p].Waiting?
    ensures Claimed(at[p := Cancelling(at[p].ticket)], waiting, ready)
  {
    var to := at[p := Cancelling(at[p].ticket)];
    forall s | s in waiting
      ensures exists r :: r in to && to[r].Pends() && to[r].ticket == s
    {
      var r :| r in at && at[r].Pends() && at[r].ticket == s;
      assert to[r].ticket == s;
    }
  }

  lemma ClaimedAfterLeaving(at: map<nat, Phase>, waiting: set<nat>, ready: set<nat>, p: nat, to: map<nat, Phase>)
    requires Claimed(at, waiting, ready) && p in at && at[p].Pends()
    requires to == at - {p} || to == at[p := Returning] || to == at[p := Running]
    ensures Claimed(to, waiting - {at[p].ticket}, ready)
  {
    forall s | s in waiting - {at[p].ticket}
      ensures exists r :: r in to && to[r].Pends() && to[r].ticket == s
    {
      var r :| r in at && at[r].Pends() && at[r].ticket == s;
      assert to[r] == at[r];
    }
  }

  lemma WithdrawKeepsSafe(w: World, p: nat)
    requires Safe(w) && p in w.at && w.at[p].Cancelling?
    ensures Safe(Step(w, Withdraw(p)))
  {
    var v, t := Step(w, Withdraw(p)), w.at[p].ticket;
    ClaimedAfterLeaving(w.at, Tickets(w.q.waiters), w.q.ready, p, v.at);
    if t in Tickets(w.q.waiters) {
      var i := Place(w.q.waiters, t);
      ArrivalAfterRemoval(w.q, i);
      DoneAfterRemoval(w.q.waiters, i);
    } else {
      assert Tickets(w.q.waiters) - {t} == Tickets(w.q.waiters);
    }
    assert Owners(v) == Owners(w);
  }

  lemma {:induction false} ReleaseKeepsSafe(w: World, p: nat)
    requires Safe(w) && p in w.at && (w.at[p].Running? || w.at[p].Returning?)
    ensures Safe(Step(w, Release(p)))
  {
    var v := Step(w, Release(p));
    assert p in Owners(w);
    assert Owners(w) == {p};
    if w.q.waiters == [] {
      assert Owners(v) == {};
    } else {
      var i := Chosen(w.q.waiters);
      var t := w.q.waiters[i].ticket;
      assert t in Tickets(w.q.waiters);
      var heir :| heir in w.at && w.at[heir].Pends() && w.at[heir].ticket == t;
      ArrivalAfterRemoval(w.q, i);
      DoneAfterRemoval(w.q.waiters, i);
      ClaimedAfterGrant(w.at, Tickets(w.q.waiters), w.q.ready, p, t);
      OneHeir(w, v, p, heir, t);
    }
  }

  lemma ClaimedAfterGrant(at: map<nat, Phase>, waiting: set<nat>, ready: set<nat>, p: nat, t: nat)
    requires Claimed(at, waiting, ready) && p in at && (at[p].Running? || at[p].Returning?)
    ensures Claimed(at - {p}, waiting - {t}, ready + {t})
  {
    var to := at - {p};
    forall s | s in waiting - {t}
      ensures exists r :: r in to && to[r].Pends() && to[r].ticket == s
    {
      var r :| r in at && at[r].Pends() && at[r].ticket == s;
      assert to[r] == at[r];
    }
  }

  lemma OneHeir(w: World, v: World, p: nat, heir: nat, t: nat)
    requires Owners(w) == {p} && v.at == w.at - {p} && v.q.ready == w.q.ready + {t}
    requires Pending(w, heir) && heir != p && w.at[heir].ticket == t
    requires forall r, s | Pending(w, r) && Pending(w, s) && r != s :: w.at[r].ticket != w.at[s].ticket
    ensures Owners(v) == {heir}
  {
    forall r | r in Owners(v) && r != heir
      ensures false
    {
      assert r in w.at && r !in Owners(w);
      assert Pending(w, r);
    }
  }

  /** Safety of every run. */
  lemma {:induction false} RunsAreSafe(w: World, es: seq<Event>)
    requires Safe(w) && Runs(w, es)
    ensures Safe(After(w, es))
    decreases |es|
  {
    if es != [] {
      StepKeepsSafe(w, es[0]);
      RunsAreSafe(Step(w, es[0]), es[1..]);
    }
  }

  /** In every state reachable from an idle queue: busy exactly when one process owns the
      connection, no one waits behind an idle one, a pending call is waiting or woken and
      not both, and at most 64 of those that can be told to give up wait. */
  lemma QueueSafety(es: seq<Event>)
    requires Runs(INITIAL, es)
    ensures var w := After(INITIAL, es);
            && |Owners(w)| == (if w.q.busy then 1 else 0)
            && (!w.q.busy ==> w.q.waiters == [])
            && DoneWaiters(w.q.waiters) <= 64
            && (forall p | Pending(w, p) :: (w.at[p].ticket in Tickets(w.q.waiters)) != (w.at[p].ticket in w.q.ready))
  {
    assert Owners(INITIAL) == {};
    RunsAreSafe(INITIAL, es);
  }

  // ----- priority, order and progress

  /** What one release with waiters does: one waiter is woken, the first of its class, a
      background one only when no foreground one waits; all others stay in order. */
  lemma {:induction false} ReleaseGrants(q: Queue)
    requires Arrival(q) && q.waiters != []
    ensures var i := Chosen(q.waiters);
            var v := Released(q);
            && v.waiters == q.waiters[..i] + q.waiters[i + 1..] && v.busy == q.busy
            && v.ready == q.ready + {q.waiters[i].ticket} && q.waiters[i].ticket !in q.ready
            && (q.waiters[i].background ==> forall j | 0 <= j < |q.waiters| :: q.waiters[j].background)
            && (forall j | 0 <= j < |v.waiters| && v.waiters[j].background == q.waiters[i].background ::
                  q.waiters[i].ticket < v.waiters[j].ticket)
  {
    var i := Chosen(q.waiters);
    assert q.waiters[i].ticket in Tickets(q.waiters);
  }

  /** Foreground waiters ahead of a ticket. */
  function Ahead(ws: seq<Waiter>, ticket: nat): nat {
    if ws == [] || ws[0].ticket == ticket then 0
    else (if ws[0].background then 0 else 1) + Ahead(ws[1..], ticket)
  }

  lemma RemoveBehindFirst(ws: seq<Waiter>, i: nat)
    requires 0 < i < |ws|
    ensures RemoveAt(ws, i)[0] == ws[0] && RemoveAt(ws, i)[1..] == RemoveAt(ws[1..], i - 1)
  {
  }

  lemma {:induction false} AheadAfterArrival(ws: seq<Waiter>, w: Waiter, k: nat)
    requires k < |ws|
    ensures Ahead(ws + [w], ws[k].ticket) == Ahead(ws, ws[k].ticket)
  {
    if ws[0].ticket != ws[k].ticket {
      assert ws[1..][k - 1] == ws[k];
      AheadAfterArrival(ws[1..], w, k - 1);
      assert (ws + [w])[1..] == ws[1..] + [w];
    }
  }

  lemma {:induction false} AheadAfterRemoval(ws: seq<Waiter>, i: nat, k: nat)
    requires i < |ws| && k < |ws| && ws[i].ticket != ws[k].ticket
    ensures Ahead(RemoveAt(ws, i), ws[k].ticket) <= Ahead(ws, ws[k].ticket)
  {
    if i == 0 {
      assert RemoveAt(ws, i) == ws[1..];
    } else if ws[0].ticket != ws[k].ticket {
      assert ws[1..][k - 1] == ws[k];
      RemoveBehindFirst(ws, i);
      AheadAfterRemoval(ws[1..], i - 1, k - 1);
    }
  }

  lemma {:induction false} AheadPastBackground(front: seq<Waiter>, rest: seq<Waiter>, ticket: nat)
    requires forall w | w in front :: w.background && w.ticket != ticket
    ensures Ahead(front + rest, ticket) == Ahead(rest, ticket)
  {
    if front == [] {
      assert front + rest == rest;
    } else {
      assert front[0] in front;
      assert (front + rest)[1..] == front[1..] + rest;
      AheadPastBackground(front[1..], rest, ticket);
    }
  }

  lemma {:induction false} AheadAfterGrant(ws: seq<Waiter>, k: nat)
    requires Foreground(ws) < k < |ws|
    requires forall j | 0 <= j < k :: ws[j].ticket != ws[k].ticket
    ensures Ahead(RemoveAt(ws, Foreground(ws)), ws[k].ticket) == Ahead(ws, ws[k].ticket) - 1
  {
    var i := Foreground(ws);
    AheadPastBackground(ws[..i], ws[i + 1..], ws[k].ticket);
    AheadPastBackground(ws[..i], ws[i..], ws[k].ticket);
    assert ws[..i] + ws[i..] == ws;
    assert ws[i..][1..] == ws[i + 1..];
  }

  predicate Holds(ws: seq<Waiter>, w: Waiter) {
    exists i | 0 <= i < |ws| :: ws[i] == w
  }

  function Releases(es: seq<Event>): nat {
    if es == [] then 0 else (if es[0].Release? then 1 else 0) + Releases(es[1..])
  }

  lemma {:induction false} RankAfterRemoval(q: Queue, i: nat, a: Waiter)
    requires Arrival(q) && i < |q.waiters| && Holds(q.waiters, a) && q.waiters[i] != a
    ensures Holds(RemoveAt(q.waiters, i), a)
    ensures Ahead(RemoveAt(q.waiters, i), a.ticket) <= Ahead(q.waiters, a.ticket)
    ensures !a.background && i == Foreground(q.waiters) ==>
              Ahead(RemoveAt(q.waiters, i), a.ticket) == Ahead(q.waiters, a.ticket) - 1
  {
    var ws := q.waiters;
    var k :| 0 <= k < |ws| && ws[k] == a;
    assert RemoveAt(ws, i)[if k < i then k else k - 1] == a;
    AheadAfterRemoval(ws, i, k);
    if !a.background && i == Foreground(ws) {
      AheadAfterGrant(ws, k);
    }
  }

  /** No step puts anyone ahead of a waiter, and a release either wakes a foreground waiter
      or takes exactly one from the foreground waiters ahead of it. */
  lemma {:induction false} RankFalls(w: World, e: Event, a: Waiter)
    requires Safe(w) && Enabled(w, e) && Holds(w.q.waiters, a)
    requires a.ticket in Tickets(Step(w, e).q.waiters)
    ensures var v := Step(w, e);
            && Holds(v.q.waiters, a)
            && Ahead(v.q.waiters, a.ticket) <= Ahead(w.q.waiters, a.ticket)
            && (e.Release? && !a.background ==> Ahead(v.q.waiters, a.ticket) == Ahead(w.q.waiters, a.ticket) - 1)
  {
    var v, ws := Step(w, e), w.q.waiters;
    var k :| 0 <= k < |ws| && ws[k] == a;
    match e
    case Enter(_, _, done, background) =>
      if v.q.waiters != ws {
        var last := Waiter(w.q.next, background, done);
        assert v.q.waiters == ws + [last];
        assert v.q.waiters[k] == a;
        AheadAfterArrival(ws, last, k);
      }
    case Resume(_) =>
    case Cancel(_) =>
    case Withdraw(p) =>
      if w.at[p].ticket in Tickets(ws) {
        var i := Place(ws, w.at[p].ticket);
        ArrivalAfterRemoval(w.q, i);
        RankAfterRemoval(w.q, i, a);
      }
    case Release(_) =>
      var i := Chosen(ws);
      ArrivalAfterRemoval(w.q, i);
      RankAfterRemoval(w.q, i, a);
  }

  /** A ticket comes from arrival only, and is woken only out of the queue. */
  lemma TicketsMove(w: World, e: Event, ticket: nat)
    requires Safe(w) && Enabled(w, e) && ticket < w.q.next
    ensures var v := Step(w, e);
            && w.q.next <= v.q.next
            && (ticket in Tickets(v.q.waiters) ==> ticket in Tickets(w.q.waiters))
            && (ticket in v.q.ready ==> ticket in w.q.ready + Tickets(w.q.waiters))
  {
    var v, ws := Step(w, e), w.q.waiters;
    match e
    case Enter(_, _, done, background) =>
      if v.q.waiters != ws { ArrivalAfterEntry(w.q, Waiter(w.q.next, background, done)); }
    case Resume(_) =>
    case Cancel(_) =>
    case Withdraw(p) =>
      if w.at[p].ticket in Tickets(ws) { TicketsAfterRemoval(ws, Place(ws, w.at[p].ticket)); }
    case Release(_) =>
      if ws != [] { TicketsAfterRemoval(ws, Chosen(ws)); }
  }

  lemma {:induction false} GoneStaysGone(w: World, es: seq<Event>, ticket: nat)
    requires Safe(w) && Runs(w, es) && ticket < w.q.next && ticket !in Tickets(w.q.waiters)
    ensures ticket !in Tickets(After(w, es).q.waiters)
    ensures ticket !in w.q.ready ==> ticket !in After(w, es).q.ready
    decreases |es|
  {
    if es != [] {
      StepKeepsSafe(w, es[0]);
      TicketsMove(w, es[0], ticket);
      GoneStaysGone(Step(w, es[0]), es[1..], ticket);
    }
  }

  lemma HeldTicket(q: Queue, a: Waiter)
    requires Arrival(q) && Holds(q.waiters, a)
    ensures a.ticket in Tickets(q.waiters) && a.ticket < q.next && a.ticket !in q.ready
  {
    var k :| 0 <= k < |q.waiters| && q.waiters[k] == a;
    assert q.waiters[k].ticket in Tickets(q.waiters);
  }

  /** Bounded waiting over every run: whatever else happens, a foreground waiter with n
      foreground waiters ahead of it is out of the queue after n + 1 releases. */
  lemma {:induction false} BoundedWaiting(w: World, es: seq<Event>, a: Waiter)
    requires Safe(w) && Runs(w, es) && Holds(w.q.waiters, a) && !a.background
    requires Releases(es) > Ahead(w.q.waiters, a.ticket)
    ensures a.ticket !in Tickets(After(w, es).q.waiters)
    decreases |es|
  {
    var v := Step(w, es[0]);
    StepKeepsSafe(w, es[0]);
    if a.ticket in Tickets(v.q.waiters) {
      RankFalls(w, es[0], a);
      BoundedWaiting(v, es[1..], a);
    } else {
      HeldTicket(w.q, a);
      TicketsMove(w, es[0], a.ticket);
      GoneStaysGone(v, es[1..], a.ticket);
    }
  }

  /** First in, first out within a class, over every run: while the earlier of two waiters
      of one class still waits, the later one has not been woken. */
  lemma {:induction false} FirstInFirstOut(w: World, es: seq<Event>, a: Waiter, b: Waiter)
    requires Safe(w) && Runs(w, es)
    requires Holds(w.q.waiters, a) && Holds(w.q.waiters, b)
    requires a.ticket < b.ticket && a.background == b.background
    requires a.ticket in Tickets(After(w, es).q.waiters)
    ensures b.ticket !in After(w, es).q.ready
    decreases |es|
  {
    HeldTicket(w.q, a);
    HeldTicket(w.q, b);
    if es != [] {
      var v, e := Step(w, es[0]), es[0];
      StepKeepsSafe(w, e);
      TicketsMove(w, e, a.ticket);
      TicketsMove(w, e, b.ticket);
      if a.ticket !in Tickets(v.q.waiters) {
        GoneStaysGone(v, es[1..], a.ticket);
      } else if b.ticket in Tickets(v.q.waiters) {
        RankFalls(w, e, a);
        RankFalls(w, e, b);
        FirstInFirstOut(v, es[1..], a, b);
      } else {
        RankFalls(w, e, a);
        LaterNotWoken(w, e, a, b);
        GoneStaysGone(v, es[1..], b.ticket);
      }
    }
  }

  lemma {:induction false} LaterNotWoken(w: World, e: Event, a: Waiter, b: Waiter)
    requires Safe(w) && Enabled(w, e) && Holds(w.q.waiters, b) && Holds(Step(w, e).q.waiters, a)
    requires a.ticket < b.ticket && a.background == b.background
    ensures b.ticket !in Step(w, e).q.ready
  {
    HeldTicket(w.q, b);
    if e.Release? {
      ReleaseGrants(w.q);
      NotGranted(w.q, a, b);
    }
  }

  lemma {:induction false} NotGranted(q: Queue, a: Waiter, b: Waiter)
    requires Arrival(q) && q.waiters != [] && Holds(q.waiters, b) && Holds(Released(q).waiters, a)
    requires a.ticket < b.ticket && a.background == b.background
    ensures q.waiters[Chosen(q.waiters)].ticket != b.ticket
  {
    hide Chosen;
    ReleaseGrants(q);
    var ws, left, i := q.waiters, Released(q).waiters, Chosen(q.waiters);
    var j :| 0 <= j < |ws| && ws[j] == b;
    var k :| 0 <= k < |left| && left[k] == a;
    if ws[i].background == a.background {
      assert ws[i].ticket < left[k].ticket;
    } else {
      assert i != j;
    }
  }

  // ----- priority, order and progress by the calls

  /** When a process last called, counted in events, and how. */
  function CallAt(es: seq<Event>, p: nat): (k: Option<nat>)
    ensures k.Some? ==> k.value < |es| && es[k.value].Enter? && es[k.value].p == p
    ensures k.Some? ==> forall j | k.value < j < |es| && es[j].Enter? :: es[j].p != p
  {
    if es == [] then None
    else
      var n := |es| - 1;
      if es[n].Enter? && es[n].p == p then Some(n) else CallAt(es[..n], p)
  }

  /** A call that has neither been granted the connection nor left. */
  predicate Queues(w: World, p: nat) {
    Pending(w, p) && w.at[p].ticket !in w.q.ready
  }

  lemma {:induction false} AfterSnoc(w: World, es: seq<Event>, e: Event)
    ensures Runs(w, es + [e]) <==> Runs(w, es) && Enabled(After(w, es), e)
    ensures Runs(w, es + [e]) ==> After(w, es + [e]) == Step(After(w, es), e)
    decreases |es|
  {
    hide Enabled, Step;
    if es == [] {
      assert es + [e] == [e] && [e][1..] == [];
    } else {
      assert (es + [e])[0] == es[0] && (es + [e])[1..] == es[1..] + [e];
      if Enabled(w, es[0]) { AfterSnoc(Step(w, es[0]), es[1..], e); }
    }
  }

  /** The waiter of a queued call carries the flags it was called with. */
  ghost predicate Carries(w: World, es: seq<Event>, p: nat)
    requires Pending(w, p)
  {
    CallAt(es, p).Some? &&
      var e := es[CallAt(es, p).value];
      !e.cancelled && Holds(w.q.waiters, Waiter(w.at[p].ticket, e.background, e.done))
  }

  /** Tickets are handed out in the order of the calls. */
  ghost predicate InOrder(w: World, es: seq<Event>) {
    && (forall p | p in w.at && Queues(w, p) :: Carries(w, es, p))
    && (forall p, r | p in w.at && r in w.at && Queues(w, p) && Queues(w, r) && CallAt(es, p).Some? && CallAt(es, r).Some? ::
          CallAt(es, p).value < CallAt(es, r).value ==> w.at[p].ticket < w.at[r].ticket)
  }

  lemma CallAtSnoc(es: seq<Event>, e: Event, p: nat)
    ensures CallAt(es + [e], p) == if e.Enter? && e.p == p then Some(|es|) else CallAt(es, p)
  {
    assert (es + [e])[..|es|] == es;
  }

  /** Who queues after a step queued before it under the same ticket, or has just called. */
  lemma QueuesBefore(w: World, e: Event, p: nat)
    requires Safe(w) && Enabled(w, e) && Queues(Step(w, e), p)
    ensures var v := Step(w, e);
      if e.Enter? && e.p == p
      then !e.cancelled && w.q.busy && v.at[p].ticket == w.q.next && v.q.waiters == w.q.waiters + [Waiter(w.q.next, e.background, e.done)]
      else p in w.at && Queues(w, p) && v.at[p].ticket == w.at[p].ticket && w.at[p].ticket in Tickets(w.q.waiters)
           && v.at[p].ticket in Tickets(v.q.waiters)
  {
    StepKeepsSafe(w, e);
  }

  lemma {:induction false} StaysHeld(w: World, e: Event, a: Waiter)
    requires Safe(w) && Enabled(w, e) && Holds(w.q.waiters, a) && a.ticket in Tickets(Step(w, e).q.waiters)
    ensures Holds(Step(w, e).q.waiters, a)
  {
    hide Step, Enabled, Safe;
    RankFalls(w, e, a);
  }

  lemma StepKeepsOrder(w: World, es: seq<Event>, e: Event)
    requires Safe(w) && InOrder(w, es) && Enabled(w, e)
    ensures InOrder(Step(w, e), es + [e])
  {
    hide CallAt, Safe, Step, Enabled;
    var v, fs := Step(w, e), es + [e];
    forall p | p in v.at && Queues(v, p)
      ensures Carries(v, fs, p)
    {
      QueuesBefore(w, e, p);
      CallAtSnoc(es, e, p);
      if e.Enter? && e.p == p {
        assert v.q.waiters[|w.q.waiters|] == Waiter(w.q.next, e.background, e.done);
      } else {
        var c := es[CallAt(es, p).value];
        StaysHeld(w, e, Waiter(w.at[p].ticket, c.background, c.done));
      }
    }
    forall p, r | p in v.at && r in v.at && Queues(v, p) && Queues(v, r) && CallAt(fs, p).Some? && CallAt(fs, r).Some?
      ensures CallAt(fs, p).value < CallAt(fs, r).value ==> v.at[p].ticket < v.at[r].ticket
    {
      QueuesBefore(w, e, p);
      QueuesBefore(w, e, r);
      CallAtSnoc(es, e, p);
      CallAtSnoc(es, e, r);
      TicketsBelow(w);
    }
  }

  lemma TicketsBelow(w: World)
    requires Safe(w)
    ensures forall t | t in Tickets(w.q.waiters) :: t < w.q.next
  {
  }

  lemma {:induction false} CallsKeepOrder(es: seq<Event>)
    requires Runs(INITIAL, es)
    ensures Safe(After(INITIAL, es)) && InOrder(After(INITIAL, es), es)
    decreases |es|
  {
    hide Safe, InOrder, Step, Enabled, Runs, After;
    if es == [] {
      assert Safe(After(INITIAL, es)) && InOrder(After(INITIAL, es), es) by { InitialOrder(); }
    } else {
      var n := |es| - 1;
      assert es == es[..n] + [es[n]];
      AfterSnoc(INITIAL, es[..n], es[n]);
      CallsKeepOrder(es[..n]);
      StepKeepsSafe(After(INITIAL, es[..n]), es[n]);
      StepKeepsOrder(After(INITIAL, es[..n]), es[..n], es[n]);
    }
  }

  lemma InitialOrder()
    ensures Runs(INITIAL, []) && Safe(After(INITIAL, [])) && InOrder(After(INITIAL, []), [])
  {
    assert Owners(INITIAL) == {};
  }

  /** Whom a release hands the connection, by the calls: some queued call, where there is one;
      never a background call while a foreground call queues, and of its class the earliest. */
  lemma {:induction false} ReleaseByCalls(es: seq<Event>, r: nat, h: nat)
    requires Runs(INITIAL, es + [Release(r)])
    requires Runs(INITIAL, es) && Queues(After(INITIAL, es), h) && !Queues(After(INITIAL, es + [Release(r)]), h)
    ensures var w := After(INITIAL, es);
      && CallAt(es, h).Some?
      && Owns(After(INITIAL, es + [Release(r)]), h)
      && forall q | q in w.at && q != h && Queues(w, q) ::
           && CallAt(es, q).Some? && Queues(After(INITIAL, es + [Release(r)]), q)
           && (es[CallAt(es, h).value].background ==> es[CallAt(es, q).value].background)
           && (es[CallAt(es, h).value].background == es[CallAt(es, q).value].background ==>
                 CallAt(es, h).value < CallAt(es, q).value)
  {
    hide Runs, After, CallAt, Safe;
    AfterSnoc(INITIAL, es, Release(r));
    CallsKeepOrder(es);
    var w := After(INITIAL, es);
    GrantByTickets(w, r, h);
    forall q | q in w.at && q != h && Queues(w, q)
      ensures CallAt(es, q).Some? && Queues(After(INITIAL, es + [Release(r)]), q)
      ensures es[CallAt(es, h).value].background ==> es[CallAt(es, q).value].background
      ensures es[CallAt(es, h).value].background == es[CallAt(es, q).value].background ==> CallAt(es, h).value < CallAt(es, q).value
    {
      assert Carries(w, es, q) && Carries(w, es, h);
      var c, d := es[CallAt(es, h).value], es[CallAt(es, q).value];
      GrantByFlags(w, r, h, q, Waiter(w.at[h].ticket, c.background, c.done), Waiter(w.at[q].ticket, d.background, d.done));
      assert c.p == h && d.p == q;
    }
  }

  /** A release with a call queued hands the connection on. */
  lemma ReleaseHandsOn(es: seq<Event>, r: nat, q: nat) returns (h: nat)
    requires Runs(INITIAL, es) && Runs(INITIAL, es + [Release(r)]) && Queues(After(INITIAL, es), q)
    ensures Queues(After(INITIAL, es), h) && !Queues(After(INITIAL, es + [Release(r)]), h)
  {
    hide Runs, After, Chosen;
    AfterSnoc(INITIAL, es, Release(r));
    CallsKeepOrder(es);
    var w := After(INITIAL, es);
    QueuedHasTicket(w, q);
    var t := w.q.waiters[Chosen(w.q.waiters)].ticket;
    assert t in Tickets(w.q.waiters);
    h :| h in w.at && w.at[h].Pends() && w.at[h].ticket == t;
  }

  lemma GrantByTickets(w: World, r: nat, h: nat)
    requires Safe(w) && Enabled(w, Release(r)) && Queues(w, h) && !Queues(Step(w, Release(r)), h)
    ensures w.q.waiters != [] && w.at[h].ticket == w.q.waiters[Chosen(w.q.waiters)].ticket && Owns(Step(w, Release(r)), h)
  {
    hide Chosen;
    assert w.at[h].ticket in Tickets(w.q.waiters);
  }

  /** The waiter a release wakes against any other. */
  lemma {:induction false} ChosenOverOthers(q: Queue, a: Waiter, b: Waiter)
    requires Arrival(q) && Holds(q.waiters, a) && Holds(q.waiters, b) && a.ticket != b.ticket
    requires a.ticket == q.waiters[Chosen(q.waiters)].ticket
    ensures a.background ==> b.background
    ensures a.background == b.background ==> a.ticket < b.ticket
  {
    hide Chosen;
    var ws, i := q.waiters, Chosen(q.waiters);
    var j :| 0 <= j < |ws| && ws[j] == a;
    var k :| 0 <= k < |ws| && ws[k] == b;
    assert i == j;
  }

  lemma DistinctTickets(w: World, p: nat, q: nat)
    requires Safe(w) && Pending(w, p) && Pending(w, q) && p != q
    ensures w.at[p].ticket != w.at[q].ticket
  {
  }

  lemma OthersQueueOn(w: World, r: nat, h: nat, q: nat)
    requires Safe(w) && Enabled(w, Release(r)) && Queues(w, h) && Queues(w, q) && h != q && !Queues(Step(w, Release(r)), h)
    ensures Queues(Step(w, Release(r)), q)
  {
    GrantByTickets(w, r, h);
    DistinctTickets(w, h, q);
  }

  lemma {:induction false} GrantByFlags(w: World, r: nat, h: nat, q: nat, a: Waiter, b: Waiter)
    requires Safe(w) && Enabled(w, Release(r)) && Queues(w, h) && Queues(w, q) && h != q && !Queues(Step(w, Release(r)), h)
    requires Holds(w.q.waiters, a) && Holds(w.q.waiters, b) && a.ticket == w.at[h].ticket && b.ticket == w.at[q].ticket
    ensures Queues(Step(w, Release(r)), q)
    ensures a.background ==> b.background
    ensures a.background == b.background ==> a.ticket < b.ticket
  {
    hide Chosen, Step, Holds;
    GrantByTickets(w, r, h);
    DistinctTickets(w, h, q);
    OthersQueueOn(w, r, h, q);
    ChosenOverOthers(w.q, a, b);
  }

  /** The processes whose foreground calls queue and came before. */
  function CallsAhead(w: World, es: seq<Event>, p: nat): set<nat> {
    set q | q in w.at && Queues(w, q) && CallAt(es, q).Some? && CallAt(es, p).Some?
            && !es[CallAt(es, q).value].background && CallAt(es, q).value < CallAt(es, p).value
  }

  lemma {:induction false} ImageSize(s: set<nat>, f: map<nat, nat>)
    requires s <= f.Keys && forall x, y | x in s && y in s && x != y :: f[x] != f[y]
    ensures |set x | x in s :: f[x]| == |s|
  {
    if s != {} {
      var x :| x in s;
      ImageSize(s - {x}, f);
      assert (set y | y in s :: f[y]) == (set y | y in s - {x} :: f[y]) + {f[x]};
    }
  }

  function AheadTickets(ws: seq<Waiter>, t: nat): set<nat> {
    set i | 0 <= i < |ws| && !ws[i].background && ws[i].ticket < t :: ws[i].ticket
  }

  lemma AheadTicketsFirst(ws: seq<Waiter>, t: nat)
    requires ws != [] && ws[0].ticket < t
    ensures AheadTickets(ws, t) == AheadTickets(ws[1..], t) + (if ws[0].background then {} else {ws[0].ticket})
  {
    var rest := ws[1..];
    forall x | x in AheadTickets(ws, t)
      ensures x in AheadTickets(rest, t) || (!ws[0].background && x == ws[0].ticket)
    {
      var i :| 0 <= i < |ws| && !ws[i].background && ws[i].ticket < t && x == ws[i].ticket;
      if i > 0 { assert rest[i - 1] == ws[i]; }
    }
    forall x | x in AheadTickets(rest, t)
      ensures x in AheadTickets(ws, t)
    {
      var i :| 0 <= i < |rest| && !rest[i].background && rest[i].ticket < t && x == rest[i].ticket;
      assert ws[i + 1] == rest[i];
    }
  }

  lemma {:induction false} AheadIsCount(ws: seq<Waiter>, k: nat)
    requires k < |ws| && forall i, j | 0 <= i < j < |ws| :: ws[i].ticket < ws[j].ticket
    ensures Ahead(ws, ws[k].ticket) == |AheadTickets(ws, ws[k].ticket)|
  {
    var t := ws[k].ticket;
    if k == 0 {
      assert AheadTickets(ws, t) == {};
    } else {
      var rest := ws[1..];
      assert rest[k - 1] == ws[k];
      AheadIsCount(rest, k - 1);
      AheadTicketsFirst(ws, t);
      assert ws[0].ticket !in AheadTickets(rest, t);
    }
  }

  lemma AheadSets(w: World, es: seq<Event>, p: nat)
    requires Safe(w) && InOrder(w, es) && Queues(w, p)
    ensures forall q | q in CallsAhead(w, es, p) :: w.at[q].ticket in AheadTickets(w.q.waiters, w.at[p].ticket)
    ensures forall x | x in AheadTickets(w.q.waiters, w.at[p].ticket) :: exists q :: q in CallsAhead(w, es, p) && w.at[q].ticket == x
  {
    hide CallAt, Safe, InOrder, AheadTickets;
    forall q | q in CallsAhead(w, es, p)
      ensures w.at[q].ticket in AheadTickets(w.q.waiters, w.at[p].ticket)
    {
      AheadHasTicket(w, es, p, q);
    }
    forall x | x in AheadTickets(w.q.waiters, w.at[p].ticket)
      ensures exists q :: q in CallsAhead(w, es, p) && w.at[q].ticket == x
    {
      var q := TicketIsAhead(w, es, p, x);
    }
  }

  lemma SameSize(s: set<nat>, f: map<nat, nat>, t: set<nat>)
    requires f.Keys == s && (forall x, y | x in s && y in s && x != y :: f[x] != f[y])
    requires (forall x | x in s :: f[x] in t) && (forall y | y in t :: exists x :: x in s && f[x] == y)
    ensures |s| == |t|
  {
    ImageSize(s, f);
    assert (set x | x in s :: f[x]) == t;
  }

  /** The foreground calls ahead are the foreground waiters ahead. */
  lemma {:induction false} AheadByCalls(w: World, es: seq<Event>, p: nat)
    requires Safe(w) && InOrder(w, es) && Queues(w, p)
    ensures CallAt(es, p).Some? && Ahead(w.q.waiters, w.at[p].ticket) == |CallsAhead(w, es, p)|
  {
    hide CallAt, Ahead, AheadTickets, Claimed, Exclusive;
    assert Carries(w, es, p);
    var t, ws, ahead := w.at[p].ticket, w.q.waiters, CallsAhead(w, es, p);
    var e := es[CallAt(es, p).value];
    var k :| 0 <= k < |ws| && ws[k] == Waiter(t, e.background, e.done);
    AheadIsCount(ws, k);
    CountAhead(w, es, p);
  }

  lemma {:induction false} CountAhead(w: World, es: seq<Event>, p: nat)
    requires Safe(w) && InOrder(w, es) && Queues(w, p)
    ensures |CallsAhead(w, es, p)| == |AheadTickets(w.q.waiters, w.at[p].ticket)|
  {
    hide CallAt, AheadTickets, Safe, InOrder;
    var ahead := CallsAhead(w, es, p);
    AheadSets(w, es, p);
    var tickets := map q | q in ahead :: w.at[q].ticket;
    forall x, y | x in ahead && y in ahead && x != y
      ensures tickets[x] != tickets[y]
    {
      DistinctTickets(w, x, y);
    }
    SameSize(ahead, tickets, AheadTickets(w.q.waiters, w.at[p].ticket));
  }

  lemma AheadHasTicket(w: World, es: seq<Event>, p: nat, q: nat)
    requires Safe(w) && InOrder(w, es) && Queues(w, p) && q in CallsAhead(w, es, p)
    ensures w.at[q].ticket in AheadTickets(w.q.waiters, w.at[p].ticket)
  {
    hide CallAt, Safe;
    assert Carries(w, es, q);
    var c := es[CallAt(es, q).value];
    var i :| 0 <= i < |w.q.waiters| && w.q.waiters[i] == Waiter(w.at[q].ticket, c.background, c.done);
  }

  lemma TicketIsAhead(w: World, es: seq<Event>, p: nat, x: nat) returns (q: nat)
    requires Safe(w) && InOrder(w, es) && Queues(w, p) && x in AheadTickets(w.q.waiters, w.at[p].ticket)
    ensures q in CallsAhead(w, es, p) && w.at[q].ticket == x
  {
    hide CallAt;
    var ws := w.q.waiters;
    var i :| 0 <= i < |ws| && !ws[i].background && ws[i].ticket < w.at[p].ticket && x == ws[i].ticket;
    assert x in Tickets(ws);
    q :| q in w.at && w.at[q].Pends() && w.at[q].ticket == x;
    assert Queues(w, q) && Carries(w, es, q) && Carries(w, es, p);
    var c := es[CallAt(es, q).value];
    var j :| 0 <= j < |ws| && ws[j] == Waiter(x, c.background, c.done);
    assert i == j;
    assert c.p == q && es[CallAt(es, p).value].p == p;
    if CallAt(es, p).value < CallAt(es, q).value { assert false; }
  }

  /** Bounded waiting by the calls: a foreground call with n foreground calls queued before it
      no longer queues after n + 1 releases, whatever else happens. */
  lemma {:induction false} BoundedWaitingOfCalls(es: seq<Event>, fs: seq<Event>, p: nat)
    requires Runs(INITIAL, es) && Runs(After(INITIAL, es), fs) && Queues(After(INITIAL, es), p)
    requires CallAt(es, p).Some? && !es[CallAt(es, p).value].background
    requires Releases(fs) > |CallsAhead(After(INITIAL, es), es, p)|
    ensures var w, v := After(INITIAL, es), After(After(INITIAL, es), fs);
      !(p in v.at && Queues(v, p) && v.at[p].ticket == w.at[p].ticket)
  {
    hide Runs, After, CallAt, CallsAhead;
    CallsKeepOrder(es);
    var w := After(INITIAL, es);
    AheadByCalls(w, es, p);
    assert Carries(w, es, p);
    var e := es[CallAt(es, p).value];
    BoundedWaiting(w, fs, Waiter(w.at[p].ticket, e.background, e.done));
    RunsAreSafe(w, fs);
    QueuedHasTicket(After(w, fs), p);
  }

  lemma QueuedHasTicket(w: World, p: nat)
    requires Safe(w)
    ensures p in w.at && Queues(w, p) ==> w.at[p].ticket in Tickets(w.q.waiters)
  {
  }
}
