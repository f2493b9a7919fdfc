/** One submission, at most once: the durable claim, the attempts that hold it, and the
    phase of the SMTP session that decides whether a failed attempt may give it back. */
module SendClaim {
  import opened Basics

  /** Ten minutes, in nanoseconds. */
  const KEEP: nat := 600_000_000_000

  datatype Key = Key(account: string, messageID: string)

  datatype Stage = Claiming | Accepted | Complete | Partial

  datatype Claim = Claim(stage: Stage, at: nat)

  /** The stored claims, and the claims an attempt of this process works under. */
  datatype Claims = Claims(db: map<Key, Claim>, active: set<Key>)

  datatype Answer = StoreFailed | Held(stage: Stage) | Fresh

  // ----- the record, as functions of the store

  predicate Keeps(c: Claims, k: Key, now: nat)
    requires k in c.db
  {
    k in c.active || now < c.db[k].at + KEEP
  }

  function Unexpired(c: Claims, now: nat): map<Key, Claim> {
    map k | k in c.db && Keeps(c, k, now) :: c.db[k]
  }

  /** One transaction: it either commits whole or, when the store fails, changes nothing. */
  function Claimed(c: Claims, k: Key, now: nat, commits: bool): (Claims, Answer) {
    var db := Unexpired(c, now);
    if !commits then (c, StoreFailed)
    else if k in db then (c.(db := db), Held(db[k].stage))
    else (Claims(db[k := Claim(Claiming, now)], c.active + {k}), Fresh)
  }

  function Finished(c: Claims, k: Key, stage: Option<Stage>, now: nat, commits: bool): Claims {
    if !commits then c
    else match stage
         case Some(s) => c.(db := c.db[k := Claim(s, now)])
         case None => c.(db := c.db - {k})
  }

  // ----- the SMTP session

  datatype Reply = Taken | Refused(code: nat) | Lost

  /** What the outside world does in one delivery, step by step; `took` is what the server
      really did with the message once it was sent its end. */
  datatype Session = Session(
    fetched: bool, dialed: bool, authenticated: bool, spooled: bool, mail: bool, rcpts: seq<bool>,
    rewound: bool, data: bool, copied: bool, closed: Reply, quit: bool, took: bool)

  predicate DataStarted(s: Session) {
    && s.fetched && s.dialed && s.authenticated && s.spooled && s.mail
    && (forall i | 0 <= i < |s.rcpts| :: s.rcpts[i]) && s.rewound && s.data
  }

  /** The server has the message. */
  predicate Took(s: Session) {
    DataStarted(s) && s.took
  }

  /** A server keeps to its replies: success means it took the message, a 4xx or 5xx that it did not. */
  predicate Truthful(s: Session) {
    s.copied ==> match s.closed
                 case Taken => s.took
                 case Refused(code) => 400 <= code < 600 ==> !s.took
                 case Lost => true
  }

  datatype Delivery = Delivered | Failed | Uncertain

  /** What the delivery tells its caller. */
  function Told(s: Session): Delivery {
    if !DataStarted(s) then Failed
    else if s.copied && s.closed.Taken? then Delivered
    else if s.copied && s.closed.Refused? && 400 <= s.closed.code < 600 then Failed
    else Uncertain
  }

  /** What is told, by the replies: delivered exactly when DATA was begun, copied whole and
      answered with success, whatever became of QUIT; failed exactly when DATA was never begun
      or its end was answered 4xx or 5xx; uncertain in what is left. */
  lemma ToldByReplies(s: Session)
    ensures var begun := s.fetched && s.dialed && s.authenticated && s.spooled && s.mail && (forall i | 0 <= i < |s.rcpts| :: s.rcpts[i])
      && s.rewound && s.data;
      && (Told(s).Delivered? <==> begun && s.copied && s.closed.Taken?)
      && (Told(s).Failed? <==> !begun || (s.copied && s.closed.Refused? && 400 <= s.closed.code < 600))
      && (Took(s) <==> begun && s.took)
  {
  }

  /** With a server true to its replies it tells what happened: a failure that is not uncertain
      means that the server has not taken the message. */
  lemma ToldIsTrue(s: Session)
    requires Truthful(s)
    ensures Told(s).Delivered? ==> Took(s)
    ensures Told(s).Failed? ==> !Took(s)
  {
  }

  method SendMessage(s: Session) returns (sent: bool, dataStarted: bool)
    requires s.fetched && s.dialed && s.authenticated && s.spooled
    ensures var begun := s.mail && (forall i | 0 <= i < |s.rcpts| :: s.rcpts[i]) && s.rewound && s.data;
      && (sent <==> begun && s.copied && s.closed.Taken?)
      && (!sent ==> (dataStarted <==> begun && !(s.copied && s.closed.Refused? && 400 <= s.closed.code < 600)))
  {
    dataStarted := false;
    if !s.mail { return false, false; }
    var i := 0;
    while i < |s.rcpts|
      invariant i <= |s.rcpts|
      invariant forall j | 0 <= j < i :: s.rcpts[j]
    {
      if !s.rcpts[i] { return false, false; }
      i := i + 1;
    }
    if !s.rewound || !s.data { return false, false; }
    dataStarted := true;
    // A copy that fails leaves the deferred close to end the message as it stands.
    if !s.copied { return false, dataStarted; }
    if !s.closed.Taken? {
      if s.closed.Refused? && 400 <= s.closed.code < 600 { dataStarted := false; }
      return false, dataStarted;
    }
    return true, dataStarted;
  }

  /** What a caller of the delivery learns is what happened: success means the server has
      the message, and a failure that is not uncertain means it has not. */
  method Deliver(s: Session) returns (d: Delivery)
    ensures d == Told(s)
    ensures var begun := s.fetched && s.dialed && s.authenticated && s.spooled && s.mail && (forall i | 0 <= i < |s.rcpts| :: s.rcpts[i])
      && s.rewound && s.data;
      && (d.Delivered? <==> begun && s.copied && s.closed.Taken?)
      && (d.Failed? <==> !begun || (s.copied && s.closed.Refused? && 400 <= s.closed.code < 600))
      && (Truthful(s) && d.Delivered? ==> begun && s.took)
      && (Truthful(s) && d.Failed? ==> !(begun && s.took))
  {
    if !s.fetched || !s.dialed || !s.authenticated || !s.spooled { return Failed; }
    var sent, dataStarted := SendMessage(s);
    // A QUIT that fails cannot withdraw what DATA accepted.
    if sent { return Delivered; }
    return if dataStarted then Uncertain else Failed;
  }

  // ----- the claims as they are written

  datatype Result =
    | BadRecipients | StoreError | AlreadyAccepted | FollowupUnknown | SendUncertain
    | NotSent | Sent | SentWithErrors

  /** The steps after acceptance; one with nothing to do succeeds. A keyword the server refuses
      to set on a forwarded message is only noted. */
  datatype Followup = Followup(answered: bool, forwarded: bool, filed: bool, draftDropped: bool)

  class SendClaims {
    var db: map<Key, Claim>
    var active: set<Key>

    constructor ()
      ensures State() == Claims(map[], {})
    {
      db, active := map[], {};
    }

    function State(): Claims
      reads this
    {
      Claims(db, active)
    }

    method ClaimSend(k: Key, now: nat, commits: bool) returns (answer: Answer)
      modifies this
      ensures (State(), answer) == Claimed(old(State()), k, now, commits)
      ensures !commits ==> answer == StoreFailed && State() == old(State())
      ensures commits ==>
        var stands := k in old(db) && (k in old(active) || now < old(db)[k].at + 600_000_000_000);
        && (answer == if stands then Held(old(db)[k].stage) else Fresh)
        && (answer.Fresh? ==> k in db && db[k] == Claim(Claiming, now) && active == old(active) + {k})
        && (!answer.Fresh? ==> active == old(active))
        && forall x | x != k ::
             && (x in db <==> x in old(db) && (x in old(active) || now < old(db)[x].at + 600_000_000_000))
             && (x in db ==> db[x] == old(db)[x])
    {
      if !commits { return StoreFailed; }
      var was, todo := db, db.Keys;
      while todo != {}
        invariant todo <= was.Keys && active == old(active)
        invariant db.Keys <= was.Keys
        invariant forall x | x in todo :: x in db
        invariant forall x | x in was.Keys - todo :: x in db <==> Keeps(old(State()), x, now)
        invariant forall x | x in db :: db[x] == was[x]
        decreases todo
      {
        var x :| x in todo;
        todo := todo - {x};
        if x !in active && db[x].at + KEEP <= now { db := db - {x}; }
      }
      assert db == Unexpired(old(State()), now);
      if k in db { return Held(db[k].stage); }
      db := db[k := Claim(Claiming, now)];
      active := active + {k};
      return Fresh;
    }

    method FinishSend(k: Key, stage: Option<Stage>, now: nat, commits: bool) returns (ok: bool)
      modifies this`db
      ensures State() == Finished(old(State()), k, stage, now, commits) && ok == commits
      ensures db == if !commits then old(db) else if stage.Some? then old(db)[k := Claim(stage.value, now)] else old(db) - {k}
    {
      if commits {
        db := if stage.Some? then db[k := Claim(stage.value, now)] else db - {k};
      }
      return commits;
    }

    method EndSend(k: Key)
      modifies this`active
      ensures active == old(active) - {k}
    {
      active := active - {k};
    }

    /** A whole submission run alone, from `start`; `spent` is the time to the end of its delivery
        and the time of what follows, and `commits` says whether each store call goes through:
        the claim, the acceptance or release, the final result. What it does to the claims is a
        run of the system below. */
    method Submit(k: Key, parsed: bool, sentFolder: bool, s: Session, f: Followup, start: nat, spent: (nat, nat),
                  commits: (bool, bool, bool))
      returns (r: Result, ghost es: seq<Event>)
      requires Truthful(s)
      modifies this
      ensures Runs(World(start, old(State()), []), es)
      ensures After(World(start, old(State()), []), es).c == State()
      ensures r.BadRecipients? <==> !parsed
      ensures !parsed ==> es == []
      ensures parsed ==> var answer := Claimed(old(State()), k, start, commits.0).1;
              && active == (if answer.Fresh? then old(active) - {k} else old(active))
              && (!answer.Fresh? ==> forall e | e in es :: e.Try?)
              && (answer.StoreFailed? ==> r.StoreError?)
              && (answer == Held(Complete) ==> r.AlreadyAccepted?)
              && (answer == Held(Accepted) || answer == Held(Partial) ==> r.FollowupUnknown?)
              && (answer == Held(Claiming) ==> r.SendUncertain?)
              && var begun := s.fetched && s.dialed && s.authenticated && s.spooled && s.mail
                              && (forall i | 0 <= i < |s.rcpts| :: s.rcpts[i]) && s.rewound && s.data;
              var delivered := sentFolder && begun && s.copied && s.closed.Taken?;
              var failed := !sentFolder || !begun || (s.copied && s.closed.Refused? && 400 <= s.closed.code < 600);
              var clean := commits.1 && f.answered && f.filed && f.draftDropped;
              && (answer.Fresh? && failed ==> r.NotSent? && (k in db <==> !commits.1))
              && (answer.Fresh? && delivered ==>
                    && (if clean && commits.2 then r.Sent? else r.SentWithErrors?)
                    && k in db
                    && db[k] == if commits.2 then Claim(if clean then Complete else Partial, start + spent.0 + spent.1)
                                else if commits.1 then Claim(Accepted, start + spent.0) else Claim(Claiming, start))
              && (answer.Fresh? && !failed && !delivered ==> r.SendUncertain? && k in db && db[k] == Claim(Claiming, start))
      ensures r.Sent? || r.SentWithErrors? ==> Take(0) in es && Took(s) && k in db
      ensures Take(0) in es ==> k in db && (r.Sent? || r.SentWithErrors? || r.SendUncertain?)
      ensures r.Sent? ==> db[k] == Claim(Complete, start + spent.0 + spent.1) && f.answered && f.filed && f.draftDropped
    {
      hide Runs, After, Claimed, Step, Enabled, Took, Told, Truthful;
      ghost var w := World(start, State(), []);
      NoEvents(w);
      if !parsed { return BadRecipients, []; }
      var answer := ClaimSend(k, start, commits.0);
      es := TriedAlone(w, k, commits.0);
      FreshIsHeld(old(State()), k, start, commits.0);
      match answer {
        case StoreFailed => return StoreError, es;
        case Held(stage) =>
          match stage {
            case Complete => return AlreadyAccepted, es;
            case Accepted => return FollowupUnknown, es;
            case Partial => return FollowupUnknown, es;
            case Claiming => return SendUncertain, es;
          }
        case Fresh =>
      }
      ToldIsTrue(s);
      ToldByReplies(s);
      if !sentFolder {
        es := TickedAlone(w, es, start, State(), k, spent.0);
        es := GiveBack(k, start + spent.0, commits.1, w, es, None);
        return NotSent, es;
      }
      es := SpokenAlone(w, es, start, State(), k, s, spent.0);
      var d := Deliver(s);
      if d.Uncertain? {
        es := EndedAlone(w, es, start + spent.0, State(), k, Some(s));
        EndSend(k);
        return SendUncertain, es;
      }
      if d.Failed? {
        es := GiveBack(k, start + spent.0, commits.1, w, es, Some(s));
        return NotSent, es;
      }
      r, es := Note(k, f, start + spent.0, spent.1, commits, w, es, s);
    }

    /** A failed submission gives its claim back, if the store lets it, and ends. */
    method GiveBack(k: Key, now: nat, commits: bool, ghost w: World, ghost es: seq<Event>, ghost s: Option<Session>)
      returns (ghost r: seq<Event>)
      requires Alone(w, es, now, State(), k, s) && (s.None? || Told(s.value).Failed?)
      modifies this
      ensures active == old(active) - {k} && db == (if commits then old(db) - {k} else old(db))
      ensures Runs(w, r) && After(w, r).c == State() && (Take(0) in r <==> Take(0) in es)
    {
      hide Runs, After;
      r := es;
      var ok := FinishSend(k, None, now, commits);
      if ok { r := Then(w, r, Release(0, false)); }
      EndSend(k);
      r := Then(w, r, End(0));
    }

    /** A message that was accepted: its follow-ups and their record. */
    method Note(k: Key, f: Followup, now: nat, spent: nat, commits: (bool, bool, bool), ghost w: World, ghost es: seq<Event>,
                ghost s: Session)
      returns (r: Result, ghost ns: seq<Event>)
      requires Alone(w, es, now, State(), k, Some(s)) && Told(s).Delivered? && k in db
      modifies this
      ensures active == old(active) - {k} && k in db
      ensures var clean := commits.1 && f.answered && f.filed && f.draftDropped;
        && (if clean && commits.2 then r.Sent? else r.SentWithErrors?)
        && db[k] == if commits.2 then Claim(if clean then Complete else Partial, now + spent)
                    else if commits.1 then Claim(Accepted, now) else old(db)[k]
      ensures Runs(w, ns) && After(w, ns).c == State() && (Take(0) in ns <==> Take(0) in es)
    {
      hide Runs, After;
      var recorded := FinishSend(k, Some(Accepted), now, commits.1);
      ns := Then(w, es, Record(0, Accepted, commits.1));
      var clean := recorded && f.answered && f.filed && f.draftDropped;
      var stage := if clean then Complete else Partial;
      ns := Then(w, ns, Tick(spent));
      var noted := FinishSend(k, Some(stage), now + spent, commits.2);
      ns := Then(w, ns, Record(0, stage, commits.2));
      EndSend(k);
      ns := Then(w, ns, End(0));
      r := if clean && noted then Sent else SentWithErrors;
    }
  }

  lemma FreshIsHeld(c: Claims, k: Key, now: nat, commits: bool)
    ensures var (v, answer) := Claimed(c, k, now, commits);
      if answer.Fresh? then k in v.db && v.db[k] == Claim(Claiming, now) && v.active == c.active + {k} else v.active == c.active
  {
  }

  /** A run with one attempt still at work, its session over and told if there was one. */
  ghost predicate Alone(w: World, es: seq<Event>, now: nat, c: Claims, k: Key, s: Option<Session>) {
    && Runs(w, es) && After(w, es).clock == now && After(w, es).c == c && |After(w, es).attempts| == 1
    && var a := After(w, es).attempts[0];
    && a.key == k && a.session == s && a.told == (if s.Some? then Some(Told(s.value)) else None)
    && !a.released && !a.ended
  }

  lemma TriedAlone(w: World, k: Key, commits: bool) returns (es: seq<Event>)
    requires w.attempts == []
    ensures var (c, answer) := Claimed(w.c, k, w.clock, commits);
      && es == [Try(k, w.clock, commits)] && Runs(w, es) && After(w, es).c == c
      && (answer.Fresh? ==> Alone(w, es, w.clock, c, k, None))
  {
    hide Runs, After;
    NoEvents(w);
    es := Then(w, [], Try(k, w.clock, commits));
  }

  lemma TickedAlone(w: World, es: seq<Event>, now: nat, c: Claims, k: Key, d: nat) returns (r: seq<Event>)
    requires Alone(w, es, now, c, k, None)
    ensures Alone(w, r, now + d, c, k, None) && r == es + [Tick(d)]
  {
    hide Runs, After;
    r := Then(w, es, Tick(d));
  }

  /** The session plays out: the server takes the message if it does, and the attempt is told. */
  lemma SpokenAlone(w: World, es: seq<Event>, now: nat, c: Claims, k: Key, s: Session, d: nat) returns (r: seq<Event>)
    requires Alone(w, es, now, c, k, None) && Truthful(s)
    ensures Alone(w, r, now + d, c, k, Some(s))
    ensures Take(0) !in es ==> (Take(0) in r <==> Took(s))
  {
    hide Runs, After, Truthful, Took, Told;
    ToldIsTrue(s);
    r := Then(w, es, Begin(0, s));
    if Took(s) { r := Then(w, r, Take(0)); }
    r := Then(w, r, Learn(0));
    r := Then(w, r, Tick(d));
  }

  lemma EndedAlone(w: World, es: seq<Event>, now: nat, c: Claims, k: Key, s: Option<Session>) returns (r: seq<Event>)
    requires Alone(w, es, now, c, k, s)
    ensures r == es + [End(0)] && Runs(w, r) && After(w, r).c == c.(active := c.active - {k})
  {
    hide Runs, After;
    r := Then(w, es, End(0));
  }

  // ----- every run: many attempts, crashes, lost writes

  /** One fresh claim and what became of it. `called` is the time its caller read before it
      took the lock, the stamp of its record; `granted` the time it held the lock. `session` is
      its delivery, once begun, and `told` what the attempt was told of it; `took` says that
      the server has accepted the message. */
  datatype Attempt = Attempt(
    key: Key, called: nat, granted: nat, session: Option<Session>, told: Option<Delivery>,
    took: bool, released: bool, ended: bool)

  datatype World = World(clock: nat, c: Claims, attempts: seq<Attempt>)

  /** `Begin` starts a delivery, `Take` is the server accepting DATA, as late as it likes, even
      after the attempt is gone, and `Learn` the attempt being told. A release and the end of
      its attempt are two steps unless `ends`. */
  datatype Event =
    | Tick(d: nat)
    | Try(key: Key, called: nat, commits: bool)
    | Begin(i: nat, s: Session)
    | Take(i: nat)
    | Learn(i: nat)
    | Record(i: nat, stage: Stage, commits: bool)
    | Release(i: nat, ends: bool)
    | End(i: nat)
    | Crash

  const INITIAL := World(0, Claims(map[], {}), [])

  predicate Working(w: World, i: nat) {
    i < |w.attempts| && !w.attempts[i].ended
  }

  /** The server accepts what its session says it accepts, success is told after that; an
      attempt releases its claim when it began no delivery or was told of a certain failure,
      and records a stage when it was told of success. */
  predicate Enabled(w: World, e: Event) {
    match e
    case Tick(_) => true
    case Try(_, called, _) => called <= w.clock
    case Begin(i, s) => Working(w, i) && w.attempts[i].session.None? && !w.attempts[i].released && Truthful(s)
    case Take(i) => i < |w.attempts| && w.attempts[i].session.Some? && Took(w.attempts[i].session.value)
    case Learn(i) =>
      && Working(w, i) && w.attempts[i].session.Some? && w.attempts[i].told.None?
      && (Told(w.attempts[i].session.value).Delivered? ==> w.attempts[i].took)
    case Record(i, stage, _) => Working(w, i) && w.attempts[i].told == Some(Delivered) && stage != Claiming
    case Release(i, _) =>
      Working(w, i) && !w.attempts[i].released && (w.attempts[i].session.None? || w.attempts[i].told == Some(Failed))
    case End(i) => Working(w, i)
    case Crash => true
  }

  function Step(w: World, e: Event): World
    requires Enabled(w, e)
  {
    match e
    case Tick(d) => w.(clock := w.clock + d)
    case Try(k, called, commits) =>
      var (c, answer) := Claimed(w.c, k, called, commits);
      World(w.clock, c,
            if answer.Fresh? then w.attempts + [Attempt(k, called, w.clock, None, None, false, false, false)] else w.attempts)
    case Begin(i, s) => w.(attempts := w.attempts[i := w.attempts[i].(session := Some(s))])
    case Take(i) => w.(attempts := w.attempts[i := w.attempts[i].(took := true)])
    case Learn(i) => w.(attempts := w.attempts[i := w.attempts[i].(told := Some(Told(w.attempts[i].session.value)))])
    case Record(i, stage, commits) => w.(c := Finished(w.c, w.attempts[i].key, Some(stage), w.clock, commits))
    case Release(i, ends) =>
      var a := w.attempts[i];
      var c := Finished(w.c, a.key, None, w.clock, true);
      World(w.clock, if ends then c.(active := c.active - {a.key}) else c,
            w.attempts[i := a.(released := true, ended := ends)])
    case End(i) =>
      World(w.clock, w.c.(active := w.c.active - {w.attempts[i].key}), w.attempts[i := w.attempts[i].(ended := true)])
    case Crash =>
      World(w.clock, w.c.(active := {}), seq(|w.attempts|, i requires 0 <= i < |w.attempts| => w.attempts[i].(ended := true)))
  }

  predicate Runs(w: World, es: seq<Event>)
    decreases |es|
  {
    es == [] || (Enabled(w, es[0]) && Runs(Step(w, es[0]), es[1..]))
  }

  function After(w: World, es: seq<Event>): World
    requires Runs(w, es)
    decreases |es|
  {
    if es == [] then w else After(Step(w, es[0]), es[1..])
  }

  lemma NoEvents(w: World)
    ensures Runs(w, []) && After(w, []) == w
  {
  }

  lemma {:induction false} RunsConcat(w: World, a: seq<Event>, b: seq<Event>)
    requires Runs(w, a)
    ensures Runs(w, a + b) <==> Runs(After(w, a), b)
    ensures Runs(w, a + b) ==> After(w, a + b) == After(After(w, a), b)
    decreases |a|
  {
    hide Enabled, Step;
    if a == [] {
      assert a + b == b;
    } else {
      assert (a + b)[0] == a[0] && (a + b)[1..] == a[1..] + b;
      RunsConcat(Step(w, a[0]), a[1..], b);
    }
  }

  /** One more event behind a run. */
  ghost function Then(w: World, es: seq<Event>, e: Event): (r: seq<Event>)
    requires Runs(w, es) && Enabled(After(w, es), e)
    ensures r == es + [e] && Runs(w, r) && After(w, r) == Step(After(w, es), e)
  {
    ThenRuns(w, es, e);
    es + [e]
  }

  lemma ThenRuns(w: World, es: seq<Event>, e: Event)
    requires Runs(w, es) && Enabled(After(w, es), e)
    ensures Runs(w, es + [e]) && After(w, es + [e]) == Step(After(w, es), e)
  {
    hide Enabled, Step;
    RunsConcat(w, es, [e]);
    assert [e][1..] == [];
  }

  // ----- what every run keeps

  /** What the attempts say of themselves is what happened. */
  ghost predicate Sincere(a: Attempt) {
    && (a.session.Some? ==> Truthful(a.session.value))
    && (a.told.Some? ==> a.session.Some? && a.told.value == Told(a.session.value))
    && (a.took ==> a.session.Some? && Took(a.session.value))
    && (a.released ==> a.session.None? || a.told == Some(Failed))
  }

  /** The server may have taken the message of the attempt, or may yet. */
  predicate MayTake(a: Attempt) {
    if a.session.Some? then Took(a.session.value) else !a.ended && !a.released
  }

  /** A claim is given back only when the server has not taken the message and never will: what
      makes it so is that the attempt was told of a certain failure, or began no delivery. */
  lemma ReleasedNeverTakes(a: Attempt)
    requires Sincere(a)
    ensures a.took ==> MayTake(a)
    ensures a.released ==> !MayTake(a) && !a.took
  {
    if a.session.Some? { ToldIsTrue(a.session.value); }
  }

  ghost predicate Dated(w: World) {
    forall i | 0 <= i < |w.attempts| :: Sincere(w.attempts[i]) && w.attempts[i].called <= w.attempts[i].granted <= w.clock
  }

  lemma StepKeepsDated(w: World, e: Event)
    requires Dated(w) && Enabled(w, e)
    ensures Dated(Step(w, e))
  {
    hide Truthful, Took, Told;
  }

  /** Which claims count: all that were not given back, or only those whose message the server
      may take. */
  predicate Counts(a: Attempt, all: bool) {
    if all then !a.released else MayTake(a)
  }

  /** Two claims of one message that count stand a whole keeping time apart: the later got the
      lock no sooner than that after the earlier was asked for. */
  ghost predicate Apart(attempts: seq<Attempt>, all: bool) {
    forall i, j | 0 <= i < j < |attempts| && attempts[i].key == attempts[j].key
                  && Counts(attempts[i], all) && Counts(attempts[j], all) ::
      attempts[i].called + KEEP <= attempts[j].granted
  }

  /** A claim that counts is still on record, no older than it was asked for, until it may expire. */
  ghost predicate OnRecord(w: World, all: bool) {
    forall i | 0 <= i < |w.attempts| && Counts(w.attempts[i], all) && w.clock < w.attempts[i].called + KEEP ::
      w.attempts[i].key in w.c.db && w.attempts[i].called <= w.c.db[w.attempts[i].key].at
  }

  ghost predicate Safe(w: World, all: bool) {
    Apart(w.attempts, all) && OnRecord(w, all) && Dated(w)
  }

  lemma {:induction false} DatedAttempt(w: World, i: nat)
    requires Dated(w) && i < |w.attempts|
    ensures Sincere(w.attempts[i]) && w.attempts[i].called <= w.attempts[i].granted <= w.clock
  {
  }

  /** A claim is fresh only where no younger one of the message counts. */
  lemma TryKeepsSafe(w: World, k: Key, called: nat, commits: bool, all: bool)
    requires Safe(w, all) && called <= w.clock
    ensures Safe(Step(w, Try(k, called, commits)), all)
  {
    hide Dated, Counts;
    StepKeepsDated(w, Try(k, called, commits));
    var v := Step(w, Try(k, called, commits));
    forall i | 0 <= i < |w.attempts| && Counts(w.attempts[i], all) && w.clock < w.attempts[i].called + KEEP
      ensures w.attempts[i].key in v.c.db && w.attempts[i].called <= v.c.db[w.attempts[i].key].at
      ensures |v.attempts| > |w.attempts| ==> w.attempts[i].key != k
    {
      assert Keeps(w.c, w.attempts[i].key, called);
    }
  }

  /** Attempts that are the same but for what they learned or did; none counts that did not. */
  lemma AttemptMoves(w: World, v: World, all: bool)
    requires Safe(w, all) && Dated(v) && v.clock >= w.clock && |v.attempts| == |w.attempts|
    requires forall i | 0 <= i < |w.attempts| ::
               && v.attempts[i].key == w.attempts[i].key && v.attempts[i].called == w.attempts[i].called
               && v.attempts[i].granted == w.attempts[i].granted
               && (Counts(v.attempts[i], all) ==> Counts(w.attempts[i], all))
    requires forall k | k in w.c.db :: k in v.c.db && w.c.db[k].at <= v.c.db[k].at
    ensures Safe(v, all)
  {
    hide Dated, Counts;
    forall i | 0 <= i < |v.attempts| && Counts(v.attempts[i], all) && v.clock < v.attempts[i].called + KEEP
      ensures v.attempts[i].key in v.c.db && v.attempts[i].called <= v.c.db[v.attempts[i].key].at
    {
      assert Counts(w.attempts[i], all);
    }
  }

  /** No other claim of the message is young and one whose message the server may take. */
  predicate Careful(w: World, e: Event) {
    e.Release? && e.i < |w.attempts| ==>
      forall j | 0 <= j < |w.attempts| && j != e.i && w.attempts[j].key == w.attempts[e.i].key && MayTake(w.attempts[j]) ::
        w.attempts[j].called + KEEP <= w.clock
  }

  lemma QuietKeepsSafe(w: World, e: Event, all: bool)
    requires Safe(w, all) && Enabled(w, e)
    requires e.Tick? || e.Begin? || e.Take? || e.Learn? || e.End? || e.Crash?
    ensures Safe(Step(w, e), all)
  {
    hide Safe, Dated, Truthful, Took, Told;
    assert Dated(Step(w, e)) by { SafeIsDated(w, all); StepKeepsDated(w, e); }
    AttemptMoves(w, Step(w, e), all);
  }

  lemma SafeIsDated(w: World, all: bool)
    requires Safe(w, all)
    ensures Dated(w)
  {
  }

  lemma RecordKeepsSafe(w: World, i: nat, stage: Stage, commits: bool, all: bool)
    requires Safe(w, all) && Enabled(w, Record(i, stage, commits))
    ensures Safe(Step(w, Record(i, stage, commits)), all)
  {
    hide Counts;
    var v := Step(w, Record(i, stage, commits));
    assert v.attempts == w.attempts;
    forall j | 0 <= j < |v.attempts| && Counts(v.attempts[j], all) && v.clock < v.attempts[j].called + KEEP
      ensures v.attempts[j].key in v.c.db && v.attempts[j].called <= v.c.db[v.attempts[j].key].at
    {
      DatedAttempt(w, j);
    }
  }

  /** The release is where safety hangs: no other claim that counts may be young on that record. */
  ghost predicate Clear(w: World, i: nat, all: bool)
    requires i < |w.attempts|
  {
    forall j | 0 <= j < |w.attempts| && j != i && w.attempts[j].key == w.attempts[i].key && Counts(w.attempts[j], all) ::
      w.attempts[j].called + KEEP <= w.clock
  }

  lemma ReleaseKeepsSafe(w: World, i: nat, ends: bool, all: bool)
    requires Safe(w, all) && Enabled(w, Release(i, ends)) && Clear(w, i, all)
    ensures Safe(Step(w, Release(i, ends)), all)
  {
    hide Counts, Dated, Sincere;
    var v, a := Step(w, Release(i, ends)), w.attempts[i];
    StepKeepsDated(w, Release(i, ends));
    assert !Counts(v.attempts[i], all) by { ReleasedDoesNotCount(v, i, all); }
    forall j | 0 <= j < |v.attempts| && Counts(v.attempts[j], all)
      ensures w.attempts[j] == v.attempts[j]
      ensures v.clock < v.attempts[j].called + KEEP ==> v.attempts[j].key != a.key
    {
    }
  }

  lemma ReleasedDoesNotCount(w: World, i: nat, all: bool)
    requires Dated(w) && i < |w.attempts| && w.attempts[i].released
    ensures !Counts(w.attempts[i], all)
  {
    DatedAttempt(w, i);
    ReleasedNeverTakes(w.attempts[i]);
  }

  /** A release keeps the invariant exactly when no other claim of the message is both young
      and one whose message the server may take. */
  lemma ReleaseSafeExactly(w: World, i: nat, ends: bool)
    requires Safe(w, false) && Enabled(w, Release(i, ends))
    ensures Safe(Step(w, Release(i, ends)), false) <==> Careful(w, Release(i, ends))
  {
    hide MayTake, Dated;
    var v, a := Step(w, Release(i, ends)), w.attempts[i];
    assert Careful(w, Release(i, ends)) <==> Clear(w, i, false);
    if Clear(w, i, false) { ReleaseKeepsSafe(w, i, ends, false); }
    assert a.key !in v.c.db;
    assert forall j | 0 <= j < |w.attempts| && j != i :: v.attempts[j] == w.attempts[j];
  }

  lemma StepKeepsSafe(w: World, e: Event, all: bool)
    requires Safe(w, all) && Enabled(w, e) && (e.Release? ==> Clear(w, e.i, all))
    ensures Safe(Step(w, e), all)
  {
    hide Safe, Clear;
    match e
    case Try(k, called, commits) => TryKeepsSafe(w, k, called, commits, all);
    case Record(i, stage, commits) => RecordKeepsSafe(w, i, stage, commits, all);
    case Release(i, ends) => ReleaseKeepsSafe(w, i, ends, all);
    case _ => QuietKeepsSafe(w, e, all);
  }

  // ----- careful runs

  ghost predicate CarefulRun(w: World, es: seq<Event>)
    requires Runs(w, es)
    decreases |es|
  {
    es == [] || (Careful(w, es[0]) && CarefulRun(Step(w, es[0]), es[1..]))
  }

  lemma {:induction false} CarefulRunsAreSafe(w: World, es: seq<Event>)
    requires Safe(w, false) && Runs(w, es) && CarefulRun(w, es)
    ensures Safe(After(w, es), false)
    decreases |es|
  {
    hide Safe, Step, Enabled;
    if es != [] {
      CarefulIsClear(w, es[0]);
      StepKeepsSafe(w, es[0], false);
      CarefulRunsAreSafe(Step(w, es[0]), es[1..]);
    }
  }

  lemma CarefulIsClear(w: World, e: Event)
    requires Enabled(w, e)
    ensures e.Release? ==> (Careful(w, e) <==> Clear(w, e.i, false))
  {
    hide MayTake;
  }

  /** Two acceptances of one message come from claims at least the keeping time apart. */
  ghost predicate Once(w: World) {
    forall i, j | 0 <= i < j < |w.attempts| && w.attempts[i].key == w.attempts[j].key && w.attempts[i].took && w.attempts[j].took ::
      w.attempts[i].called + 600_000_000_000 <= w.attempts[j].granted
  }

  lemma SafeIsOnce(w: World)
    requires Safe(w, false)
    ensures Once(w)
  {
    hide MayTake, Sincere;
    forall i | 0 <= i < |w.attempts|
      ensures w.attempts[i].took ==> Counts(w.attempts[i], false)
    {
      DatedAttempt(w, i);
      ReleasedNeverTakes(w.attempts[i]);
    }
  }

  lemma InitialIsSafe()
    ensures Safe(INITIAL, false) && Safe(INITIAL, true) && Guarded(INITIAL)
  {
  }

  /** At most once: over every run with retries, crashes, lost writes and SMTP failures at any
      point, two acceptances of one message come from claims at least the keeping time apart,
      if each release comes when no other claim of the message is young and may be taken. */
  lemma AtMostOnce(es: seq<Event>)
    requires Runs(INITIAL, es) && CarefulRun(INITIAL, es)
    ensures Once(After(INITIAL, es))
  {
    hide Safe;
    InitialIsSafe();
    CarefulRunsAreSafe(INITIAL, es);
    SafeIsOnce(After(INITIAL, es));
  }

  /** The store never forgets an acceptance early: until its claim may expire, a retry is
      answered from the record and no second session starts. */
  lemma RetryIsRefused(es: seq<Event>, i: nat, called: nat, commits: bool)
    requires Runs(INITIAL, es) && CarefulRun(INITIAL, es)
    requires i < |After(INITIAL, es).attempts| && After(INITIAL, es).attempts[i].took
    requires called <= After(INITIAL, es).clock < After(INITIAL, es).attempts[i].called + KEEP
    ensures !Claimed(After(INITIAL, es).c, After(INITIAL, es).attempts[i].key, called, commits).1.Fresh?
  {
    hide Runs, After, MayTake, Sincere, Apart;
    InitialIsSafe();
    CarefulRunsAreSafe(INITIAL, es);
    var w := After(INITIAL, es);
    DatedAttempt(w, i);
    ReleasedNeverTakes(w.attempts[i]);
    assert Keeps(w.c, w.attempts[i].key, called);
  }

  // ----- and only careful runs

  const TAKEN: Session := Session(true, true, true, true, true, [], true, true, true, Reply.Taken, true, true)

  predicate Calm(es: seq<Event>) {
    forall i | 0 <= i < |es| :: !es[i].Release?
  }

  /** The server can take what it may take. */
  lemma CanTake(w: World, i: nat) returns (es: seq<Event>)
    requires i < |w.attempts| && MayTake(w.attempts[i])
    ensures Calm(es) && Runs(w, es)
    ensures exists s :: After(w, es) == w.(attempts := w.attempts[i := w.attempts[i].(session := Some(s), took := true)])
  {
    hide Runs, After;
    NoEvents(w);
    es := [];
    var s := if w.attempts[i].session.None? then TAKEN else w.attempts[i].session.value;
    if w.attempts[i].session.None? { es := Then(w, es, Begin(i, s)); }
    es := Then(w, es, Take(i));
    assert After(w, es) == w.(attempts := w.attempts[i := w.attempts[i].(session := Some(s), took := true)]);
  }

  /** After a release that is not careful, the very next retry can make the server take the
      message twice, with no further release. */
  lemma UnsafeReleaseSendsTwice(w: World, i: nat, ends: bool) returns (fs: seq<Event>)
    requires Enabled(w, Release(i, ends)) && !Careful(w, Release(i, ends))
    ensures Calm(fs) && Runs(w, [Release(i, ends)] + fs) && !Once(After(w, [Release(i, ends)] + fs))
  {
    hide Runs, After;
    var n, k := |w.attempts|, w.attempts[i].key;
    var j :| 0 <= j < n && j != i && w.attempts[j].key == k && MayTake(w.attempts[j]) && w.clock < w.attempts[j].called + KEEP;
    NoEvents(w);
    var es := Then(w, [], Release(i, ends));
    var w1 := After(w, es);
    assert w1.attempts[j] == w.attempts[j] && k !in w1.c.db;
    es := Then(w, es, Try(k, w.clock, true));
    var w2 := After(w, es);
    assert |w2.attempts| == n + 1 && w2.attempts[j] == w.attempts[j];
    fs := BothTaken(w2, j, n);
    RunsConcat(w, es, fs);
    assert es + fs == [Release(i, ends)] + ([Try(k, w.clock, true)] + fs);
    fs := [Try(k, w.clock, true)] + fs;
  }

  lemma BothTaken(w: World, i: nat, j: nat) returns (fs: seq<Event>)
    requires i < j < |w.attempts| && w.attempts[i].key == w.attempts[j].key
    requires MayTake(w.attempts[i]) && MayTake(w.attempts[j]) && w.attempts[j].granted < w.attempts[i].called + KEEP
    ensures Calm(fs) && Runs(w, fs) && !Once(After(w, fs))
  {
    hide Runs, After;
    var a := CanTake(w, i);
    var v := After(w, a);
    assert v.attempts[j] == w.attempts[j] && v.attempts[i].took;
    var b := CanTake(v, j);
    RunsConcat(w, a, b);
    fs := a + b;
    var u := After(w, fs);
    assert u.attempts[i].took && u.attempts[j].took;
    assert u.attempts[i].key == u.attempts[j].key && u.attempts[j].granted < u.attempts[i].called + KEEP;
  }

  lemma {:induction false} FirstCareless(w: World, es: seq<Event>) returns (m: nat)
    requires Runs(w, es) && !CarefulRun(w, es)
    ensures m < |es| && Runs(w, es[..m]) && Enabled(After(w, es[..m]), es[m]) && !Careful(After(w, es[..m]), es[m])
    decreases |es|
  {
    hide Enabled, Step, Careful;
    if !Careful(w, es[0]) {
      m := 0;
    } else {
      m := FirstCareless(Step(w, es[0]), es[1..]);
      assert es[..m + 1][0] == es[0] && es[..m + 1][1..] == es[1..][..m];
      m := m + 1;
    }
  }

  lemma {:induction false} CarefulPrefix(w: World, es: seq<Event>, m: nat, fs: seq<Event>)
    requires Runs(w, es) && CarefulRun(w, es) && m <= |es| && Calm(fs) && Runs(w, es[..m] + fs)
    ensures CarefulRun(w, es[..m] + fs)
    decreases m
  {
    hide Enabled, Step;
    if m == 0 {
      assert es[..0] + fs == fs;
      CalmIsCareful(w, fs);
    } else {
      var both := es[..m] + fs;
      assert both[0] == es[0] && both[1..] == es[1..][..m - 1] + fs;
      CarefulPrefix(Step(w, es[0]), es[1..], m - 1, fs);
    }
  }

  lemma {:induction false} CalmIsCareful(w: World, fs: seq<Event>)
    requires Runs(w, fs) && Calm(fs)
    ensures CarefulRun(w, fs)
    decreases |fs|
  {
    hide Enabled, Step;
    if fs != [] { CalmIsCareful(Step(w, fs[0]), fs[1..]); }
  }

  /** However a run goes on after any part of it, without further releases, the guarantee stands. */
  ghost predicate Lasting(es: seq<Event>) {
    forall m, fs | 0 <= m <= |es| && Calm(fs) && Runs(INITIAL, es[..m] + fs) :: Once(After(INITIAL, es[..m] + fs))
  }

  /** Exactly the careful runs have the guarantee, now and however they go on. */
  lemma AtMostOnceExactly(es: seq<Event>)
    requires Runs(INITIAL, es)
    ensures Lasting(es) <==> CarefulRun(INITIAL, es)
  {
    hide Runs, After, CarefulRun, Once;
    if CarefulRun(INITIAL, es) {
      forall m, fs | 0 <= m <= |es| && Calm(fs) && Runs(INITIAL, es[..m] + fs)
        ensures Once(After(INITIAL, es[..m] + fs))
      {
        CarefulPrefix(INITIAL, es, m, fs);
        AtMostOnce(es[..m] + fs);
      }
    } else {
      var m := FirstCareless(INITIAL, es);
      var w, e := After(INITIAL, es[..m]), es[m];
      var fs := UnsafeReleaseSendsTwice(w, e.i, e.ends);
      RunsConcat(INITIAL, es[..m], [e] + fs);
      assert es[..m] + ([e] + fs) == es[..m + 1] + fs;
      assert !Once(After(INITIAL, es[..m + 1] + fs));
    }
  }

  // ----- two conditions a caller can keep

  /** A release that comes within the keeping time of its own claim. */
  predicate Prompt(w: World, e: Event) {
    e.Release? && e.i < |w.attempts| ==> w.clock < w.attempts[e.i].called + KEEP
  }

  /** A release that ends its attempt in the same step. */
  predicate Whole(e: Event) {
    e.Release? ==> e.ends
  }

  /** An attempt still at work holds its claim, and no later one was granted meanwhile. */
  ghost predicate Guarded(w: World) {
    forall i | 0 <= i < |w.attempts| && !w.attempts[i].ended ::
      && w.attempts[i].key in w.c.active && w.attempts[i].key in w.c.db
      && forall j | i < j < |w.attempts| :: w.attempts[j].key != w.attempts[i].key
  }

  lemma ClearOfAll(w: World, e: Event)
    requires Safe(w, true) && Enabled(w, e) && (Prompt(w, e) || Guarded(w))
    ensures e.Release? ==> Clear(w, e.i, true)
    ensures Careful(w, e)
  {
    hide MayTake, Sincere;
    if e.Release? {
      forall j | 0 <= j < |w.attempts| && j != e.i && w.attempts[j].key == w.attempts[e.i].key && !w.attempts[j].released
        ensures w.attempts[j].called + KEEP <= w.clock
      {
        DatedAttempt(w, j);
        DatedAttempt(w, e.i);
      }
      forall j | 0 <= j < |w.attempts| && MayTake(w.attempts[j])
        ensures !w.attempts[j].released
      {
        DatedAttempt(w, j);
        ReleasedNeverTakes(w.attempts[j]);
      }
    }
  }

  ghost predicate PromptRun(w: World, es: seq<Event>)
    requires Runs(w, es)
    decreases |es|
  {
    es == [] || (Prompt(w, es[0]) && PromptRun(Step(w, es[0]), es[1..]))
  }

  lemma {:induction false} PromptIsCareful(w: World, es: seq<Event>)
    requires Safe(w, true) && Runs(w, es) && PromptRun(w, es)
    ensures CarefulRun(w, es)
    decreases |es|
  {
    hide Safe, Step, Enabled, Prompt, Careful;
    if es != [] {
      ClearOfAll(w, es[0]);
      StepKeepsSafe(w, es[0], true);
      PromptIsCareful(Step(w, es[0]), es[1..]);
    }
  }

  lemma StepKeepsGuarded(w: World, e: Event)
    requires Guarded(w) && Enabled(w, e) && Whole(e)
    ensures Guarded(Step(w, e))
  {
    hide Truthful, Took, Told;
    match e
    case Tick(_) =>
    case Try(k, called, commits) =>
      forall i | 0 <= i < |w.attempts| && !w.attempts[i].ended
        ensures w.attempts[i].key in Step(w, e).c.db
      {
        assert Keeps(w.c, w.attempts[i].key, called);
      }
    case Begin(i, s) =>
    case Take(i) =>
    case Learn(i) =>
    case Record(i, stage, commits) =>
    case Release(i, ends) => GuardedAfterEnd(w, Step(w, e), i);
    case End(i) => GuardedAfterEnd(w, Step(w, e), i);
    case Crash =>
  }

  lemma GuardedAfterEnd(w: World, v: World, i: nat)
    requires Guarded(w) && i < |w.attempts| && !w.attempts[i].ended
    requires |v.attempts| == |w.attempts| && v.attempts[i].ended && v.attempts[i].key == w.attempts[i].key
    requires forall j | 0 <= j < |w.attempts| && j != i :: v.attempts[j] == w.attempts[j]
    requires v.c.active == w.c.active - {w.attempts[i].key}
    requires forall k | k in w.c.db && k != w.attempts[i].key :: k in v.c.db
    ensures Guarded(v)
  {
    forall j | 0 <= j < |v.attempts| && !v.attempts[j].ended
      ensures v.attempts[j].key != w.attempts[i].key
    {
      assert w.attempts[j] == v.attempts[j];
    }
  }

  lemma {:induction false} WholeIsCareful(w: World, es: seq<Event>)
    requires Safe(w, true) && Guarded(w) && Runs(w, es) && forall i | 0 <= i < |es| :: Whole(es[i])
    ensures CarefulRun(w, es)
    decreases |es|
  {
    hide Safe, Step, Enabled, Guarded, Careful;
    if es != [] {
      ClearOfAll(w, es[0]);
      StepKeepsSafe(w, es[0], true);
      StepKeepsGuarded(w, es[0]);
      WholeIsCareful(Step(w, es[0]), es[1..]);
    }
  }

  /** Runs whose releases come within the keeping time of their claims, or end their attempts
      in one step, are careful, so each message is accepted at most once. */
  lemma PromptOrWholeIsOnce(es: seq<Event>)
    requires Runs(INITIAL, es)
    requires PromptRun(INITIAL, es) || forall i | 0 <= i < |es| :: Whole(es[i])
    ensures CarefulRun(INITIAL, es) && Once(After(INITIAL, es))
  {
    hide Safe, Guarded, Runs, After, CarefulRun, PromptRun, Whole;
    InitialIsSafe();
    if PromptRun(INITIAL, es) { PromptIsCareful(INITIAL, es); } else { WholeIsCareful(INITIAL, es); }
    AtMostOnce(es);
  }

  /** A late release cut from its end loses the guarantee: the end of the first attempt
      uncovers the second, the second outlives its record and deletes the third's. */
  lemma LateReleaseSendsTwice(k: Key) returns (es: seq<Event>)
    ensures Runs(INITIAL, es) && !Once(After(INITIAL, es))
  {
    hide Runs, After;
    NoEvents(INITIAL);
    es := Then(INITIAL, [], Try(k, 0, true));
    assert After(INITIAL, es).c.db == map[k := Claim(Claiming, 0)];
    es := Then(INITIAL, es, Release(0, false));
    assert After(INITIAL, es).c.db == map[];
    es := Then(INITIAL, es, Try(k, 0, true));
    assert After(INITIAL, es).c.db == map[k := Claim(Claiming, 0)];
    es := Then(INITIAL, es, End(0));
    assert After(INITIAL, es).c.active == {};
    es := Then(INITIAL, es, Tick(KEEP));
    var w := After(INITIAL, es);
    assert Unexpired(w.c, KEEP) == map[];
    es := Then(INITIAL, es, Try(k, KEEP, true));
    w := After(INITIAL, es);
    assert |w.attempts| == 3 && MayTake(w.attempts[2]) && w.attempts[2].key == w.attempts[1].key;
    var fs := UnsafeReleaseSendsTwice(w, 1, false);
    RunsConcat(INITIAL, es, [Release(1, false)] + fs);
    es := es + ([Release(1, false)] + fs);
  }
}
