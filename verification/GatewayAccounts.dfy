/** What the books say in every run of the gateway: the ledger against the calls,
    and the cache's counters against the ledger. */
module GatewayAccounts {
  import opened CacheModel
  import opened Client
  import opened GatewayRuns

  ghost function Those(calls: Calls, p: Call -> bool): set<nat> {
    set c | c in calls && p(calls[c])
  }

  // How many calls are as described.
  ghost function Tally(calls: Calls, p: Call -> bool): nat { |Those(calls, p)| }

  lemma TallyMoves(calls: Calls, id: nat, next: Call, p: Call -> bool)
    ensures Tally(calls[id := next], p) ==
            Tally(calls, p) - (if id in calls && p(calls[id]) then 1 else 0) + (if p(next) then 1 else 0)
  {
    var was := Those(calls, p);
    assert Those(calls[id := next], p) == if p(next) then was + {id} else was - {id};
  }

  lemma TallySplits(calls: Calls, p: Call -> bool, q: Call -> bool, r: Call -> bool)
    requires forall c | c in calls :: p(calls[c]) <==> q(calls[c]) || r(calls[c])
    requires forall c | c in calls :: !(q(calls[c]) && r(calls[c]))
    ensures Tally(calls, p) == Tally(calls, q) + Tally(calls, r)
  {
    assert Those(calls, p) == Those(calls, q) + Those(calls, r);
  }

  // The records and the calls of the tenants asked about.
  type Who = string -> bool

  ghost function CachedOf(who: Who): CallRecord -> bool { (r: CallRecord) => r.cached && who(r.tenant) }

  ghost function FreshOf(who: Who): CallRecord -> bool { (r: CallRecord) => !r.cached && who(r.tenant) }

  ghost function ServedOf(who: Who): Call -> bool { (c: Call) => c.Served? && who(c.arrival.tenant) }

  ghost function LoggedOf(who: Who): Call -> bool {
    (c: Call) => (c.Recorded? || c.Answered?) && who(c.arrival.tenant)
  }

  ghost predicate Booked(w: World, who: Who) {
    && |Where(w.ledger, CachedOf(who))| == Tally(w.calls, ServedOf(who))
    && |Where(w.ledger, FreshOf(who))| == Tally(w.calls, LoggedOf(who))
  }

  ghost predicate PlainRecords(w: World) {
    && (forall c | c in w.calls && w.calls[c].Returned? ::
          !w.calls[c].record.cached
          && w.calls[c].record.backend == w.calls[c].backend.name
          && w.calls[c].record.model == w.calls[c].backend.model)
    && (forall r | r in w.ledger && r.cached :: OfRecord(r) == Totals(1, 1, 0, 0.0, 0))
  }

  lemma StepIsPlain(s: Setup, w: World, e: Event)
    requires PlainRecords(w)
    ensures PlainRecords(Next(s, w, e))
  {
    hide GetStep, PutStep, Routes, Charge, Concurrency, SaltFor, AfterEnter, AfterLeave;
  }

  // What one step does to the calls and the ledger.
  ghost predicate Moves(w: World, w': World, e: Event) {
    && e.id in w'.calls && w'.calls == w.calls[e.id := w'.calls[e.id]]
    && var d := w'.calls[e.id];
    && (d.Served? <==> e.step.LogHit?) && (d.Recorded? <==> e.step.LogReply?) && (d.Answered? <==> e.step.Store?)
    && (e.id !in w.calls ==> d.Refused? || d.Routed?)
    && (e.id in w.calls ==>
          var c := w.calls[e.id];
          && c.arrival == d.arrival && !c.Served? && !c.Answered?
          && (c.Recorded? <==> e.step.Store?) && (c.Returned? <==> e.step.LogReply?))
    && (!e.step.LogHit? && !e.step.LogReply? ==> w'.ledger == w.ledger)
    && (e.step.LogHit? ==> w'.ledger == w.ledger + [CachedRecord(d.arrival, d.backend)])
    && (e.step.LogReply? ==>
          e.id in w.calls && w'.ledger == w.ledger + [w.calls[e.id].record.(tenant := d.arrival.tenant)])
  }

  lemma StepMoves(s: Setup, w: World, e: Event)
    ensures Next(s, w, e) == w || Moves(w, Next(s, w, e), e)
  {
    hide GetStep, PutStep, Routes, FreshRecord, SaltFor, AfterEnter, AfterLeave, CachedRecord;
  }

  lemma StepIsBooked(s: Setup, w: World, e: Event, who: Who)
    requires Booked(w, who) && PlainRecords(w)
    ensures Booked(Next(s, w, e), who)
  {
    hide Next, Tally, Where, OfRecord;
    StepMoves(s, w, e);
    var w' := Next(s, w, e);
    if w' != w {
      var next := w'.calls[e.id];
      TallyMoves(w.calls, e.id, next, ServedOf(who));
      TallyMoves(w.calls, e.id, next, LoggedOf(who));
      if e.step.LogHit? || e.step.LogReply? {
        var r := w'.ledger[|w.ledger|];
        assert w'.ledger == w.ledger + [r];
        WhereNext(w.ledger, r, CachedOf(who));
        WhereNext(w.ledger, r, FreshOf(who));
      }
    }
  }

  // In every run and for any tenants, the ledger has one cached record for each
  // of their calls served from the cache and one other for each call a backend
  // answered; refused, failing and unfinished calls have none.
  lemma {:induction false} LedgerListsAnsweredCalls(s: Setup, events: seq<Event>, who: Who)
    ensures Booked(RunSteps(s, START, events), who) && PlainRecords(RunSteps(s, START, events))
  {
    if events != [] {
      hide Next, Booked, PlainRecords;
      LedgerListsAnsweredCalls(s, events[..|events| - 1], who);
      StepIsPlain(s, RunSteps(s, START, events[..|events| - 1]), events[|events| - 1]);
      StepIsBooked(s, RunSteps(s, START, events[..|events| - 1]), events[|events| - 1], who);
    }
  }

  // What goes into the ledger, when it does: for a cached answer a record of its
  // own backend, model and tenant with nothing used; for a backend's answer the
  // record made when it returned, with the tenant.
  lemma RecordLogged(s: Setup, events: seq<Event>, n: nat)
    requires n < |events| && (events[n].step.LogHit? || events[n].step.LogReply?)
    ensures var id, w, w' := events[n].id, After(s, events, n), After(s, events, n + 1);
      w'.ledger != w.ledger ==>
        && id in w.calls && |w'.ledger| == |w.ledger| + 1 && w'.ledger[..|w.ledger|] == w.ledger
        && var c, r := w.calls[id], w'.ledger[|w.ledger|];
        && (c.Found? || c.Returned?)
        && r.backend == c.backend.name && r.model == c.backend.model && r.tenant == c.arrival.tenant
        && (r.cached <==> c.Found?)
        && (c.Found? ==> r.promptTokens == 0 && r.completionTokens == 0 && r.latencyMs == 0 && r.costMilliUsd == 0.0
                         && r.ttftMs.None? && r.concurrency == 1.0)
        && (c.Returned? ==> r == c.record.(tenant := c.arrival.tenant))
  {
    AfterNext(s, events, n);
    LedgerListsAnsweredCalls(s, events[..n], Everyone());
    hide Booked, Tally, GetStep, PutStep, RunSteps;
    StepMoves(s, After(s, events, n), events[n]);
  }

  // ----- the cache's counters -----

  ghost function HitCalls(): Call -> bool { (c: Call) => c.Found? || c.Served? }

  ghost function MissCalls(): Call -> bool {
    (c: Call) => c.Missed? || c.InCall? || c.Failed? || c.Returned? || c.Recorded? || c.Answered?
  }

  ghost function StoredCalls(): Call -> bool { (c: Call) => c.Answered? }

  ghost predicate Counted(w: World) {
    && w.cache.hits == Tally(w.calls, HitCalls())
    && w.cache.misses == Tally(w.calls, MissCalls())
    && w.cache.nextId == Tally(w.calls, StoredCalls())
  }

  lemma GetCounts(cfg: Config, c: Cache, prompt: string, scope: Scope, readings: Readings)
    ensures var (c', o) := GetStep(cfg, c, prompt, scope, readings);
      && c'.hits == c.hits + (if o.Hit? then 1 else 0)
      && c'.misses == c.misses + (if o.Hit? then 0 else 1)
      && c'.nextId == c.nextId
  {
    hide Live, Best, Without;
  }

  lemma StepIsCounted(s: Setup, w: World, e: Event)
    requires Counted(w)
    ensures Counted(Next(s, w, e))
  {
    hide Tally, GetStep, Routes, Charge, SaltFor;
    var w' := Next(s, w, e);
    if w' != w {
      TallyMoves(w.calls, e.id, w'.calls[e.id], HitCalls());
      TallyMoves(w.calls, e.id, w'.calls[e.id], MissCalls());
      TallyMoves(w.calls, e.id, w'.calls[e.id], StoredCalls());
      if e.step.Lookup? {
        var Routed(a, b) := w.calls[e.id];
        GetCounts(s.cfg, w.cache, a.request.prompt, ScopeOf(a, b), e.step.readings);
      }
    }
  }

  lemma {:induction false} RunIsCounted(s: Setup, events: seq<Event>)
    ensures Counted(RunSteps(s, START, events))
  {
    if events != [] {
      hide Next, Counted;
      RunIsCounted(s, events[..|events| - 1]);
      StepIsCounted(s, RunSteps(s, START, events[..|events| - 1]), events[|events| - 1]);
    }
  }

  ghost function Everyone(): Who { (_: string) => true }

  // Between the steps of a request: a hit not yet in the ledger, a miss that has
  // no record yet or never gets one, a reply not yet stored.
  ghost function HitsPending(): Call -> bool { (c: Call) => c.Found? }

  ghost function Unanswered(): Call -> bool { (c: Call) => c.Missed? || c.InCall? || c.Failed? || c.Returned? }

  ghost function StorePending(): Call -> bool { (c: Call) => c.Recorded? }

  // At every moment of every run the counters of the cache and the ledger differ
  // by exactly the calls that are on their way or failed.
  lemma BooksAgree(s: Setup, events: seq<Event>)
    ensures var w := RunSteps(s, START, events);
      && w.cache.hits == |Where(w.ledger, CachedOf(Everyone()))| + Tally(w.calls, HitsPending())
      && w.cache.misses == |Where(w.ledger, FreshOf(Everyone()))| + Tally(w.calls, Unanswered())
      && w.cache.nextId + Tally(w.calls, StorePending()) == |Where(w.ledger, FreshOf(Everyone()))|
  {
    RunIsCounted(s, events);
    LedgerListsAnsweredCalls(s, events, Everyone());
    var calls := RunSteps(s, START, events).calls;
    TallySplits(calls, HitCalls(), HitsPending(), ServedOf(Everyone()));
    TallySplits(calls, MissCalls(), Unanswered(), LoggedOf(Everyone()));
    TallySplits(calls, LoggedOf(Everyone()), StorePending(), StoredCalls());
  }

  ghost function FailedCalls(): Call -> bool { (c: Call) => c.Failed? }

  predicate Settled(w: World) {
    forall c | c in w.calls :: w.calls[c].Refused? || w.calls[c].Served? || w.calls[c].Failed? || w.calls[c].Answered?
  }

  // Once nothing is on its way, as after every request of a sequential run:
  // cached records are the hits, misses are the other records and the failed
  // calls, and every record that is not cached was stored.
  lemma BooksBalance(s: Setup, events: seq<Event>)
    requires Settled(RunSteps(s, START, events))
    ensures var w := RunSteps(s, START, events);
      && |Where(w.ledger, CachedOf(Everyone()))| == w.cache.hits
      && w.cache.misses == |Where(w.ledger, FreshOf(Everyone()))| + Tally(w.calls, FailedCalls())
      && w.cache.nextId == |Where(w.ledger, FreshOf(Everyone()))|
  {
    var calls := RunSteps(s, START, events).calls;
    BooksAgree(s, events);
    var none := (c: Call) => false;
    TallySplits(calls, HitsPending(), none, none);
    TallySplits(calls, StorePending(), none, none);
    TallySplits(calls, Unanswered(), FailedCalls(), none);
    assert Those(calls, none) == {};
  }

  // The ledger then has a record for every lookup exactly when no call failed.
  lemma EveryLookupRecordedIff(s: Setup, events: seq<Event>)
    requires Settled(RunSteps(s, START, events))
    ensures var w := RunSteps(s, START, events);
      |w.ledger| == w.cache.hits + w.cache.misses <==> forall c | c in w.calls :: !w.calls[c].Failed?
  {
    var w := RunSteps(s, START, events);
    BooksBalance(s, events);
    CachedOrFresh(w.ledger);
    var failed := Those(w.calls, FailedCalls());
    assert Tally(w.calls, FailedCalls()) == 0 <==> failed == {};
    assert forall c | c in w.calls :: c in failed <==> w.calls[c].Failed?;
  }

  lemma {:induction false} CachedOrFresh(rs: seq<CallRecord>)
    ensures |Where(rs, CachedOf(Everyone()))| + |Where(rs, FreshOf(Everyone()))| == |rs|
  {
    if rs != [] {
      var n := |rs| - 1;
      assert rs == rs[..n] + [rs[n]];
      CachedOrFresh(rs[..n]);
      WhereNext(rs[..n], rs[n], CachedOf(Everyone()));
      WhereNext(rs[..n], rs[n], FreshOf(Everyone()));
    }
  }

  // Answers from the cache cost nothing: the ledger's total is that of the calls
  // the backends answered.
  lemma OnlyFreshCallsCost(s: Setup, events: seq<Event>)
    ensures var ledger := RunSteps(s, START, events).ledger;
      var paid := Sum(Where(ledger, FreshOf(Everyone())));
      Sum(ledger).milliUsd == paid.milliUsd && Sum(ledger).tokens == paid.tokens && Sum(ledger).ms == paid.ms
  {
    LedgerListsAnsweredCalls(s, events, Everyone());
    CachedAddNothing(RunSteps(s, START, events).ledger);
  }

  lemma {:induction false} CachedAddNothing(rs: seq<CallRecord>)
    requires forall r | r in rs && r.cached :: OfRecord(r) == Totals(1, 1, 0, 0.0, 0)
    ensures var paid := Sum(Where(rs, FreshOf(Everyone())));
      Sum(rs).milliUsd == paid.milliUsd && Sum(rs).tokens == paid.tokens && Sum(rs).ms == paid.ms
  {
    if rs != [] {
      var n := |rs| - 1;
      assert rs == rs[..n] + [rs[n]];
      CachedAddNothing(rs[..n]);
      assert Sum(rs) == Add(Sum(rs[..n]), OfRecord(rs[n]));
      hide Sum, Where;
      WhereNext(rs[..n], rs[n], FreshOf(Everyone()));
    }
  }
}
