/** The gateway: one request from the caller's tenant to the ledger. */
module Gateways {
  import opened Wrappers
  import opened Router
  import opened CacheModel
  import opened Client
  import opened GatewayRuns
  import opened SemanticCacheIndexes
  import PrefixSalt

  datatype Answer = Answer(text: string, backend: string, cached: bool, record: CallRecord)

  datatype Refusal =
    | NoTenant
    | NoEligibleBackend(rejected: map<string, Rejection>)
    | NoSalt
    | BackendFailed

  // One request's steps in their order; those that are not its turn do nothing.
  function Script(id: nat, a: Arrival, pool: seq<Backend>, chosen: Option<Backend>, readings: Readings,
                  outcome: Option<Reply>, time: real): seq<Event>
  {
    [Event(id, Arrive(a, pool, chosen)), Event(id, Lookup(readings)), Event(id, LogHit), Event(id, Enter),
     Event(id, Leave(outcome)), Event(id, LogReply), Event(id, Store(time))]
  }

  // What one request does when nothing else comes in between.
  function Handled(s: Setup, w: World, id: nat, a: Arrival, chosen: Option<Backend>,
                   readings: Readings, outcome: Option<Reply>, time: real): World
  {
    match chosen
    case None => w.(calls := w.calls[id := Refused(a)])
    case Some(b) =>
      var (cache, out) := GetStep(s.cfg, w.cache, a.request.prompt, ScopeOf(a, b), readings);
      if out.Hit? then
        World(cache, w.counts, w.ledger + [CachedRecord(a, b)], w.calls[id := Served(a, b, out.response)])
      else if SaltFor(s, a).Err? then World(cache, w.counts, w.ledger, w.calls[id := Failed(a, b)])
      else
        var n := CountOf(w.counts, b.name) + 1;
        var counts := AfterLeave(AfterEnter(w.counts, b.name), b.name);
        match outcome
        case None => World(cache, counts, w.ledger, w.calls[id := Failed(a, b)])
        case Some(reply) =>
          World(PutStep(s.cfg, cache, a.request.prompt, reply.text, ScopeOf(a, b), time).0, counts,
                w.ledger + [FreshRecord(b, reply, n, n, a.tenant)], w.calls[id := Answered(a, b, reply.text)])
  }

  predicate Chosen(a: Arrival, pool: seq<Backend>, chosen: Option<Backend>) {
    if a.tenant == "" then chosen.None? else Routes(a.request, pool, chosen)
  }

  // The world after each step of the script.
  function Scripted(s: Setup, w: World, es: seq<Event>, n: nat): World
    requires n <= |es|
  {
    if n == 0 then w else Next(s, Scripted(s, w, es, n - 1), es[n - 1])
  }

  lemma {:induction false} ScriptedIsRun(s: Setup, w: World, es: seq<Event>, n: nat)
    requires n <= |es|
    ensures Scripted(s, w, es, n) == RunSteps(s, w, es[..n])
  {
    if n > 0 {
      ScriptedIsRun(s, w, es, n - 1);
      assert es[..n][..n - 1] == es[..n - 1];
    }
  }

  predicate Finished(c: Call) { c.Refused? || c.Served? || c.Failed? || c.Answered? }

  // A finished call has no further steps.
  lemma {:induction false} FinishedStays(s: Setup, w: World, es: seq<Event>, id: nat, n: nat, m: nat)
    requires 0 < n <= m <= |es| && (forall k | n <= k < m :: es[k].id == id)
    requires var v := Scripted(s, w, es, n); id in v.calls && Finished(v.calls[id])
    ensures Scripted(s, w, es, m) == Scripted(s, w, es, n)
  {
    if n < m {
      FinishedStays(s, w, es, id, n, m - 1);
      FinishedStep(s, Scripted(s, w, es, n), es[m - 1]);
      hide Next, Finished;
    }
  }

  lemma FinishedStep(s: Setup, w: World, e: Event)
    requires e.id in w.calls && Finished(w.calls[e.id])
    ensures Next(s, w, e) == w
  {
    hide Admit, LookedUp, Entered, Left;
  }

  // It is the run of the request's steps, in order, without interruption; so a
  // run of whole requests is a run of steps, and all that is proved of those
  // holds of it.
  lemma HandledIsARun(s: Setup, w: World, id: nat, a: Arrival, pool: seq<Backend>, chosen: Option<Backend>,
                      readings: Readings, outcome: Option<Reply>, time: real)
    requires id !in w.calls && Chosen(a, pool, chosen)
    ensures RunSteps(s, w, Script(id, a, pool, chosen, readings, outcome, time))
            == Handled(s, w, id, a, chosen, readings, outcome, time)
  {
    var es := Script(id, a, pool, chosen, readings, outcome, time);
    ScriptedIsRun(s, w, es, 7);
    assert es[..7] == es;
    UpToLookup(s, w, es, id, a, pool, chosen, readings);
    hide Scripted, RunSteps, Chosen, GetStep, PutStep, SaltFor, AfterEnter, AfterLeave, FreshRecord, CachedRecord, Next;
    if chosen.None? {
      FinishedStays(s, w, es, id, 1, 7);
    } else {
      var b := chosen.value;
      var (cache, out) := GetStep(s.cfg, w.cache, a.request.prompt, ScopeOf(a, b), readings);
      if out.Hit? {
        FinishedStays(s, w, es, id, 3, 7);
      } else {
        MissedToTheEnd(s, w, es, id, a, b, cache, outcome, time);
      }
    }
  }

  lemma UpToLookup(s: Setup, w: World, es: seq<Event>, id: nat, a: Arrival, pool: seq<Backend>, chosen: Option<Backend>,
                   readings: Readings)
    requires id !in w.calls && Chosen(a, pool, chosen)
    requires |es| >= 3
    requires es[..3] == [Event(id, Arrive(a, pool, chosen)), Event(id, Lookup(readings)), Event(id, LogHit)]
    ensures chosen.None? ==> Scripted(s, w, es, 1) == w.(calls := w.calls[id := Refused(a)])
    ensures chosen.Some? ==>
              var b := chosen.value;
              var (cache, out) := GetStep(s.cfg, w.cache, a.request.prompt, ScopeOf(a, b), readings);
              Scripted(s, w, es, 3) ==
              if out.Hit? then
                World(cache, w.counts, w.ledger + [CachedRecord(a, b)], w.calls[id := Served(a, b, out.response)])
              else World(cache, w.counts, w.ledger, w.calls[id := Missed(a, b)])
  {
    assert Scripted(s, w, es, 0) == w;
    ScriptedNext(s, w, es, 0);
    ScriptedNext(s, w, es, 1);
    ScriptedNext(s, w, es, 2);
    hide Scripted, GetStep, CachedRecord;
    assert es[0] == es[..3][0] && es[1] == es[..3][1] && es[2] == es[..3][2];
    Arrives(s, w, id, a, pool, chosen);
    hide Next, Chosen;
    if chosen.Some? {
      NextSteps(s, Scripted(s, w, es, 1), id);
      NextSteps(s, Scripted(s, w, es, 2), id);
    }
  }

  lemma Arrives(s: Setup, w: World, id: nat, a: Arrival, pool: seq<Backend>, chosen: Option<Backend>)
    requires id !in w.calls && Chosen(a, pool, chosen)
    ensures Next(s, w, Event(id, Arrive(a, pool, chosen))) ==
            w.(calls := w.calls[id := match chosen case None => Refused(a) case Some(b) => Routed(a, b)])
  {
    hide Routes;
  }

  lemma ScriptedNext(s: Setup, w: World, es: seq<Event>, n: nat)
    requires n < |es|
    ensures Scripted(s, w, es, n + 1) == Next(s, Scripted(s, w, es, n), es[n])
  {
  }

  lemma MissedToTheEnd(s: Setup, w: World, es: seq<Event>, id: nat, a: Arrival, b: Backend, cache: Cache,
                       outcome: Option<Reply>, time: real)
    requires |es| == 7
    requires es[3..] == [Event(id, Enter), Event(id, Leave(outcome)), Event(id, LogReply), Event(id, Store(time))]
    requires Scripted(s, w, es, 3) == World(cache, w.counts, w.ledger, w.calls[id := Missed(a, b)])
    ensures Scripted(s, w, es, 7) ==
      if SaltFor(s, a).Err? then World(cache, w.counts, w.ledger, w.calls[id := Failed(a, b)])
      else
        var n := CountOf(w.counts, b.name) + 1;
        var counts := AfterLeave(AfterEnter(w.counts, b.name), b.name);
        match outcome
        case None => World(cache, counts, w.ledger, w.calls[id := Failed(a, b)])
        case Some(reply) =>
          World(PutStep(s.cfg, cache, a.request.prompt, reply.text, ScopeOf(a, b), time).0, counts,
                w.ledger + [FreshRecord(b, reply, n, n, a.tenant)], w.calls[id := Answered(a, b, reply.text)])
  {
    hide Scripted, Next, GetStep, PutStep, SaltFor, FreshRecord, AfterLeave;
    NextSteps(s, Scripted(s, w, es, 3), id);
    var n := CountOf(w.counts, b.name) + 1;
    var up := AfterEnter(w.counts, b.name);
    NextSteps(s, Scripted(s, w, es, 3), id);
    assert es[3] == es[3..][0] && es[4] == es[3..][1] && es[5] == es[3..][2] && es[6] == es[3..][3];
    ScriptedNext(s, w, es, 3);
    if SaltFor(s, a).Err? {
      FinishedStays(s, w, es, id, 4, 7);
    } else {
      var salt := if b.prefixCacheSalt then Some(SaltFor(s, a).value) else None;
      InCallToTheEnd(s, w, es, id, a, b, cache, outcome, time, up, salt, n);
    }
  }

  lemma InCallToTheEnd(s: Setup, w: World, es: seq<Event>, id: nat, a: Arrival, b: Backend, cache: Cache,
                       outcome: Option<Reply>, time: real, up: Counts, salt: Option<string>, n: int)
    requires |es| == 7 && n == CountOf(up, b.name)
    requires es[4] == Event(id, Leave(outcome)) && es[5] == Event(id, LogReply) && es[6] == Event(id, Store(time))
    requires Scripted(s, w, es, 4) == World(cache, up, w.ledger, w.calls[id := InCall(a, b, salt, n)])
    ensures Scripted(s, w, es, 7) ==
      match outcome
      case None => World(cache, AfterLeave(up, b.name), w.ledger, w.calls[id := Failed(a, b)])
      case Some(reply) =>
        World(PutStep(s.cfg, cache, a.request.prompt, reply.text, ScopeOf(a, b), time).0, AfterLeave(up, b.name),
              w.ledger + [FreshRecord(b, reply, n, n, a.tenant)], w.calls[id := Answered(a, b, reply.text)])
  {
    hide Scripted, Next, GetStep, PutStep, FreshRecord, AfterLeave;
    NextSteps(s, Scripted(s, w, es, 4), id);
    ScriptedNext(s, w, es, 4);
    match outcome
    case None => FinishedStays(s, w, es, id, 5, 7);
    case Some(reply) => ReturnedToTheEnd(s, w, es, id, a, b, cache, reply, n, AfterLeave(up, b.name), time);
  }

  lemma ReturnedToTheEnd(s: Setup, w: World, es: seq<Event>, id: nat, a: Arrival, b: Backend, cache: Cache,
                         reply: Reply, n: int, counts: Counts, time: real)
    requires |es| == 7 && es[5] == Event(id, LogReply) && es[6] == Event(id, Store(time))
    requires Scripted(s, w, es, 5) ==
             World(cache, counts, w.ledger, w.calls[id := Returned(a, b, reply.text, FreshRecord(b, reply, n, n, ""))])
    ensures Scripted(s, w, es, 7) ==
            World(PutStep(s.cfg, cache, a.request.prompt, reply.text, ScopeOf(a, b), time).0, counts,
                  w.ledger + [FreshRecord(b, reply, n, n, a.tenant)], w.calls[id := Answered(a, b, reply.text)])
  {
    hide Scripted, PutStep, Charge, Concurrency;
    ScriptedNext(s, w, es, 5);
    ScriptedNext(s, w, es, 6);
    assert Scripted(s, w, es, 6) == World(cache, counts, w.ledger + [FreshRecord(b, reply, n, n, a.tenant)],
                                          w.calls[id := Recorded(a, b, reply.text)]);
  }

  class Gateway {
    const backends: seq<Backend>
    const hmac: (seq<PrefixSalt.Byte>, string) -> seq<PrefixSalt.Byte>
    const saltKey: seq<PrefixSalt.Byte>
    const cache: SemanticCache
    const ledger: Ledger
    const inFlight: InFlight

    constructor (backends: seq<Backend>, hmac: (seq<PrefixSalt.Byte>, string) -> seq<PrefixSalt.Byte>,
                 saltKey: seq<PrefixSalt.Byte>, cache: SemanticCache, ledger: Ledger, inFlight: InFlight)
      ensures this.backends == backends && this.hmac == hmac && this.saltKey == saltKey
      ensures this.cache == cache && this.ledger == ledger && this.inFlight == inFlight
    {
      this.backends, this.hmac, this.saltKey := backends, hmac, saltKey;
      this.cache, this.ledger, this.inFlight := cache, ledger, inFlight;
    }

    ghost function TheSetup(): Setup { Setup(cache.cfg, hmac, saltKey) }

    // The parts the gateway keeps, beside the calls that came before.
    ghost function Books(calls: Calls): World
      reads cache, ledger, inFlight
      requires cache.Valid()
    {
      World(cache.View(), inFlight.counts, ledger.records, calls)
    }

    // The clock readings, the network's outcome and the time of storing are given.
    method Handle(req: Request, tenant: string, maxTokens: int, temperature: real,
                  readings: Readings, outcome: Option<Reply>, time: real, ghost id: nat, ghost calls: Calls)
      returns (r: Result<Answer, Refusal>, ghost chosen: Option<Backend>)
      requires cache.Valid() && id !in calls
      modifies cache, ledger, inFlight
      ensures cache.Valid()
      ensures Chosen(Arrival(req, tenant, maxTokens, temperature), backends, chosen)
      ensures var w := Handled(TheSetup(), old(Books(calls)), id, Arrival(req, tenant, maxTokens, temperature),
                               chosen, readings, outcome, time);
        && cache.View() == w.cache && inFlight.counts == w.counts && ledger.records == w.ledger
        && id in w.calls && Reported(w.calls[id], r)
      ensures r.Ok? ==> ledger.records == old(ledger.records) + [r.value.record] && r.value.record.tenant == tenant
      ensures r.Err? ==> ledger.records == old(ledger.records)
      ensures r.Err? && (r.error.NoTenant? || r.error.NoEligibleBackend?) ==>
                cache.View() == old(cache.View()) && inFlight.counts == old(inFlight.counts)
    {
      hide GetStep, PutStep, IsChoice, Eligible, Agree, Flat, AfterEnter, AfterLeave, Charge, Concurrency;
      hide Explains, PrefixSalt.Salt;
      if tenant == "" {
        return Err(NoTenant), None;
      }
      var decision := Route(req, backends);
      if decision.Err? {
        return Err(NoEligibleBackend(decision.error)), None;
      }
      var b := decision.value.backend;
      chosen := Some(b);
      var scope := CacheScope(req.classification, b.model, temperature, maxTokens, "", tenant);
      var hit := cache.Get(req.prompt, scope, readings);
      if hit.Some? {
        var rec := CallRecord(b.name, b.model, 0, 0, 0, None, 0.0, 1.0, true, tenant);
        ledger.Append(rec);
        return Ok(Answer(hit.value, b.name, true, rec)), chosen;
      }
      var salt := PrefixSalt.Salt(hmac, saltKey, req.classification, tenant);
      if salt.Err? {
        return Err(NoSalt), chosen;
      }
      var reply := Complete(inFlight, b, outcome);
      if reply.None? {
        return Err(BackendFailed), chosen;
      }
      var (text, rec) := reply.value;
      rec := rec.(tenant := tenant);
      ledger.Append(rec);
      cache.Put(req.prompt, text, scope, time);
      return Ok(Answer(text, b.name, false, rec)), chosen;
    }
  }

  // What the caller is told about a finished call.
  predicate Reported(c: Call, r: Result<Answer, Refusal>) {
    match r
    case Ok(answer) =>
      && answer.cached == c.Served? && !answer.cached == c.Answered?
      && answer.text == c.text && answer.backend == c.backend.name
    case Err(NoTenant) => c.Refused? && c.arrival.tenant == ""
    case Err(NoEligibleBackend(_)) => c.Refused? && c.arrival.tenant != ""
    case Err(_) => c.Failed?
  }
}
