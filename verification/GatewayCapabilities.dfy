/** The capabilities a request asked for, and the backend its answer was made on.
    The cache scope names the model only, so the two can differ; this module says
    exactly on which pools, and under which settings. */
module GatewayCapabilities {
  import opened Wrappers
  import opened Router
  import opened CacheEmbedding
  import opened CacheModel
  import opened Client
  import opened GatewayRuns
  import opened Gateways
  import opened GatewaySequences

  // ----- the pools it can happen on -----

  // Two requests of one classification, routed to backends of one model, the
  // second asking for what the first one's backend does not have.
  predicate Clash(pool: seq<Backend>, r1: Request, b: Backend, r2: Request, d: Backend) {
    && r1.classification == r2.classification && b.model == d.model
    && IsChoice(r1, pool, b) && IsChoice(r2, pool, d)
    && !(r2.requiredCapabilities <= b.capabilities)
  }

  // The largest estimate that fits a context, with the headroom.
  function LargestEstimate(context: int): int {
    if context >= 0 then (10 * context + 9) / 13 else 10 * context / 13
  }

  // The most demanding request of a classification a backend can take.
  function Hardest(b: Backend, c: Classification, prompt: string): Request {
    Request(prompt, c, b.capabilities, b.ttftP95Ms, LargestEstimate(b.maxContext))
  }

  lemma HardestIsWeakest(r: Request, b: Backend, prompt: string)
    requires Eligible(r, b)
    ensures Eligible(Hardest(b, r.classification, prompt), b) && Weaker(r, Hardest(b, r.classification, prompt))
  {
  }

  // A backend that is the choice for some request is the choice for the hardest
  // one it can take.
  lemma ChosenForHardest(r: Request, pool: seq<Backend>, b: Backend, prompt: string)
    requires IsChoice(r, pool, b)
    ensures IsChoice(Hardest(b, r.classification, prompt), pool, b)
  {
    HardestIsWeakest(r, b, prompt);
    var h := Hardest(b, r.classification, prompt);
    assert forall x | Eligible(h, x) :: Eligible(r, x) by { HarderIsRarer(r, h); }
    hide Eligible, Hardest, Less;
  }

  lemma HarderIsRarer(w: Request, r: Request)
    requires Weaker(w, r)
    ensures forall b: Backend | Eligible(r, b) :: Eligible(w, b)
  {
  }

  // The condition, on the pool alone: for some classification, two backends of
  // one model are each the choice for the hardest request they can take, and the
  // second has a capability the first has not.
  predicate Divided(pool: seq<Backend>) {
    exists c, i, j :: 0 <= i < |pool| && 0 <= j < |pool| && DividedAt(pool, c, pool[i], pool[j])
  }

  predicate DividedAt(pool: seq<Backend>, c: Classification, b: Backend, d: Backend) {
    && b.model == d.model && !(d.capabilities <= b.capabilities)
    && IsChoice(Hardest(b, c, ""), pool, b) && IsChoice(Hardest(d, c, ""), pool, d)
  }

  lemma ClashDivides(pool: seq<Backend>, r1: Request, b: Backend, r2: Request, d: Backend)
    requires Clash(pool, r1, b, r2, d)
    ensures Divided(pool)
  {
    ChosenForHardest(r1, pool, b, "");
    ChosenForHardest(r2, pool, d, "");
    var i :| 0 <= i < |pool| && pool[i] == b;
    var j :| 0 <= j < |pool| && pool[j] == d;
    hide IsChoice, Hardest;
    assert r2.requiredCapabilities <= d.capabilities by { ChoiceIsCapable(r2, pool, d); }
    assert DividedAt(pool, r1.classification, pool[i], pool[j]);
  }

  lemma ChoiceIsCapable(r: Request, pool: seq<Backend>, d: Backend)
    requires IsChoice(r, pool, d)
    ensures r.requiredCapabilities <= d.capabilities
  {
  }

  // The router does not read the prompt.
  lemma PromptIsNotRead(pool: seq<Backend>, b: Backend, c: Classification, prompt: string, other: string)
    ensures IsChoice(Hardest(b, c, prompt), pool, b) ==> IsChoice(Hardest(b, c, other), pool, b)
  {
    if IsChoice(Hardest(b, c, prompt), pool, b) { ChosenForHardest(Hardest(b, c, prompt), pool, b, other); }
  }

  // ----- the settings it can happen under -----

  // The cache can answer at all: there is a salt, room for an entry, and a prompt
  // whose entry answers some prompt.
  ghost predicate CanHit(s: Setup) {
    s.saltKey != [] && s.cfg.maxEntries >= 1 && exists p, q :: CloseEnough(s.cfg, p, q)
  }

  // Entries are what their prompt makes of them, and without a key there are none.
  ghost predicate Plain(s: Setup, w: World) {
    && Sound(w.cache) && |w.cache.items| <= s.cfg.maxEntries
    && (forall x | x in w.cache.items ::
          s.saltKey != [] && x.entry.vector == s.cfg.embed(x.entry.prompt)
          && x.entry.numbers == s.cfg.numbersOf(x.entry.prompt))
    && (forall c | c in w.calls && (w.calls[c].Found? || w.calls[c].Served?) :: CanHit(s))
    && (forall c | c in w.calls && (w.calls[c].InCall? || w.calls[c].Returned? || w.calls[c].Recorded?) ::
          s.saltKey != [])
  }

  lemma HitIsClose(s: Setup, c: Cache, prompt: string, scope: Scope, readings: Readings)
    requires Sound(c) && |c.items| <= s.cfg.maxEntries
    requires forall x | x in c.items ::
               s.saltKey != [] && x.entry.vector == s.cfg.embed(x.entry.prompt)
               && x.entry.numbers == s.cfg.numbersOf(x.entry.prompt)
    ensures GetStep(s.cfg, c, prompt, scope, readings).1.Hit? ==> CanHit(s)
  {
    hide GetStep, Best, Live, Sound;
    var (c', out) := GetStep(s.cfg, c, prompt, scope, readings);
    GetMeans(s.cfg, c, prompt, scope, readings);
    if out.Hit? {
      var live := Live(s.cfg, c.items, scope, readings);
      assert out == Hit(out.id, out.response);
      var x :| IsBest(s.cfg, live, scope, s.cfg.embed(prompt), x) && x.id == out.id && x.entry.response == out.response
        && Score(s.cfg, s.cfg.embed(prompt), x) >= s.cfg.threshold && x.entry.numbers == s.cfg.numbersOf(prompt);
      LiveIsHeld(s.cfg, c, scope, readings, x);
      assert CloseEnough(s.cfg, x.entry.prompt, prompt);
    }
  }

  lemma LiveIsHeld(cfg: Config, c: Cache, scope: Scope, readings: Readings, x: Item)
    requires Sound(c) && x in Live(cfg, c.items, scope, readings)
    ensures x in c.items
  {
    LiveMeans(cfg, c.items, scope, readings);
  }

  lemma LookupIsPlain(s: Setup, w: World, id: nat, a: Arrival, b: Backend, readings: Readings)
    requires Plain(s, w)
    ensures Plain(s, LookedUp(s, w, id, a, b, readings))
  {
    hide GetStep, Sound, CanHit;
    HitIsClose(s, w.cache, a.request.prompt, ScopeOf(a, b), readings);
    GetMeans(s.cfg, w.cache, a.request.prompt, ScopeOf(a, b), readings);
    GetSize(s.cfg, w.cache, a.request.prompt, ScopeOf(a, b), readings);
  }

  lemma StoreIsPlain(s: Setup, c: Cache, prompt: string, text: string, scope: Scope, time: real)
    requires Sound(c) && |c.items| <= s.cfg.maxEntries && s.saltKey != []
    ensures var c' := PutStep(s.cfg, c, prompt, text, scope, time).0;
      && Sound(c') && |c'.items| <= s.cfg.maxEntries
      && forall x | x in c'.items :: x in c.items || x == NewItem(s.cfg, c.nextId, prompt, text, scope, time)
  {
  }

  lemma StepIsPlain(s: Setup, w: World, e: Event)
    requires Plain(s, w)
    ensures Plain(s, Next(s, w, e))
  {
    hide GetStep, PutStep, Sound, CanHit, Routes, FreshRecord, AfterEnter, AfterLeave, LookedUp;
    if e.id in w.calls && w.calls[e.id].Routed? && e.step.Lookup? {
      LookupIsPlain(s, w, e.id, w.calls[e.id].arrival, w.calls[e.id].backend, e.step.readings);
    } else if e.id in w.calls && w.calls[e.id].Recorded? && e.step.Store? {
      var Recorded(a, b, text) := w.calls[e.id];
      StoreIsPlain(s, w.cache, a.request.prompt, text, ScopeOf(a, b), e.step.time);
    }
  }

  predicate OnPool(events: seq<Event>, pool: seq<Backend>) {
    forall k | 0 <= k < |events| && events[k].step.Arrive? :: events[k].step.pool == pool
  }

  ghost predicate AllChosen(w: World, pool: seq<Backend>) {
    forall c | c in w.calls && !w.calls[c].Refused? :: IsChoice(w.calls[c].arrival.request, pool, w.calls[c].backend)
  }

  lemma StepIsChosen(s: Setup, w: World, e: Event, pool: seq<Backend>)
    requires AllChosen(w, pool) && (e.step.Arrive? ==> e.step.pool == pool)
    ensures AllChosen(Next(s, w, e), pool)
  {
    hide GetStep, PutStep, IsChoice, FreshRecord, AfterEnter, AfterLeave, SaltFor;
  }

  lemma {:induction false} RunIsPlain(s: Setup, events: seq<Event>, pool: seq<Backend>)
    requires OnPool(events, pool)
    ensures Plain(s, RunSteps(s, START, events)) && AllChosen(RunSteps(s, START, events), pool)
  {
    if events != [] {
      hide Next, Plain, AllChosen;
      var n := |events| - 1;
      RunIsPlain(s, events[..n], pool);
      StepIsPlain(s, RunSteps(s, START, events[..n]), events[n]);
      StepIsChosen(s, RunSteps(s, START, events[..n]), events[n], pool);
    }
  }

  // ----- when it holds -----

  // The backend a text was made on has what the request asked for.
  ghost predicate MadeCapable(s: Setup, events: seq<Event>, id: nat, maker: Backend) {
    var w := RunSteps(s, START, events);
    id in w.calls && MadeOn(s, w, w.calls[id], maker) ==>
      w.calls[id].arrival.request.requiredCapabilities <= maker.capabilities
  }

  ghost predicate AlwaysCapable(s: Setup, pool: seq<Backend>) {
    forall events, id, maker | OnPool(events, pool) :: MadeCapable(s, events, id, maker)
  }

  lemma CapableUnlessDivided(s: Setup, pool: seq<Backend>, events: seq<Event>, id: nat, maker: Backend)
    requires OnPool(events, pool) && !(CanHit(s) && Divided(pool))
    ensures MadeCapable(s, events, id, maker)
  {
    var w := RunSteps(s, START, events);
    RunIsPlain(s, events, pool);
    hide RunSteps, CanHit, Divided, IsChoice;
    if id in w.calls && MadeOn(s, w, w.calls[id], maker) {
      var c := w.calls[id];
      if maker == c.backend && !c.Refused? {
        ChoiceIsCapable(c.arrival.request, pool, maker);
      } else {
        var d :| d in w.calls && Source(s, c, w.calls[d]) && maker == w.calls[d].backend;
        if !(c.arrival.request.requiredCapabilities <= maker.capabilities) {
          ClashDivides(pool, w.calls[d].arrival.request, maker, c.arrival.request, c.backend);
        }
      }
    }
  }

  // The hardest request a backend can take, answered with an empty text.
  function HardestAsk(pool: seq<Backend>, c: Classification, b: Backend, prompt: string): Ask {
    Ask(Arrival(Hardest(b, c, prompt), "tenant", 0, 0.0), pool, Some(b), (k: nat) => 0.0,
        Some(Reply("", 0, 0, 0, None)), 0.0)
  }

  lemma DividedIsNotCapable(s: Setup, pool: seq<Backend>, c: Classification, b: Backend, d: Backend,
                              p: string, q: string)
    requires DividedAt(pool, c, b, d)
    requires s.saltKey != [] && s.cfg.maxEntries >= 1 && CloseEnough(s.cfg, p, q)
    ensures var asks := [HardestAsk(pool, c, b, p), HardestAsk(pool, c, d, q)];
      && HandleAll(s, asks).calls == map[0 := Answered(asks[0].arrival, b, ""), 1 := Served(asks[1].arrival, d, "")]
      && OnPool(Scripts(asks), pool) && HandleAll(s, asks) == RunSteps(s, START, Scripts(asks))
      && MadeOn(s, HandleAll(s, asks), HandleAll(s, asks).calls[1], b) && !MadeCapable(s, Scripts(asks), 1, b)
  {
    var first, second := HardestAsk(pool, c, b, p), HardestAsk(pool, c, d, q);
    var asks := [first, second];
    ScopeIgnoresBackend(s, first, second);
    PromptIsNotRead(pool, b, c, "", p);
    PromptIsNotRead(pool, d, c, "", q);
    assert Chosen(first.arrival, pool, first.chosen) && Chosen(second.arrival, pool, second.chosen);
    SequenceIsARun(s, asks);
    ScriptsOnPool(asks, pool);
    ServedFromFirst(s, HandleAll(s, asks), first.arrival, b, second.arrival, d);
    hide HandleAll, RunSteps, Scripts, CloseEnough, IsChoice, Chosen, MadeOn;
  }

  lemma ServedFromFirst(s: Setup, w: World, a: Arrival, b: Backend, a': Arrival, d: Backend)
    requires w.calls == map[0 := Answered(a, b, ""), 1 := Served(a', d, "")]
    requires ScopeOf(a, b) == ScopeOf(a', d) && CloseEnough(s.cfg, a.request.prompt, a'.request.prompt)
    ensures MadeOn(s, w, w.calls[1], b)
  {
    assert Source(s, w.calls[1], w.calls[0]);
  }

  lemma {:induction false} ScriptsOnPool(asks: seq<Ask>, pool: seq<Backend>)
    requires forall q | q in asks :: q.pool == pool
    ensures OnPool(Scripts(asks), pool)
  {
    if asks != [] { ScriptsOnPool(asks[..|asks| - 1], pool); }
  }

  // The exact condition: on a pool, every answer in every run was made on a
  // backend with the capabilities asked for, unless the cache can answer at all
  // and the pool is divided.
  lemma CapableIff(s: Setup, pool: seq<Backend>)
    ensures AlwaysCapable(s, pool) <==> !(CanHit(s) && Divided(pool))
  {
    if CanHit(s) && Divided(pool) {
      var c, i, j :| 0 <= i < |pool| && 0 <= j < |pool| && DividedAt(pool, c, pool[i], pool[j]);
      var p, q :| CloseEnough(s.cfg, p, q);
      DividedIsNotCapable(s, pool, c, pool[i], pool[j], p, q);
    } else {
      forall events, id, maker | OnPool(events, pool)
        ensures MadeCapable(s, events, id, maker)
      {
        CapableUnlessDivided(s, pool, events, id, maker);
      }
    }
  }

  // With the bag-of-words embedder and a threshold of at most one, the pool alone
  // decides.
  lemma CapableIffUndivided(s: Setup, pool: seq<Backend>, prompt: string)
    requires s.saltKey != [] && s.cfg.maxEntries >= 1 && s.cfg.threshold <= 1.0
    requires ComparesByCosine(s.cfg) && UnitBag(s.cfg.embed(prompt))
    ensures AlwaysCapable(s, pool) <==> !Divided(pool)
  {
    BagScores(s.cfg, s.cfg.embed(prompt), s.cfg.embed(prompt));
    assert CloseEnough(s.cfg, prompt, prompt);
    hide AlwaysCapable, Divided;
    CapableIff(s, pool);
  }

  const PLAIN := Backend("plain", "m", 4096, PUBLIC, 0, 100, {}, 0.0, false)
  const TOOLS := Backend("tools", "m", 4096, PUBLIC, 0, 100, {"tools"}, 0.0, false)

  // A pool it happens on: the second request needs tools and is served the text
  // the first one's backend made without them.
  lemma CapabilitiesAreNotChecked(s: Setup, p: string, q: string)
    requires s.saltKey != [] && s.cfg.maxEntries >= 1 && CloseEnough(s.cfg, p, q)
    ensures var asks := [HardestAsk([PLAIN, TOOLS], PUBLIC, PLAIN, p), HardestAsk([PLAIN, TOOLS], PUBLIC, TOOLS, q)];
      && HandleAll(s, asks).calls ==
         map[0 := Answered(asks[0].arrival, PLAIN, ""), 1 := Served(asks[1].arrival, TOOLS, "")]
      && "tools" in asks[1].arrival.request.requiredCapabilities && "tools" !in PLAIN.capabilities
      && MadeOn(s, HandleAll(s, asks), HandleAll(s, asks).calls[1], PLAIN)
  {
    PoolIsDivided();
    hide IsChoice, HandleAll, RunSteps, Scripts, Hardest, CloseEnough;
    var asks := [HardestAsk([PLAIN, TOOLS], PUBLIC, PLAIN, p), HardestAsk([PLAIN, TOOLS], PUBLIC, TOOLS, q)];
    DividedIsNotCapable(s, [PLAIN, TOOLS], PUBLIC, PLAIN, TOOLS, p, q);
    HardestNeeds(TOOLS, PUBLIC, q);
  }

  lemma HardestNeeds(b: Backend, c: Classification, prompt: string)
    ensures Hardest(b, c, prompt).requiredCapabilities == b.capabilities
  {
  }

  lemma PoolIsDivided()
    ensures DividedAt([PLAIN, TOOLS], PUBLIC, PLAIN, TOOLS)
  {
    var pool := [PLAIN, TOOLS];
    assert "tools" in TOOLS.capabilities;
    assert KeyOf(PLAIN) == KeyOf(TOOLS);
    assert pool[0] == PLAIN && Eligible(Hardest(PLAIN, PUBLIC, ""), PLAIN);
    assert pool[1] == TOOLS && Eligible(Hardest(TOOLS, PUBLIC, ""), TOOLS);
    assert !Eligible(Hardest(TOOLS, PUBLIC, ""), PLAIN);
  }
}
