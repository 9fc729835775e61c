/** Requests going through the gateway, any number at once: every operation on the
    cache, the in-flight counts and the ledger is one step, and the steps of
    different requests interleave freely. */
module GatewayRuns {
  import opened Wrappers
  import opened Router
  import opened CacheModel
  import opened Client
  import PrefixSalt

  datatype Arrival = Arrival(request: Request, tenant: string, maxTokens: int, temperature: real)

  // Everything but the prompt that decides the answer; the gateway sends no
  // system prompt of its own.
  function ScopeOf(a: Arrival, b: Backend): Scope {
    CacheScope(a.request.classification, b.model, a.temperature, a.maxTokens, "", a.tenant)
  }

  // How far a request has come.
  datatype Call =
    | Refused(arrival: Arrival)
    | Routed(arrival: Arrival, backend: Backend)
    | Found(arrival: Arrival, backend: Backend, text: string)
    | Served(arrival: Arrival, backend: Backend, text: string)
    | Missed(arrival: Arrival, backend: Backend)
    | InCall(arrival: Arrival, backend: Backend, salt: Option<string>, startedWith: int)
    | Failed(arrival: Arrival, backend: Backend)
    | Returned(arrival: Arrival, backend: Backend, text: string, record: CallRecord)
    | Recorded(arrival: Arrival, backend: Backend, text: string)
    | Answered(arrival: Arrival, backend: Backend, text: string)

  datatype Setup = Setup(
    cfg: Config,
    hmac: (seq<PrefixSalt.Byte>, string) -> seq<PrefixSalt.Byte>,
    saltKey: seq<PrefixSalt.Byte>)

  type Calls = map<nat, Call>

  datatype World = World(cache: Cache, counts: Counts, ledger: seq<CallRecord>, calls: Calls)

  const START := World(EMPTY_CACHE, map[], [], map[])

  datatype Step =
    | Arrive(arrival: Arrival, pool: seq<Backend>, chosen: Option<Backend>)
    | Lookup(readings: Readings)
    | LogHit
    | Enter
    | Leave(outcome: Option<Reply>)
    | LogReply
    | Store(time: real)

  datatype Event = Event(id: nat, step: Step)

  // The router's choice from the pool, or none when nobody is eligible.
  predicate Routes(r: Request, pool: seq<Backend>, chosen: Option<Backend>) {
    match chosen
    case Some(b) => IsChoice(r, pool, b)
    case None => forall b | b in pool :: !Eligible(r, b)
  }

  function SaltFor(s: Setup, a: Arrival): Result<string, PrefixSalt.SaltError> {
    PrefixSalt.Salt(s.hmac, s.saltKey, a.request.classification, a.tenant)
  }

  function CachedRecord(a: Arrival, b: Backend): CallRecord {
    CallRecord(b.name, b.model, 0, 0, 0, None, 0.0, 1.0, true, a.tenant)
  }

  // One step of a request; a step whose turn it is not changes nothing.
  function Next(s: Setup, w: World, e: Event): World {
    if e.step.Arrive? then
      if e.id in w.calls then w else Admit(w, e.id, e.step.arrival, e.step.pool, e.step.chosen)
    else if e.id !in w.calls then w
    else
      match (w.calls[e.id], e.step)
      case (Routed(a, b), Lookup(readings)) => LookedUp(s, w, e.id, a, b, readings)
      case (Found(a, b, text), LogHit) =>
        w.(ledger := w.ledger + [CachedRecord(a, b)], calls := w.calls[e.id := Served(a, b, text)])
      case (Missed(a, b), Enter) => Entered(s, w, e.id, a, b)
      case (InCall(a, b, _, n), Leave(outcome)) => Left(w, e.id, a, b, n, outcome)
      case (Returned(a, b, text, record), LogReply) =>
        w.(ledger := w.ledger + [record.(tenant := a.tenant)], calls := w.calls[e.id := Recorded(a, b, text)])
      case (Recorded(a, b, text), Store(time)) =>
        w.(cache := PutStep(s.cfg, w.cache, a.request.prompt, text, ScopeOf(a, b), time).0,
           calls := w.calls[e.id := Answered(a, b, text)])
      case _ => w
  }

  function Admit(w: World, id: nat, a: Arrival, pool: seq<Backend>, chosen: Option<Backend>): World {
    if a.tenant == "" then w.(calls := w.calls[id := Refused(a)])
    else if !Routes(a.request, pool, chosen) then w
    else
      match chosen
      case None => w.(calls := w.calls[id := Refused(a)])
      case Some(b) => w.(calls := w.calls[id := Routed(a, b)])
  }

  function LookedUp(s: Setup, w: World, id: nat, a: Arrival, b: Backend, readings: Readings): World {
    var (cache, out) := GetStep(s.cfg, w.cache, a.request.prompt, ScopeOf(a, b), readings);
    w.(cache := cache, calls := w.calls[id := if out.Hit? then Found(a, b, out.response) else Missed(a, b)])
  }

  // The salt is made before the call and fails without a key.
  function Entered(s: Setup, w: World, id: nat, a: Arrival, b: Backend): World {
    match SaltFor(s, a)
    case Err(_) => w.(calls := w.calls[id := Failed(a, b)])
    case Ok(salt) =>
      var counts := AfterEnter(w.counts, b.name);
      var sent := if b.prefixCacheSalt then Some(salt) else None;
      w.(counts := counts, calls := w.calls[id := InCall(a, b, sent, CountOf(counts, b.name))])
  }

  function Left(w: World, id: nat, a: Arrival, b: Backend, startedWith: int, outcome: Option<Reply>): World {
    var next := match outcome
      case None => Failed(a, b)
      case Some(reply) =>
        Returned(a, b, reply.text, FreshRecord(b, reply, startedWith, CountOf(w.counts, b.name), ""));
    w.(counts := AfterLeave(w.counts, b.name), calls := w.calls[id := next])
  }

  function RunSteps(s: Setup, w: World, events: seq<Event>): World {
    if events == [] then w
    else Next(s, RunSteps(s, w, events[..|events| - 1]), events[|events| - 1])
  }

  function After(s: Setup, events: seq<Event>, n: nat): World
    requires n <= |events|
  {
    RunSteps(s, START, events[..n])
  }

  lemma AfterNext(s: Setup, events: seq<Event>, n: nat)
    requires n < |events|
    ensures After(s, events, n + 1) == Next(s, After(s, events, n), events[n])
  {
    assert events[..n + 1][..n] == events[..n];
  }

  // The steps whose turn it is.
  lemma NextSteps(s: Setup, w: World, id: nat)
    requires id in w.calls
    ensures w.calls[id].Routed? ==>
              forall r ::
                Next(s, w, Event(id, Lookup(r))) == LookedUp(s, w, id, w.calls[id].arrival, w.calls[id].backend, r)
    ensures w.calls[id].Found? ==>
              var Found(a, b, text) := w.calls[id];
              Next(s, w, Event(id, LogHit)) ==
              w.(ledger := w.ledger + [CachedRecord(a, b)], calls := w.calls[id := Served(a, b, text)])
    ensures !w.calls[id].Found? ==> Next(s, w, Event(id, LogHit)) == w
    ensures w.calls[id].Missed? ==>
              Next(s, w, Event(id, Enter)) == Entered(s, w, id, w.calls[id].arrival, w.calls[id].backend)
    ensures w.calls[id].InCall? ==>
              forall o ::
                Next(s, w, Event(id, Leave(o)))
                == Left(w, id, w.calls[id].arrival, w.calls[id].backend, w.calls[id].startedWith, o)
  {
    hide LookedUp, Entered, Left;
  }

  // ----- where an answer came from -----

  // Another call that asked the backend and stored this text: the same tenant,
  // classification, model, settings and numerals.
  predicate Source(s: Setup, c: Call, d: Call) {
    && (c.Found? || c.Served?) && d.Answered?
    && d.text == c.text
    && d.arrival.tenant == c.arrival.tenant
    && d.arrival.request.classification == c.arrival.request.classification
    && d.backend.model == c.backend.model
    && d.arrival.temperature == c.arrival.temperature
    && d.arrival.maxTokens == c.arrival.maxTokens
    && s.cfg.numbersOf(d.arrival.request.prompt) == s.cfg.numbersOf(c.arrival.request.prompt)
  }

  predicate Allowed(c: Call) {
    c.Refused? || (c.arrival.tenant != "" && Eligible(c.arrival.request, c.backend))
  }

  predicate StoredBy(s: Setup, x: Item, d: Call) {
    && d.Answered? && d.text == x.entry.response
    && ScopeOf(d.arrival, d.backend) == x.scope
    && s.cfg.numbersOf(d.arrival.request.prompt) == x.entry.numbers
  }

  predicate HasStorer(s: Setup, calls: Calls, x: Item) {
    exists d :: d in calls && StoredBy(s, x, calls[d])
  }

  predicate HasSource(s: Setup, calls: Calls, c: Call) {
    exists d :: d in calls && Source(s, c, calls[d])
  }

  predicate Honest(s: Setup, w: World) {
    && Sound(w.cache)
    && (forall x | x in w.cache.items :: HasStorer(s, w.calls, x))
    && (forall c | c in w.calls :: Allowed(w.calls[c]))
    && (forall c | c in w.calls && (w.calls[c].Found? || w.calls[c].Served?) :: HasSource(s, w.calls, w.calls[c]))
  }

  // A request that moves on leaves sources where they are, since only finished
  // requests are sources.
  lemma SourcesStay(s: Setup, calls: Calls, id: nat, next: Call)
    requires id in calls ==> !calls[id].Answered?
    ensures forall x | HasStorer(s, calls, x) :: HasStorer(s, calls[id := next], x)
    ensures forall c | HasSource(s, calls, c) :: HasSource(s, calls[id := next], c)
  {
    var calls' := calls[id := next];
    forall x | HasStorer(s, calls, x)
      ensures HasStorer(s, calls', x)
    {
      var d :| d in calls && StoredBy(s, x, calls[d]);
      assert d in calls' && StoredBy(s, x, calls'[d]);
    }
    forall c | HasSource(s, calls, c)
      ensures HasSource(s, calls', c)
    {
      var d :| d in calls && Source(s, c, calls[d]);
      assert d in calls' && Source(s, c, calls'[d]);
    }
  }

  // A lookup answers with what some finished call stored.
  lemma LookupHasSource(s: Setup, w: World, id: nat, a: Arrival, b: Backend, readings: Readings)
    requires Honest(s, w) && id in w.calls && w.calls[id] == Routed(a, b)
    ensures var w' := LookedUp(s, w, id, a, b, readings);
      && Honest(s, w')
      && (w'.calls[id].Found? ==> HasSource(s, w.calls, w'.calls[id]))
  {
    hide GetStep, HasStorer, HasSource, Sound;
    var scope := ScopeOf(a, b);
    var (cache, out) := GetStep(s.cfg, w.cache, a.request.prompt, scope, readings);
    GetMeans(s.cfg, w.cache, a.request.prompt, scope, readings);
    if out.Hit? {
      HitIsStored(s, w, a.request.prompt, scope, readings);
      SourceOfItem(s, w, Found(a, b, out.response));
    }
    SourcesStay(s, w.calls, id, if out.Hit? then Found(a, b, out.response) else Missed(a, b));
  }

  lemma HitIsStored(s: Setup, w: World, prompt: string, scope: Scope, readings: Readings)
    requires Honest(s, w)
    ensures var out := GetStep(s.cfg, w.cache, prompt, scope, readings).1;
      out.Hit? ==>
        exists x :: (x in w.cache.items && x.scope == scope && x.entry.response == out.response
                     && x.entry.numbers == s.cfg.numbersOf(prompt))
  {
    hide GetStep, Best, Live;
    var (cache, out) := GetStep(s.cfg, w.cache, prompt, scope, readings);
    GetMeans(s.cfg, w.cache, prompt, scope, readings);
    if out.Hit? {
      var live := Live(s.cfg, w.cache.items, scope, readings);
      assert out == Hit(out.id, out.response);
      var x :| IsBest(s.cfg, live, scope, s.cfg.embed(prompt), x) && x.id == out.id && x.entry.response == out.response
        && Score(s.cfg, s.cfg.embed(prompt), x) >= s.cfg.threshold && x.entry.numbers == s.cfg.numbersOf(prompt);
      LiveMeans(s.cfg, w.cache.items, scope, readings);
    }
  }

  lemma SourceOfItem(s: Setup, w: World, c: Call)
    requires Honest(s, w) && c.Found?
    requires exists x :: x in w.cache.items && x.scope == ScopeOf(c.arrival, c.backend) && x.entry.response == c.text
               && x.entry.numbers == s.cfg.numbersOf(c.arrival.request.prompt)
    ensures HasSource(s, w.calls, c)
  {
  }

  // The step in which a call stores its text makes it a source.
  lemma StoreIsHonest(s: Setup, w: World, id: nat, a: Arrival, b: Backend, text: string, time: real)
    requires Honest(s, w) && id in w.calls && w.calls[id] == Recorded(a, b, text)
    ensures Honest(s, Next(s, w, Event(id, Store(time))))
  {
    hide HasStorer, HasSource;
    var w' := Next(s, w, Event(id, Store(time)));
    SourcesStay(s, w.calls, id, Answered(a, b, text));
    var x := NewItem(s.cfg, w.cache.nextId, a.request.prompt, text, ScopeOf(a, b), time);
    NewIsStored(s, w'.calls, id, x);
    assert forall y | y in w'.cache.items :: y in w.cache.items || y == x;
  }

  lemma NewIsStored(s: Setup, calls: Calls, id: nat, x: Item)
    requires id in calls && StoredBy(s, x, calls[id])
    ensures HasStorer(s, calls, x)
  {
  }

  lemma ServedKeepsSource(s: Setup, calls: Calls, a: Arrival, b: Backend, text: string)
    ensures HasSource(s, calls, Found(a, b, text)) ==> HasSource(s, calls, Served(a, b, text))
  {
  }

  lemma StepIsHonest(s: Setup, w: World, e: Event)
    requires Honest(s, w)
    ensures Honest(s, Next(s, w, e))
  {
    hide HasStorer, HasSource, GetStep, PutStep, Sound, IsChoice, Eligible, FreshRecord, SaltFor;
    var w' := Next(s, w, e);
    if w' == w {
    } else if e.step.Lookup? {
      LookupHasSource(s, w, e.id, w.calls[e.id].arrival, w.calls[e.id].backend, e.step.readings);
    } else if e.step.Store? {
      var Recorded(a, b, text) := w.calls[e.id];
      StoreIsHonest(s, w, e.id, a, b, text, e.step.time);
    } else {
      SourcesStay(s, w.calls, e.id, w'.calls[e.id]);
      if e.step.Arrive? { ChoiceIsEligible(e.step.arrival.request, e.step.pool, e.step.chosen); }
      if e.step.LogHit? {
        var Found(a, b, text) := w.calls[e.id];
        ServedKeepsSource(s, w.calls, a, b, text);
      }
    }
  }

  lemma ChoiceIsEligible(r: Request, pool: seq<Backend>, chosen: Option<Backend>)
    ensures Routes(r, pool, chosen) && chosen.Some? ==> Eligible(r, chosen.value)
  {
  }

  lemma {:induction false} RunIsHonest(s: Setup, events: seq<Event>)
    ensures Honest(s, RunSteps(s, START, events))
  {
    hide Next, Honest;
    if events == [] {
      StartIsHonest(s);
    } else {
      RunIsHonest(s, events[..|events| - 1]);
      StepIsHonest(s, RunSteps(s, START, events[..|events| - 1]), events[|events| - 1]);
    }
  }

  lemma StartIsHonest(s: Setup)
    ensures Honest(s, START)
  {
  }

  // In every run: when a lookup finds an answer, a call that had finished before
  // that lookup had got the text from its backend, for the same tenant,
  // classification, model, settings and numerals.
  lemma CachedTextHasEarlierSource(s: Setup, events: seq<Event>, n: nat)
    requires n < |events| && events[n].step.Lookup?
    ensures var id, w, w' := events[n].id, After(s, events, n), After(s, events, n + 1);
      id in w.calls && w.calls[id].Routed? && id in w'.calls && w'.calls[id].Found? ==>
        HasSource(s, w.calls, w'.calls[id])
  {
    hide Honest, HasSource, GetStep;
    var id, w := events[n].id, After(s, events, n);
    AfterNext(s, events, n);
    RunIsHonest(s, events[..n]);
    if id in w.calls && w.calls[id].Routed? {
      LookupHasSource(s, w, id, w.calls[id].arrival, w.calls[id].backend, events[n].step.readings);
    }
  }

  // The backend a text was made on: the call's own, or that of a source.
  predicate MadeOn(s: Setup, w: World, c: Call, maker: Backend) {
    || ((c.Returned? || c.Recorded? || c.Answered?) && maker == c.backend)
    || exists d :: d in w.calls && Source(s, c, w.calls[d]) && maker == w.calls[d].backend
  }

  // Every text the gateway has in hand, cached or fresh, was made on a backend
  // whose ceiling admits the request's classification, by its model: a RESTRICTED
  // request only has makers with ceiling RESTRICTED, an INTERNAL one none with
  // ceiling PUBLIC.
  lemma EveryTextWasAllowed(s: Setup, events: seq<Event>, id: nat)
    requires var w := RunSteps(s, START, events);
      id in w.calls && (w.calls[id].Found? || w.calls[id].Served? || w.calls[id].Returned?
                        || w.calls[id].Recorded? || w.calls[id].Answered?)
    ensures var w := RunSteps(s, START, events);
      var c := w.calls[id];
      && (exists maker :: MadeOn(s, w, c, maker))
      && forall maker | MadeOn(s, w, c, maker) ::
           && (c.arrival.request.classification == RESTRICTED ==> maker.maxClassification == RESTRICTED)
           && (c.arrival.request.classification == INTERNAL ==> maker.maxClassification != PUBLIC)
           && maker.model == c.backend.model
  {
    RunIsHonest(s, events);
    var w := RunSteps(s, START, events);
    var c := w.calls[id];
    hide RunSteps;
    if c.Found? || c.Served? {
      assert HasSource(s, w.calls, c);
      var d :| d in w.calls && Source(s, c, w.calls[d]);
      assert MadeOn(s, w, c, w.calls[d].backend);
    } else {
      assert MadeOn(s, w, c, c.backend);
    }
    forall maker | MadeOn(s, w, c, maker)
      ensures c.arrival.request.classification == RESTRICTED ==> maker.maxClassification == RESTRICTED
      ensures c.arrival.request.classification == INTERNAL ==> maker.maxClassification != PUBLIC
      ensures maker.model == c.backend.model
    {
      CeilingMeans(c.arrival.request.classification, maker.maxClassification);
      if maker != c.backend {
        var d :| d in w.calls && Source(s, c, w.calls[d]) && maker == w.calls[d].backend;
        assert Allowed(w.calls[d]);
      } else {
        assert Allowed(c);
      }
    }
  }
}
