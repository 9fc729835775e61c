/** Whole requests one after another, and what the cache scope leaves out. */
module GatewaySequences {
  import opened Wrappers
  import opened Router
  import opened CacheModel
  import opened Client
  import opened GatewayRuns
  import opened GatewayAccounts
  import opened Gateways

  // One request with what the world answers it.
  datatype Ask = Ask(arrival: Arrival, pool: seq<Backend>, chosen: Option<Backend>, readings: Readings,
                     outcome: Option<Reply>, time: real)

  function HandleAll(s: Setup, asks: seq<Ask>): World {
    if asks == [] then START
    else
      var n := |asks| - 1;
      var q := asks[n];
      Handled(s, HandleAll(s, asks[..n]), n, q.arrival, q.chosen, q.readings, q.outcome, q.time)
  }

  function Scripts(asks: seq<Ask>): seq<Event> {
    if asks == [] then []
    else
      var n := |asks| - 1;
      var q := asks[n];
      Scripts(asks[..n]) + Script(n, q.arrival, q.pool, q.chosen, q.readings, q.outcome, q.time)
  }

  lemma {:induction false} RunConcat(s: Setup, w: World, a: seq<Event>, b: seq<Event>)
    ensures RunSteps(s, w, a + b) == RunSteps(s, RunSteps(s, w, a), b)
  {
    if b == [] {
      assert a + b == a;
    } else {
      var n := |b| - 1;
      RunConcat(s, w, a, b[..n]);
      assert (a + b)[..|a + b| - 1] == a + b[..n];
    }
  }

  lemma HandledFinishes(s: Setup, w: World, id: nat, q: Ask)
    ensures var w' := Handled(s, w, id, q.arrival, q.chosen, q.readings, q.outcome, q.time);
      && w'.calls.Keys == w.calls.Keys + {id} && Finished(w'.calls[id])
      && forall c | c in w.calls && c != id :: w'.calls[c] == w.calls[c]
  {
    hide GetStep, PutStep, FreshRecord;
  }

  ghost predicate Numbered(w: World, n: nat) {
    Settled(w) && forall k: nat :: k in w.calls <==> k < n
  }

  lemma NumberedNext(s: Setup, w: World, q: Ask, n: nat)
    requires Numbered(w, n)
    ensures Numbered(Handled(s, w, n, q.arrival, q.chosen, q.readings, q.outcome, q.time), n + 1)
  {
    hide Handled;
    HandledFinishes(s, w, n, q);
  }

  // Requests handled one after another are a run, with nothing left on its way.
  lemma {:induction false} SequenceIsARun(s: Setup, asks: seq<Ask>)
    requires forall q | q in asks :: Chosen(q.arrival, q.pool, q.chosen)
    ensures HandleAll(s, asks) == RunSteps(s, START, Scripts(asks))
    ensures Numbered(HandleAll(s, asks), |asks|)
  {
    hide Handled, Next, Chosen, Script;
    if asks != [] {
      var n := |asks| - 1;
      var q, w := asks[n], HandleAll(s, asks[..n]);
      SequenceIsARun(s, asks[..n]);
      NumberedNext(s, w, q, n);
      hide Numbered, RunSteps;
      RunConcat(s, START, Scripts(asks[..n]), Script(n, q.arrival, q.pool, q.chosen, q.readings, q.outcome, q.time));
      assert n !in w.calls by { NotYet(w, n); }
      HandledIsARun(s, w, n, q.arrival, q.pool, q.chosen, q.readings, q.outcome, q.time);
    }
  }

  lemma NotYet(w: World, n: nat)
    requires Numbered(w, n)
    ensures n !in w.calls
  {
  }

  // So after any sequence of requests: the cached records are the hits, the
  // misses are the other records and the failed calls.
  lemma SequenceBalances(s: Setup, asks: seq<Ask>)
    requires forall q | q in asks :: Chosen(q.arrival, q.pool, q.chosen)
    ensures var w := HandleAll(s, asks);
      && w.cache.hits == |Where(w.ledger, CachedOf(Everyone()))|
      && w.cache.misses == |Where(w.ledger, FreshOf(Everyone()))| + Tally(w.calls, FailedCalls())
  {
    SequenceIsARun(s, asks);
    BooksBalance(s, Scripts(asks));
  }

  // ----- the scope names the model, not the backend or what was required -----

  // A second request in the scope of the first, with a prompt close enough and
  // the same numerals, is served the text of the first, whichever backend of that
  // model each was routed to and whatever capabilities each required.
  lemma ScopeIgnoresBackend(s: Setup, first: Ask, second: Ask)
    requires first.chosen.Some? && second.chosen.Some? && first.outcome.Some?
    requires first.arrival.tenant == second.arrival.tenant && SaltFor(s, first.arrival).Ok?
    requires ScopeOf(first.arrival, first.chosen.value) == ScopeOf(second.arrival, second.chosen.value)
    requires CloseEnough(s.cfg, first.arrival.request.prompt, second.arrival.request.prompt)
    requires s.cfg.maxEntries >= 1
    requires s.cfg.ttlSeconds > 0.0 ==> second.readings(0) - first.time <= s.cfg.ttlSeconds
    ensures HandleAll(s, [first, second]).calls ==
            map[0 := Answered(first.arrival, first.chosen.value, first.outcome.value.text),
                1 := Served(second.arrival, second.chosen.value, first.outcome.value.text)]
  {
    var a, scope := first.arrival, ScopeOf(first.arrival, first.chosen.value);
    var prompt, text := a.request.prompt, first.outcome.value.text;
    var x := NewItem(s.cfg, 0, prompt, text, scope, first.time);
    OneEntry(s.cfg, prompt, text, scope, first.readings, first.time);
    var c := GetStep(s.cfg, EMPTY_CACHE, prompt, scope, first.readings).0.(items := [x], nextId := 1);
    FoundAgain(s.cfg, x, c, second.arrival.request.prompt, second.readings);
    TwoAsks(s, first, second);
    hide HandleAll, GetStep, PutStep, FreshRecord, SaltFor;
    assert HandleAll(s, [first]).cache == c;
  }

  // An entry stored for the first prompt answers the second.
  predicate CloseEnough(cfg: Config, first: string, second: string) {
    && cfg.score(cfg.embed(second), cfg.embed(first)) > 0.0
    && cfg.score(cfg.embed(second), cfg.embed(first)) >= cfg.threshold
    && cfg.numbersOf(first) == cfg.numbersOf(second)
  }

  lemma TwoAsks(s: Setup, first: Ask, second: Ask)
    ensures HandleAll(s, [first]) ==
            Handled(s, START, 0, first.arrival, first.chosen, first.readings, first.outcome, first.time)
    ensures HandleAll(s, [first, second]) ==
            Handled(s, HandleAll(s, [first]), 1, second.arrival, second.chosen, second.readings, second.outcome,
                    second.time)
  {
    hide Handled;
    assert [first, second][..1] == [first] && [first][..0] == [];
  }

  lemma OneEntry(cfg: Config, prompt: string, text: string, scope: Scope, readings: Readings, time: real)
    requires cfg.maxEntries >= 1
    ensures var (c, o) := GetStep(cfg, EMPTY_CACHE, prompt, scope, readings);
      !o.Hit? && PutStep(cfg, c, prompt, text, scope, time).0
                 == c.(items := [NewItem(cfg, 0, prompt, text, scope, time)], nextId := 1)
  {
  }

  lemma FoundAgain(cfg: Config, x: Item, c: Cache, prompt: string, readings: Readings)
    requires c.items == [x] && x.entry.numbers == cfg.numbersOf(prompt)
    requires !IsExpired(cfg, x.entry, readings(0))
    requires cfg.score(cfg.embed(prompt), x.entry.vector) > 0.0
    requires cfg.score(cfg.embed(prompt), x.entry.vector) >= cfg.threshold
    ensures GetStep(cfg, c, prompt, x.scope, readings).1 == Hit(x.id, x.entry.response)
  {
    assert Rank([x], x.scope, x.id) == 0;
    assert !ExpiresIn(cfg, [x], x.scope, readings, x);
    KeepAll([x], (y: Item) => !ExpiresIn(cfg, [x], x.scope, readings, y));
    assert Best(cfg, [x], x.scope, cfg.embed(prompt)) == Some(x);
  }
}
