/** What the semantic cache means, without its two indexes: one list of entries,
    least recently used first. Every operation names the clock readings it takes. */
module CacheModel {
  import opened Wrappers
  import opened Similarity
  import opened Router

  datatype Scope = CacheScope(
    classification: Classification,
    model: string,
    temperature: real,
    maxTokens: int,
    systemPromptSha: string,
    tenant: string)

  datatype Entry = Entry(prompt: string, response: string, vector: Vector, numbers: set<string>, storedAt: real)

  // The settings, and the three functions the cache is given: the embedder, the
  // similarity of two vectors and the numerals of a prompt.
  datatype Config = Config(
    threshold: real,
    maxEntries: nat,
    ttlSeconds: real,
    embed: string -> Vector,
    score: (Vector, Vector) -> real,
    numbersOf: string -> set<string>)

  // The clock readings of one lookup, in the order the scan takes them.
  type Readings = nat -> real

  datatype Item = Item(scope: Scope, id: nat, entry: Entry)

  datatype Cache = Cache(
    items: seq<Item>,
    nextId: nat,
    hits: nat,
    misses: nat,
    falseHitsBlocked: nat,
    expired: nat,
    evicted: nat)

  const EMPTY_CACHE := Cache([], 0, 0, 0, 0, 0, 0)

  datatype Op =
    | Get(prompt: string, scope: Scope, readings: Readings)
    | Put(prompt: string, response: string, scope: Scope, time: real)

  datatype Outcome =
    | Hit(id: nat, response: string)
    | Miss
    | Blocked
    | Stored(id: nat, dropped: seq<Item>)

  predicate IsExpired(cfg: Config, e: Entry, now: real) {
    cfg.ttlSeconds > 0.0 && now - e.storedAt > cfg.ttlSeconds
  }

  // How many entries of the scope the scan passes before this id.
  function Rank(items: seq<Item>, scope: Scope, id: nat): nat {
    if items == [] then 0
    else Rank(items[1..], scope, id) + if items[0].scope == scope && items[0].id < id then 1 else 0
  }

  predicate ExpiresIn(cfg: Config, all: seq<Item>, scope: Scope, readings: Readings, x: Item) {
    x.scope == scope && IsExpired(cfg, x.entry, readings(Rank(all, scope, x.id)))
  }

  function Keep(items: seq<Item>, keep: Item -> bool): seq<Item> {
    if items == [] then []
    else (if keep(items[0]) then [items[0]] else []) + Keep(items[1..], keep)
  }

  // The items a lookup leaves: those of other scopes, and those of this scope
  // that had not expired when the scan reached them.
  function Live(cfg: Config, all: seq<Item>, scope: Scope, readings: Readings): seq<Item> {
    Keep(all, (x: Item) => !ExpiresIn(cfg, all, scope, readings, x))
  }

  function Score(cfg: Config, vec: Vector, x: Item): real { cfg.score(vec, x.entry.vector) }

  // Higher score first; among equal scores the older entry.
  predicate Beats(cfg: Config, vec: Vector, x: Item, y: Item) {
    Score(cfg, vec, x) > Score(cfg, vec, y) || (Score(cfg, vec, x) == Score(cfg, vec, y) && x.id < y.id)
  }

  function Best(cfg: Config, items: seq<Item>, scope: Scope, vec: Vector): Option<Item> {
    if items == [] then None
    else
      var b := Best(cfg, items[1..], scope, vec);
      if items[0].scope == scope && Score(cfg, vec, items[0]) > 0.0
         && (b.None? || Beats(cfg, vec, items[0], b.value))
      then Some(items[0]) else b
  }

  // The declarative meaning of the scan: the lowest id among the entries of the
  // scope with the highest score, which has to be positive.
  predicate IsBest(cfg: Config, items: seq<Item>, scope: Scope, vec: Vector, x: Item) {
    && x in items && x.scope == scope && Score(cfg, vec, x) > 0.0
    && forall y | y in items && y.scope == scope ::
         Score(cfg, vec, y) <= Score(cfg, vec, x) && (Score(cfg, vec, y) == Score(cfg, vec, x) ==> x.id <= y.id)
  }

  function Without(items: seq<Item>, id: nat): seq<Item> {
    Keep(items, (x: Item) => x.id != id)
  }

  // A lookup.
  function GetStep(cfg: Config, c: Cache, prompt: string, scope: Scope, readings: Readings): (Cache, Outcome) {
    var live := Live(cfg, c.items, scope, readings);
    KeepIsShorter(c.items, (x: Item) => !ExpiresIn(cfg, c.items, scope, readings, x));
    var c1 := c.(items := live, expired := c.expired + |c.items| - |live|);
    var vec := cfg.embed(prompt);
    match Best(cfg, live, scope, vec)
    case None => (c1.(misses := c.misses + 1), Miss)
    case Some(b) =>
      if Score(cfg, vec, b) < cfg.threshold then (c1.(misses := c.misses + 1), Miss)
      else if b.entry.numbers != cfg.numbersOf(prompt) then
        (c1.(misses := c.misses + 1, falseHitsBlocked := c.falseHitsBlocked + 1), Blocked)
      else (c1.(items := Without(live, b.id) + [b], hits := c.hits + 1), Hit(b.id, b.entry.response))
  }

  function Surplus(cfg: Config, n: nat): (d: nat)
    ensures d <= n
  {
    if n > cfg.maxEntries then n - cfg.maxEntries else 0
  }

  function NewItem(cfg: Config, id: nat, prompt: string, response: string, scope: Scope, time: real): Item {
    Item(scope, id, Entry(prompt, response, cfg.embed(prompt), cfg.numbersOf(prompt), time))
  }

  // A store, which evicts from the front of the list.
  function PutStep(cfg: Config, c: Cache, prompt: string, response: string, scope: Scope, time: real)
    : (Cache, Outcome)
  {
    var all := c.items + [NewItem(cfg, c.nextId, prompt, response, scope, time)];
    var d := Surplus(cfg, |all|);
    (c.(items := all[d..], nextId := c.nextId + 1, evicted := c.evicted + d), Stored(c.nextId, all[..d]))
  }

  function Step(cfg: Config, c: Cache, op: Op): (Cache, Outcome) {
    match op
    case Get(prompt, scope, readings) => GetStep(cfg, c, prompt, scope, readings)
    case Put(prompt, response, scope, time) => PutStep(cfg, c, prompt, response, scope, time)
  }

  function Run(cfg: Config, c: Cache, ops: seq<Op>): Cache {
    if ops == [] then c else Step(cfg, Run(cfg, c, ops[..|ops| - 1]), ops[|ops| - 1]).0
  }

  function Trace(cfg: Config, c: Cache, ops: seq<Op>): (t: seq<Outcome>)
    ensures |t| == |ops|
  {
    if ops == [] then []
    else
      var n := |ops| - 1;
      Trace(cfg, c, ops[..n]) + [Step(cfg, Run(cfg, c, ops[..n]), ops[n]).1]
  }

  // ----- single steps -----

  lemma {:induction false} KeepIsShorter(items: seq<Item>, keep: Item -> bool)
    ensures |Keep(items, keep)| <= |items|
  {
    if items != [] { KeepIsShorter(items[1..], keep); }
  }

  lemma {:induction false} KeepMeans(items: seq<Item>, keep: Item -> bool)
    ensures forall x :: x in Keep(items, keep) <==> x in items && keep(x)
  {
    if items != [] { KeepMeans(items[1..], keep); }
  }

  lemma {:induction false} KeepAgree(items: seq<Item>, f: Item -> bool, g: Item -> bool)
    requires forall x | x in items :: f(x) == g(x)
    ensures Keep(items, f) == Keep(items, g)
  {
    if items != [] { KeepAgree(items[1..], f, g); }
  }

  lemma {:induction false} KeepAll(items: seq<Item>, keep: Item -> bool)
    requires forall x | x in items :: keep(x)
    ensures Keep(items, keep) == items
  {
    if items != [] { KeepAll(items[1..], keep); }
  }

  lemma {:induction false} KeepTwice(items: seq<Item>, f: Item -> bool, g: Item -> bool)
    ensures Keep(Keep(items, f), g) == Keep(items, (x: Item) => f(x) && g(x))
  {
    if items != [] {
      KeepTwice(items[1..], f, g);
      var rest := Keep(items[1..], f);
      assert f(items[0]) ==> ([items[0]] + rest)[1..] == rest;
      assert !f(items[0]) ==> Keep(items, f) == rest;
    }
  }

  lemma {:induction false} BestMeans(cfg: Config, items: seq<Item>, scope: Scope, vec: Vector)
    ensures var b := Best(cfg, items, scope, vec);
      && (b.Some? ==> IsBest(cfg, items, scope, vec, b.value))
      && (b.None? ==> forall y | y in items && y.scope == scope :: Score(cfg, vec, y) <= 0.0)
  {
    if items != [] {
      BestMeans(cfg, items[1..], scope, vec);
      assert forall y :: y in items <==> y == items[0] || y in items[1..];
    }
  }

  predicate DistinctIds(items: seq<Item>) {
    forall i, j | 0 <= i < j < |items| :: items[i].id != items[j].id
  }

  lemma BestIsUnique(cfg: Config, items: seq<Item>, scope: Scope, vec: Vector, x: Item, y: Item)
    requires DistinctIds(items) && IsBest(cfg, items, scope, vec, x) && IsBest(cfg, items, scope, vec, y)
    ensures x == y
  {
    assert x.id == y.id;
  }

  // Ids are below the next one and occur once.
  predicate Sound(c: Cache) {
    DistinctIds(c.items) && forall x | x in c.items :: x.id < c.nextId
  }

  lemma {:induction false} KeepDistinct(items: seq<Item>, keep: Item -> bool)
    requires DistinctIds(items)
    ensures DistinctIds(Keep(items, keep))
  {
    if items != [] {
      var rest := Keep(items[1..], keep);
      KeepDistinct(items[1..], keep);
      KeepMeans(items[1..], keep);
      assert forall y | y in items[1..] :: y.id != items[0].id;
      assert forall j | 0 <= j < |rest| :: rest[j] in items[1..];
    }
  }

  lemma LiveMeans(cfg: Config, all: seq<Item>, scope: Scope, readings: Readings)
    requires DistinctIds(all)
    ensures var live := Live(cfg, all, scope, readings);
      && DistinctIds(live) && |live| <= |all|
      && forall x :: x in live <==> x in all && !ExpiresIn(cfg, all, scope, readings, x)
  {
    var keep := (x: Item) => !ExpiresIn(cfg, all, scope, readings, x);
    KeepMeans(all, keep);
    KeepDistinct(all, keep);
    KeepIsShorter(all, keep);
  }

  lemma {:induction false} WithoutMeans(items: seq<Item>, id: nat)
    requires DistinctIds(items)
    ensures DistinctIds(Without(items, id))
    ensures forall x :: x in Without(items, id) <==> x in items && x.id != id
    ensures |Without(items, id)| == |items| - (if exists x | x in items :: x.id == id then 1 else 0)
  {
    KeepMeans(items, (x: Item) => x.id != id);
    KeepDistinct(items, (x: Item) => x.id != id);
    if items != [] {
      WithoutMeans(items[1..], id);
      assert forall y :: y in items <==> y == items[0] || y in items[1..];
    }
  }

  // The lookup's answer, stated outright: the response of the best live entry,
  // exactly when there is one, it reaches the threshold and has the numerals of
  // the prompt. What is left is every entry that had not expired when scanned.
  lemma GetMeans(cfg: Config, c: Cache, prompt: string, scope: Scope, readings: Readings)
    requires Sound(c)
    ensures var (c', out) := GetStep(cfg, c, prompt, scope, readings);
      var live := Live(cfg, c.items, scope, readings);
      var vec := cfg.embed(prompt);
      && (forall id, r :: out == Hit(id, r) <==>
            exists x :: IsBest(cfg, live, scope, vec, x) && x.id == id && x.entry.response == r
              && Score(cfg, vec, x) >= cfg.threshold && x.entry.numbers == cfg.numbersOf(prompt))
      && (out == Blocked <==>
            exists x :: IsBest(cfg, live, scope, vec, x)
              && Score(cfg, vec, x) >= cfg.threshold && x.entry.numbers != cfg.numbersOf(prompt))
      && (forall x :: x in live <==> x in c'.items)
      && (forall x :: x in c'.items <==>
            x in c.items
            && (x.scope != scope || cfg.ttlSeconds <= 0.0
                || readings(Rank(c.items, scope, x.id)) - x.entry.storedAt <= cfg.ttlSeconds))
      && c'.expired - c.expired == |c.items| - |c'.items|
      && Sound(c') && !out.Stored?
  {
    var live := Live(cfg, c.items, scope, readings);
    var vec := cfg.embed(prompt);
    LiveMeans(cfg, c.items, scope, readings);
    BestMeans(cfg, live, scope, vec);
    var b := Best(cfg, live, scope, vec);
    if b.Some? {
      forall x | IsBest(cfg, live, scope, vec, x)
        ensures x == b.value
      {
        BestIsUnique(cfg, live, scope, vec, x, b.value);
      }
      WithoutMeans(live, b.value.id);
    }
  }

  // ----- whole runs, from an empty cache -----

  // In every state a run reaches, ids are distinct and below the next one, and
  // there are never more than the maximum of entries.
  lemma {:induction false} RunIsSound(cfg: Config, ops: seq<Op>)
    ensures var c := Run(cfg, EMPTY_CACHE, ops); Sound(c) && |c.items| <= cfg.maxEntries
  {
    if ops != [] {
      hide Sound, GetStep, PutStep;
      var n := |ops| - 1;
      var c := Run(cfg, EMPTY_CACHE, ops[..n]);
      RunIsSound(cfg, ops[..n]);
      match ops[n]
      case Get(prompt, scope, readings) =>
        GetMeans(cfg, c, prompt, scope, readings);
        GetSize(cfg, c, prompt, scope, readings);
      case Put(prompt, response, scope, time) => PutIsSound(cfg, c, prompt, response, scope, time);
    }
  }

  lemma PutIsSound(cfg: Config, c: Cache, prompt: string, response: string, scope: Scope, time: real)
    requires Sound(c)
    ensures var c' := PutStep(cfg, c, prompt, response, scope, time).0; Sound(c') && |c'.items| <= cfg.maxEntries
  {
  }

  // A lookup changes the number of entries only by those that expired.
  lemma GetSize(cfg: Config, c: Cache, prompt: string, scope: Scope, readings: Readings)
    requires Sound(c)
    ensures var c' := GetStep(cfg, c, prompt, scope, readings).0;
      |c'.items| == |Live(cfg, c.items, scope, readings)| <= |c.items|
  {
    var live := Live(cfg, c.items, scope, readings);
    LiveMeans(cfg, c.items, scope, readings);
    BestMeans(cfg, live, scope, cfg.embed(prompt));
    var b := Best(cfg, live, scope, cfg.embed(prompt));
    if b.Some? { WithoutMeans(live, b.value.id); }
  }

  // The entry was put by this store of the run, with what it was given.
  predicate PutBy(cfg: Config, ops: seq<Op>, x: Item, k: nat) {
    && k < |ops| && ops[k].Put? && ops[k].scope == x.scope && ops[k].time == x.entry.storedAt
    && ops[k].prompt == x.entry.prompt && ops[k].response == x.entry.response
    && x.entry.vector == cfg.embed(ops[k].prompt) && x.entry.numbers == cfg.numbersOf(ops[k].prompt)
  }

  // Every entry was put by some store of the run.
  lemma {:induction false} ItemsWerePut(cfg: Config, ops: seq<Op>)
    ensures forall x | x in Run(cfg, EMPTY_CACHE, ops).items :: exists k :: PutBy(cfg, ops, x, k)
  {
    if ops != [] {
      var n := |ops| - 1;
      var c := Run(cfg, EMPTY_CACHE, ops[..n]);
      ItemsWerePut(cfg, ops[..n]);
      RunIsSound(cfg, ops[..n]);
      StepItems(cfg, c, ops[n]);
      hide Step, Sound;
      forall x | x in Run(cfg, EMPTY_CACHE, ops).items
        ensures exists k :: PutBy(cfg, ops, x, k)
      {
        if x in c.items {
          var k :| PutBy(cfg, ops[..n], x, k);
          assert PutBy(cfg, ops, x, k);
        } else {
          assert PutBy(cfg, ops, x, n);
        }
      }
    }
  }

  lemma StepItems(cfg: Config, c: Cache, op: Op)
    requires Sound(c)
    ensures forall x | x in Step(cfg, c, op).0.items ::
              x in c.items || (op.Put? && x == NewItem(cfg, c.nextId, op.prompt, op.response, op.scope, op.time))
  {
    if op.Get? {
      GetMeans(cfg, c, op.prompt, op.scope, op.readings);
      hide GetStep;
    }
  }

  // In every run, the text of a hit was put in the same scope, by a prompt with
  // the same numerals whose vector scores at least the threshold, at a time no
  // further back from the reading than entries may live.
  lemma HitIsRecent(cfg: Config, ops: seq<Op>, prompt: string, scope: Scope, readings: Readings)
    ensures var c := Run(cfg, EMPTY_CACHE, ops);
      var out := GetStep(cfg, c, prompt, scope, readings).1;
      out.Hit? ==>
        exists k ::
          && 0 <= k < |ops| && ops[k].Put? && ops[k].response == out.response && ops[k].scope == scope
          && cfg.numbersOf(ops[k].prompt) == cfg.numbersOf(prompt)
          && cfg.score(cfg.embed(prompt), cfg.embed(ops[k].prompt)) >= cfg.threshold
          && cfg.score(cfg.embed(prompt), cfg.embed(ops[k].prompt)) > 0.0
          && (cfg.ttlSeconds > 0.0 ==> readings(Rank(c.items, scope, out.id)) - ops[k].time <= cfg.ttlSeconds)
  {
    var c := Run(cfg, EMPTY_CACHE, ops);
    RunIsSound(cfg, ops);
    ItemsWerePut(cfg, ops);
    GetMeans(cfg, c, prompt, scope, readings);
    hide GetStep, Live, Best, Run, Sound;
    var out := GetStep(cfg, c, prompt, scope, readings).1;
    if out.Hit? {
      var live := Live(cfg, c.items, scope, readings);
      assert out == Hit(out.id, out.response);
      var x :| IsBest(cfg, live, scope, cfg.embed(prompt), x) && x.id == out.id && x.entry.response == out.response
        && Score(cfg, cfg.embed(prompt), x) >= cfg.threshold && x.entry.numbers == cfg.numbersOf(prompt);
      assert x in c.items;
      var k :| PutBy(cfg, ops, x, k);
    }
  }

  predicate Conserved(c: Cache, puts: nat, gets: nat) {
    && c.nextId == puts && c.nextId == |c.items| + c.expired + c.evicted
    && c.hits + c.misses == gets && c.falseHitsBlocked <= c.misses
  }

  lemma GetConserves(cfg: Config, c: Cache, prompt: string, scope: Scope, readings: Readings, gets: nat)
    requires Sound(c) && Conserved(c, c.nextId, gets)
    ensures Conserved(GetStep(cfg, c, prompt, scope, readings).0, c.nextId, gets + 1)
  {
    GetSize(cfg, c, prompt, scope, readings);
    hide Best, Live, Without, IsBest;
  }

  function Puts(ops: seq<Op>): nat {
    if ops == [] then 0 else Puts(ops[..|ops| - 1]) + if ops[|ops| - 1].Put? then 1 else 0
  }

  // Conservation: every entry ever stored is still there, expired or was evicted;
  // every lookup is a hit or a miss; a blocked false hit is one of the misses.
  lemma {:induction false} Conservation(cfg: Config, ops: seq<Op>)
    ensures Puts(ops) <= |ops| && Conserved(Run(cfg, EMPTY_CACHE, ops), Puts(ops), |ops| - Puts(ops))
  {
    hide GetStep, Sound;
    if ops != [] {
      var n := |ops| - 1;
      var c := Run(cfg, EMPTY_CACHE, ops[..n]);
      Conservation(cfg, ops[..n]);
      RunIsSound(cfg, ops[..n]);
      match ops[n]
      case Get(prompt, scope, readings) => GetConserves(cfg, c, prompt, scope, readings, n - Puts(ops[..n]));
      case Put(_, _, _, _) =>
    }
  }

  // The last moment of the run at which this entry was stored or served.
  function LastUse(t: seq<Outcome>, id: nat): int {
    if t == [] then -1
    else if Uses(t[|t| - 1], id) then |t| - 1
    else LastUse(t[..|t| - 1], id)
  }

  predicate Uses(o: Outcome, id: nat) {
    (o.Hit? || o.Stored?) && o.id == id
  }

  predicate ByLastUse(items: seq<Item>, t: seq<Outcome>) {
    && (forall i | 0 <= i < |items| :: 0 <= LastUse(t, items[i].id) < |t|)
    && (forall i, j | 0 <= i < j < |items| :: LastUse(t, items[i].id) < LastUse(t, items[j].id))
  }

  // Dropping entries anywhere in the list keeps the rest in order.
  lemma {:induction false} KeepOrder(items: seq<Item>, keep: Item -> bool, t: seq<Outcome>)
    requires ByLastUse(items, t)
    ensures ByLastUse(Keep(items, keep), t)
  {
    hide LastUse;
    if items != [] {
      var rest := Keep(items[1..], keep);
      KeepOrder(items[1..], keep, t);
      KeepMeans(items[1..], keep);
      forall j | 0 <= j < |rest|
        ensures LastUse(t, items[0].id) < LastUse(t, rest[j].id)
      {
        assert rest[j] in items[1..];
        var i :| 0 <= i < |items| - 1 && items[1..][i] == rest[j];
        assert items[i + 1] == rest[j];
      }
      assert Keep(items, keep) == rest || Keep(items, keep) == [items[0]] + rest;
    }
  }

  // Putting the entry just used at the end keeps the order, one step later.
  lemma AppendLastUsed(items: seq<Item>, x: Item, t: seq<Outcome>, o: Outcome)
    requires ByLastUse(items, t) && Uses(o, x.id)
    requires forall y | y in items :: y.id != x.id
    ensures ByLastUse(items + [x], t + [o])
  {
  }

  lemma UnusedStep(items: seq<Item>, t: seq<Outcome>, o: Outcome)
    requires ByLastUse(items, t) && (o == Miss || o == Blocked)
    ensures ByLastUse(items, t + [o])
  {
    assert (t + [o])[..|t|] == t;
  }

  // Over every run the list is ordered by last use, across scopes and whatever
  // expired in the middle of it.
  lemma {:induction false} OrderedByLastUse(cfg: Config, ops: seq<Op>)
    ensures ByLastUse(Run(cfg, EMPTY_CACHE, ops).items, Trace(cfg, EMPTY_CACHE, ops))
  {
    if ops != [] {
      var n := |ops| - 1;
      var c := Run(cfg, EMPTY_CACHE, ops[..n]);
      var t := Trace(cfg, EMPTY_CACHE, ops[..n]);
      OrderedByLastUse(cfg, ops[..n]);
      RunIsSound(cfg, ops[..n]);
      match ops[n]
      case Get(prompt, scope, readings) => OrderedAfterGet(cfg, c, prompt, scope, readings, t);
      case Put(prompt, response, scope, time) =>
        var x := NewItem(cfg, c.nextId, prompt, response, scope, time);
        var o := Step(cfg, c, ops[n]).1;
        AppendLastUsed(c.items, x, t, o);
        SuffixKeepsOrder(c.items + [x], Surplus(cfg, |c.items| + 1), t + [o]);
    }
  }

  lemma SuffixKeepsOrder(items: seq<Item>, d: nat, t: seq<Outcome>)
    requires ByLastUse(items, t) && d <= |items|
    ensures ByLastUse(items[d..], t)
    ensures forall x, y | x in items[..d] && y in items[d..] :: LastUse(t, x.id) < LastUse(t, y.id)
  {
  }

  lemma OrderedAfterGet(cfg: Config, c: Cache, prompt: string, scope: Scope, readings: Readings, t: seq<Outcome>)
    requires Sound(c) && ByLastUse(c.items, t)
    ensures var (c', o) := GetStep(cfg, c, prompt, scope, readings); ByLastUse(c'.items, t + [o])
  {
    var (c', o) := GetStep(cfg, c, prompt, scope, readings);
    var live := Live(cfg, c.items, scope, readings);
    KeepOrder(c.items, (x: Item) => !ExpiresIn(cfg, c.items, scope, readings, x), t);
    LiveMeans(cfg, c.items, scope, readings);
    if o.Hit? {
      var b := Best(cfg, live, scope, cfg.embed(prompt)).value;
      KeepOrder(live, (x: Item) => x.id != b.id, t);
      WithoutMeans(live, b.id);
      AppendLastUsed(Without(live, b.id), b, t, o);
    } else {
      UnusedStep(live, t, o);
    }
  }

  // Whatever a store evicts was used less recently than every one of the
  // maximum number of entries it leaves behind.
  lemma EvictsLeastRecentlyUsed(cfg: Config, ops: seq<Op>)
    requires ops != [] && ops[|ops| - 1].Put?
    ensures var c := Run(cfg, EMPTY_CACHE, ops);
      var t := Trace(cfg, EMPTY_CACHE, ops);
      var dropped := t[|t| - 1].dropped;
      && (dropped != [] ==> |c.items| == cfg.maxEntries)
      && forall x, y | x in dropped && y in c.items :: LastUse(t, x.id) < LastUse(t, y.id)
  {
    var n := |ops| - 1;
    var c := Run(cfg, EMPTY_CACHE, ops[..n]);
    var t := Trace(cfg, EMPTY_CACHE, ops[..n]);
    OrderedByLastUse(cfg, ops[..n]);
    RunIsSound(cfg, ops[..n]);
    var op := ops[n];
    var x := NewItem(cfg, c.nextId, op.prompt, op.response, op.scope, op.time);
    var o := Step(cfg, c, op).1;
    AppendLastUsed(c.items, x, t, o);
    SuffixKeepsOrder(c.items + [x], Surplus(cfg, |c.items| + 1), t + [o]);
  }
}
