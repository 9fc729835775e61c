/** Scopes do not see each other: while nothing is evicted, a scope gets the same
    answers as if the other scopes' operations had never happened. */
module CacheIsolation {
  import opened Wrappers
  import opened Similarity
  import opened CacheModel

  function In(items: seq<Item>, s: Scope): seq<Item> {
    Keep(items, (x: Item) => x.scope == s)
  }

  function OpsOf(ops: seq<Op>, s: Scope): seq<Op> {
    if ops == [] then []
    else OpsOf(ops[..|ops| - 1], s) + if ops[|ops| - 1].scope == s then [ops[|ops| - 1]] else []
  }

  // What the caller sees of an operation; entry numbers are internal.
  datatype Answer = Served(response: string) | NotFound | Withheld | Accepted

  function AnswerOf(o: Outcome): Answer {
    match o
    case Hit(_, r) => Served(r)
    case Miss => NotFound
    case Blocked => Withheld
    case Stored(_, _) => Accepted
  }

  // The answers the operations on this scope get during a run.
  function AnswersTo(cfg: Config, ops: seq<Op>, s: Scope): seq<Answer> {
    if ops == [] then []
    else
      var n := |ops| - 1;
      AnswersTo(cfg, ops[..n], s)
      + if ops[n].scope == s then [AnswerOf(Step(cfg, Run(cfg, EMPTY_CACHE, ops[..n]), ops[n]).1)] else []
  }

  // ----- lists -----

  lemma {:induction false} KeepConcat(a: seq<Item>, b: seq<Item>, keep: Item -> bool)
    ensures Keep(a + b, keep) == Keep(a, keep) + Keep(b, keep)
  {
    if a == [] {
      assert a + b == b;
    } else {
      var head := if keep(a[0]) then [a[0]] else [];
      assert (a + b)[0] == a[0] && (a + b)[1..] == a[1..] + b;
      assert Keep(a + b, keep) == head + Keep(a[1..] + b, keep) && Keep(a, keep) == head + Keep(a[1..], keep);
      hide Keep;
      KeepConcat(a[1..], b, keep);
    }
  }

  lemma {:induction false} KeepCommutes(a: seq<Item>, f: Item -> bool, g: Item -> bool)
    ensures Keep(Keep(a, f), g) == Keep(Keep(a, g), f)
  {
    if a != [] {
      KeepCommutes(a[1..], f, g);
      KeepConcat(if f(a[0]) then [a[0]] else [], Keep(a[1..], f), g);
      KeepConcat(if g(a[0]) then [a[0]] else [], Keep(a[1..], g), f);
    }
  }

  // Dropping only items of another scope leaves this scope's list as it is.
  lemma KeepElsewhere(a: seq<Item>, s: Scope, keep: Item -> bool)
    requires forall x | x in a && x.scope == s :: keep(x)
    ensures In(Keep(a, keep), s) == In(a, s)
  {
    KeepCommutes(a, keep, (x: Item) => x.scope == s);
    KeepMeans(a, (x: Item) => x.scope == s);
    KeepAll(In(a, s), keep);
  }

  lemma {:induction false} RankIn(a: seq<Item>, s: Scope, id: nat)
    ensures Rank(In(a, s), s, id) == Rank(a, s, id)
  {
    if a != [] {
      RankIn(a[1..], s, id);
      assert In(a, s) == if a[0].scope == s then [a[0]] + In(a[1..], s) else In(a[1..], s);
    }
  }

  lemma {:induction false} BestIn(cfg: Config, a: seq<Item>, s: Scope, vec: Vector)
    ensures Best(cfg, In(a, s), s, vec) == Best(cfg, a, s, vec)
  {
    if a != [] {
      BestIn(cfg, a[1..], s, vec);
      assert In(a, s) == if a[0].scope == s then [a[0]] + In(a[1..], s) else In(a[1..], s);
    }
  }

  // ----- entry numbers -----

  // Entry numbers of one run matched with those of the other, in order.
  type Naming = map<nat, nat>

  predicate Increasing(r: Naming) {
    forall x, y | x in r && y in r && x < y :: r[x] < r[y]
  }

  function Rename(r: Naming, x: Item): Item {
    x.(id := if x.id in r then r[x.id] else 0)
  }

  function Renamed(r: Naming, a: seq<Item>): seq<Item> {
    if a == [] then [] else [Rename(r, a[0])] + Renamed(r, a[1..])
  }

  predicate Names(r: Naming, a: seq<Item>) {
    Increasing(r) && forall x | x in a :: x.id in r
  }

  lemma {:induction false} RenamedConcat(r: Naming, a: seq<Item>, b: seq<Item>)
    ensures Renamed(r, a + b) == Renamed(r, a) + Renamed(r, b)
  {
    if a == [] {
      assert a + b == b;
    } else {
      assert (a + b)[1..] == a[1..] + b;
      RenamedConcat(r, a[1..], b);
    }
  }

  lemma {:induction false} RenamedKeep(r: Naming, a: seq<Item>, f: Item -> bool, g: Item -> bool)
    requires forall x | x in a :: f(x) == g(Rename(r, x))
    ensures Keep(Renamed(r, a), g) == Renamed(r, Keep(a, f))
  {
    if a != [] {
      RenamedKeep(r, a[1..], f, g);
      assert Renamed(r, a)[1..] == Renamed(r, a[1..]);
      RenamedConcat(r, if f(a[0]) then [a[0]] else [], Keep(a[1..], f));
    }
  }

  lemma {:induction false} RenamedRank(r: Naming, a: seq<Item>, s: Scope, id: nat)
    requires Names(r, a) && id in r
    ensures Rank(Renamed(r, a), s, r[id]) == Rank(a, s, id)
  {
    if a != [] {
      RenamedRank(r, a[1..], s, id);
      assert Renamed(r, a)[1..] == Renamed(r, a[1..]);
      assert a[0].id < id <==> r[a[0].id] < r[id];
    }
  }

  lemma {:induction false} RenamedBest(cfg: Config, r: Naming, a: seq<Item>, s: Scope, vec: Vector)
    requires Names(r, a)
    ensures var b, b' := Best(cfg, a, s, vec), Best(cfg, Renamed(r, a), s, vec);
      && (b.None? <==> b'.None?)
      && (b.Some? ==> b.value in a && b'.value == Rename(r, b.value))
  {
    if a != [] {
      RenamedBest(cfg, r, a[1..], s, vec);
      BestOf(cfg, a, s, vec);
      BestOf(cfg, Renamed(r, a), s, vec);
      assert Renamed(r, a)[1..] == Renamed(r, a[1..]) && Renamed(r, a)[0] == Rename(r, a[0]);
      hide Best, Renamed;
      var b := Best(cfg, a[1..], s, vec);
      if b.Some? { RenamedBeats(cfg, r, vec, a[0], b.value); }
    }
  }

  lemma BestOf(cfg: Config, a: seq<Item>, s: Scope, vec: Vector)
    requires a != []
    ensures var b := Best(cfg, a[1..], s, vec);
      Best(cfg, a, s, vec) ==
      if a[0].scope == s && Score(cfg, vec, a[0]) > 0.0 && (b.None? || Beats(cfg, vec, a[0], b.value)) then Some(a[0])
      else b
  {
  }

  lemma RenamedBeats(cfg: Config, r: Naming, vec: Vector, x: Item, y: Item)
    requires Increasing(r) && x.id in r && y.id in r
    ensures Beats(cfg, vec, Rename(r, x), Rename(r, y)) == Beats(cfg, vec, x, y)
  {
    assert x.id < y.id <==> r[x.id] < r[y.id];
  }

  lemma {:induction false} RenamedExtended(r: Naming, a: seq<Item>, id: nat, name: nat)
    requires id !in r && forall x | x in a :: x.id in r
    ensures Renamed(r[id := name], a) == Renamed(r, a)
  {
    if a != [] { RenamedExtended(r, a[1..], id, name); }
  }

  // ----- one operation in both runs -----

  // The second cache holds this scope's entries of the first, renamed, in the
  // same order of use.
  predicate Mirrors(c: Cache, alone: Cache, s: Scope, r: Naming) {
    && Sound(c) && Sound(alone)
    && Names(r, In(c.items, s))
    && alone.items == Renamed(r, In(c.items, s))
    && (forall x | x in r :: x < c.nextId && r[x] < alone.nextId)
  }

  // A lookup elsewhere leaves this scope's entries alone.
  lemma GetElsewhere(cfg: Config, c: Cache, prompt: string, scope: Scope, readings: Readings, s: Scope)
    requires Sound(c) && scope != s
    ensures var c' := GetStep(cfg, c, prompt, scope, readings).0;
      Sound(c') && In(c'.items, s) == In(c.items, s) && c'.nextId == c.nextId
  {
    GetMeans(cfg, c, prompt, scope, readings);
    var live := Live(cfg, c.items, scope, readings);
    KeepElsewhere(c.items, s, (x: Item) => !ExpiresIn(cfg, c.items, scope, readings, x));
    LiveMeans(cfg, c.items, scope, readings);
    BestMeans(cfg, live, scope, cfg.embed(prompt));
    var b := Best(cfg, live, scope, cfg.embed(prompt));
    hide Live, Best, Sound, In;
    if b.Some? { UsedElsewhere(live, b.value, s); }
  }

  // An entry of another scope moves to the end.
  lemma UsedElsewhere(live: seq<Item>, x: Item, s: Scope)
    requires DistinctIds(live) && x in live && x.scope != s
    ensures In(Without(live, x.id) + [x], s) == In(live, s)
  {
    assert forall y | y in live && y.scope == s :: y.id != x.id;
    KeepElsewhere(live, s, (y: Item) => y.id != x.id);
    KeepConcat(Without(live, x.id), [x], (y: Item) => y.scope == s);
  }

  // A store elsewhere takes from this scope only what it evicts, which were its
  // least recently used entries.
  lemma PutElsewhere(cfg: Config, c: Cache, op: Op, s: Scope)
    requires op.Put? && Sound(c) && op.scope != s
    ensures var (c', o) := Step(cfg, c, op);
      && Sound(c') && c'.nextId == c.nextId + 1
      && In(c.items, s) == In(o.dropped, s) + In(c'.items, s)
      && |o.dropped| == c'.evicted - c.evicted
  {
    var (c', o) := Step(cfg, c, op);
    var x := NewItem(cfg, c.nextId, op.prompt, op.response, op.scope, op.time);
    assert o.dropped + c'.items == c.items + [x];
    PutIsSound(cfg, c, op.prompt, op.response, op.scope, op.time);
    hide Sound, Step, NewItem;
    SplitElsewhere(c.items, x, o.dropped, c'.items, s);
  }

  lemma SplitElsewhere(items: seq<Item>, x: Item, dropped: seq<Item>, left: seq<Item>, s: Scope)
    requires dropped + left == items + [x] && x.scope != s
    ensures In(items, s) == In(dropped, s) + In(left, s)
  {
    KeepConcat(items, [x], (y: Item) => y.scope == s);
    KeepConcat(dropped, left, (y: Item) => y.scope == s);
    assert In([x], s) == [];
  }
  lemma LiveMirrors(cfg: Config, c: Cache, alone: Cache, s: Scope, r: Naming, readings: Readings)
    requires Mirrors(c, alone, s, r)
    ensures var live := Live(cfg, c.items, s, readings);
      && Live(cfg, alone.items, s, readings) == Renamed(r, In(live, s))
      && Names(r, In(live, s)) && DistinctIds(live)
  {
    var mine := In(c.items, s);
    var f := (x: Item) => !ExpiresIn(cfg, c.items, s, readings, x);
    var g := (x: Item) => !ExpiresIn(cfg, alone.items, s, readings, x);
    KeepMeans(c.items, (x: Item) => x.scope == s);
    forall x | x in mine
      ensures f(x) == g(Rename(r, x))
    {
      RankIn(c.items, s, x.id);
      RenamedRank(r, mine, s, x.id);
    }
    RenamedKeep(r, mine, f, g);
    KeepCommutes(c.items, f, (x: Item) => x.scope == s);
    KeepMeans(mine, f);
    LiveMeans(cfg, c.items, s, readings);
  }

  // The same lookup in both gets the same answer and keeps the mirror.
  lemma GetMirrors(cfg: Config, c: Cache, alone: Cache, prompt: string, s: Scope, readings: Readings, r: Naming)
    requires Mirrors(c, alone, s, r)
    ensures var (c', o), (alone', o') := GetStep(cfg, c, prompt, s, readings), GetStep(cfg, alone, prompt, s, readings);
      Mirrors(c', alone', s, r) && AnswerOf(o) == AnswerOf(o')
  {
    GetMeans(cfg, c, prompt, s, readings);
    GetMeans(cfg, alone, prompt, s, readings);
    LiveMirrors(cfg, c, alone, s, r, readings);
    var live, vec := Live(cfg, c.items, s, readings), cfg.embed(prompt);
    var mine := In(live, s);
    BestIn(cfg, live, s, vec);
    RenamedBest(cfg, r, mine, s, vec);
    var o := GetStep(cfg, c, prompt, s, readings).1;
    if o.Hit? {
      var b := Best(cfg, live, s, vec).value;
      MoveMirrors(live, s, b, r);
    }
  }

  lemma MoveMirrors(live: seq<Item>, s: Scope, b: Item, r: Naming)
    requires Names(r, In(live, s)) && b in In(live, s)
    ensures var moved := Without(live, b.id) + [b];
      && Names(r, In(moved, s))
      && Renamed(r, In(moved, s)) == Without(Renamed(r, In(live, s)), Rename(r, b).id) + [Rename(r, b)]
  {
    var mine, id, name := In(live, s), b.id, Rename(r, b).id;
    var inScope := (x: Item) => x.scope == s;
    var notB := (x: Item) => x.id != id;
    KeepMeans(live, inScope);
    KeepConcat(Without(live, id), [b], inScope);
    KeepCommutes(live, notB, inScope);
    assert In(Without(live, id), s) == Without(mine, id);
    RenamedKeep(r, mine, notB, (x: Item) => x.id != name);
    assert Without(Renamed(r, mine), name) == Renamed(r, Without(mine, id));
    RenamedConcat(r, Without(mine, id), [b]);
    assert Renamed(r, [b]) == [Rename(r, b)];
    assert In(Without(live, id) + [b], s) == Without(mine, id) + [b];
    KeepMeans(mine, notB);
  }

  lemma AppendSound(c: Cache, x: Item)
    requires Sound(c) && x.id == c.nextId
    ensures Sound(c.(items := c.items + [x], nextId := c.nextId + 1))
  {
  }

  lemma AppendRenamed(a: seq<Item>, s: Scope, r: Naming, x: Item, name: nat)
    requires x.scope == s && x.id !in r && Names(r, In(a, s))
    requires forall y | y in r :: y < x.id && r[y] < name
    ensures var r' := r[x.id := name];
      Names(r', In(a + [x], s)) && Renamed(r', In(a + [x], s)) == Renamed(r, In(a, s)) + [x.(id := name)]
  {
    var mine := In(a, s);
    KeepConcat(a, [x], (z: Item) => z.scope == s);
    assert In(a + [x], s) == mine + [x];
    var r' := r[x.id := name];
    RenamedExtended(r, mine, x.id, name);
    RenamedConcat(r', mine, [x]);
    assert Renamed(r', [x]) == [x.(id := name)];
  }

  lemma AppendMirrors(c: Cache, alone: Cache, s: Scope, r: Naming, x: Item)
    requires Mirrors(c, alone, s, r) && x.scope == s && x.id == c.nextId
    ensures Mirrors(
      c.(items := c.items + [x], nextId := c.nextId + 1),
      alone.(items := alone.items + [x.(id := alone.nextId)], nextId := alone.nextId + 1),
      s, r[c.nextId := alone.nextId])
  {
    AppendSound(c, x);
    AppendSound(alone, x.(id := alone.nextId));
    AppendRenamed(c.items, s, r, x, alone.nextId);
    hide Sound, Names, Renamed, In;
  }

  lemma PutMirrors(cfg: Config, c: Cache, alone: Cache, op: Op, r: Naming)
    requires op.Put? && Mirrors(c, alone, op.scope, r)
    requires Step(cfg, c, op).0.evicted == c.evicted && |alone.items| <= |c.items|
    ensures var (c', o), (alone', o') := Step(cfg, c, op), Step(cfg, alone, op);
      Mirrors(c', alone', op.scope, r[c.nextId := alone.nextId]) && AnswerOf(o) == AnswerOf(o')
  {
    hide Mirrors;
    AppendMirrors(c, alone, op.scope, r, NewItem(cfg, c.nextId, op.prompt, op.response, op.scope, op.time));
  }

  lemma {:induction false} RenamedSound(r: Naming, a: seq<Item>)
    ensures |Renamed(r, a)| == |a|
  {
    if a != [] { RenamedSound(r, a[1..]); }
  }

  // ----- whole runs -----

  lemma EvictedGrows(cfg: Config, ops: seq<Op>)
    ensures ops != [] ==> Run(cfg, EMPTY_CACHE, ops[..|ops| - 1]).evicted <= Run(cfg, EMPTY_CACHE, ops).evicted
  {
  }

  lemma EmptyMirrors(s: Scope)
    ensures Mirrors(EMPTY_CACHE, EMPTY_CACHE, s, map[])
  {
  }

  lemma SameMirrors(c: Cache, c': Cache, alone: Cache, s: Scope, r: Naming)
    requires Mirrors(c, alone, s, r) && Sound(c') && In(c'.items, s) == In(c.items, s) && c.nextId <= c'.nextId
    ensures Mirrors(c', alone, s, r)
  {
  }

  lemma MirrorIsNoLarger(c: Cache, alone: Cache, s: Scope, r: Naming)
    requires Mirrors(c, alone, s, r)
    ensures Sound(c) && |alone.items| <= |c.items|
  {
    RenamedSound(r, In(c.items, s));
    KeepIsShorter(c.items, (x: Item) => x.scope == s);
  }

  ghost predicate Mirrored(cfg: Config, ops: seq<Op>, s: Scope) {
    exists r: Naming :: Mirrors(Run(cfg, EMPTY_CACHE, ops), Run(cfg, EMPTY_CACHE, OpsOf(ops, s)), s, r)
  }

  // Two runs: one with everybody's operations, one with this scope's only, with
  // the same clock readings. If the first evicts nothing, the scope holds the
  // same entries in the same order in both and gets the same answers.
  lemma {:induction false} ScopesAreIsolated(cfg: Config, ops: seq<Op>, s: Scope)
    requires Run(cfg, EMPTY_CACHE, ops).evicted == 0
    ensures Mirrored(cfg, ops, s)
    ensures AnswersTo(cfg, OpsOf(ops, s), s) == AnswersTo(cfg, ops, s)
  {
    hide Mirrors, GetStep, PutStep, Sound;
    if ops == [] {
      EmptyMirrors(s);
      assert Mirrors(Run(cfg, EMPTY_CACHE, ops), Run(cfg, EMPTY_CACHE, OpsOf(ops, s)), s, map[]);
    } else {
      var n := |ops| - 1;
      var op := ops[n];
      EvictedGrows(cfg, ops);
      ScopesAreIsolated(cfg, ops[..n], s);
      var c, alone := Run(cfg, EMPTY_CACHE, ops[..n]), Run(cfg, EMPTY_CACHE, OpsOf(ops[..n], s));
      var r: Naming :| Mirrors(c, alone, s, r);
      MirrorIsNoLarger(c, alone, s, r);
      var c' := Step(cfg, c, op).0;
      assert Run(cfg, EMPTY_CACHE, ops) == c';
      if op.scope != s {
        assert OpsOf(ops, s) == OpsOf(ops[..n], s) && AnswersTo(cfg, ops, s) == AnswersTo(cfg, ops[..n], s);
        if op.Get? {
          GetElsewhere(cfg, c, op.prompt, op.scope, op.readings, s);
        } else {
          PutElsewhere(cfg, c, op, s);
        }
        SameMirrors(c, c', alone, s, r);
        assert Mirrors(Run(cfg, EMPTY_CACHE, ops), Run(cfg, EMPTY_CACHE, OpsOf(ops, s)), s, r);
      } else {
        var mineOps := OpsOf(ops[..n], s) + [op];
        assert OpsOf(ops, s) == mineOps && mineOps[..|mineOps| - 1] == OpsOf(ops[..n], s);
        if op.Get? {
          GetMirrors(cfg, c, alone, op.prompt, s, op.readings, r);
          assert Mirrors(Run(cfg, EMPTY_CACHE, ops), Run(cfg, EMPTY_CACHE, mineOps), s, r);
        } else {
          PutMirrors(cfg, c, alone, op, r);
          var r' := r[c.nextId := alone.nextId];
          assert Mirrors(Run(cfg, EMPTY_CACHE, ops), Run(cfg, EMPTY_CACHE, mineOps), s, r');
        }
      }
    }
  }
}
