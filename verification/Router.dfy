/** Backend selection: classification, capability and context, latency, and only
    then cost. */
module Router {
  import opened Wrappers

  datatype Classification = PUBLIC | INTERNAL | RESTRICTED

  function Level(c: Classification): nat {
    match c
    case PUBLIC => 0
    case INTERNAL => 1
    case RESTRICTED => 2
  }

  datatype Backend = Backend(
    name: string,
    model: string,
    maxContext: int,
    maxClassification: Classification,
    costPerHourMilliUsd: int,
    ttftP95Ms: int,
    capabilities: set<string>,
    tokensPerSecond: real,
    prefixCacheSalt: bool)
  {
    predicate IsLocal() { costPerHourMilliUsd == 0 }

    // Thousandths of a USD per million generated tokens, when it is known.
    function CostPerMtok(): Option<real> {
      if IsLocal() then Some(0.0)
      else if tokensPerSecond <= 0.0 then None
      else Some(costPerHourMilliUsd as real / (tokensPerSecond * 3600.0) * 1000000.0)
    }
  }

  datatype Request = Request(
    prompt: string,
    classification: Classification,
    requiredCapabilities: set<string>,
    latencyBudgetMs: int,
    estInputTokens: int)

  // The estimate with 1.3 times headroom, cut towards zero.
  function NeededContext(r: Request): int {
    if r.estInputTokens >= 0 then r.estInputTokens * 13 / 10 else -(-r.estInputTokens * 13 / 10)
  }

  datatype Rejection =
    | AboveCeiling(asked: Classification, ceiling: Classification)
    | MissingCapabilities(missing: set<string>)
    | ContextTooSmall(have: int, need: int)
    | TooSlow(p95: int, budget: int)

  // ----- the rule, stated at once -----

  predicate Eligible(r: Request, b: Backend) {
    && Level(r.classification) <= Level(b.maxClassification)
    && r.requiredCapabilities <= b.capabilities
    && NeededContext(r) <= b.maxContext
    && b.ttftP95Ms <= r.latencyBudgetMs
  }

  // The first test a backend fails, in the order they are made.
  function WhyNot(r: Request, b: Backend): Option<Rejection> {
    if Level(b.maxClassification) < Level(r.classification) then
      Some(AboveCeiling(r.classification, b.maxClassification))
    else if r.requiredCapabilities - b.capabilities != {} then
      Some(MissingCapabilities(r.requiredCapabilities - b.capabilities))
    else if b.maxContext < NeededContext(r) then Some(ContextTooSmall(b.maxContext, NeededContext(r)))
    else if b.ttftP95Ms > r.latencyBudgetMs then Some(TooSlow(b.ttftP95Ms, r.latencyBudgetMs))
    else None
  }

  datatype CostKey = CostKey(unpriced: int, price: real, ttft: int)

  function KeyOf(b: Backend): CostKey {
    match b.CostPerMtok()
    case None => CostKey(1, b.costPerHourMilliUsd as real, b.ttftP95Ms)
    case Some(p) => CostKey(0, p, b.ttftP95Ms)
  }

  predicate Less(x: CostKey, y: CostKey) {
    || x.unpriced < y.unpriced
    || (x.unpriced == y.unpriced && x.price < y.price)
    || (x.unpriced == y.unpriced && x.price == y.price && x.ttft < y.ttft)
  }

  // The choice: eligible, none eligible cheaper, and the first of those.
  predicate IsChoice(r: Request, pool: seq<Backend>, b: Backend) {
    exists i ::
      && 0 <= i < |pool| && pool[i] == b && Eligible(r, b)
      && (forall j | 0 <= j < |pool| && Eligible(r, pool[j]) :: !Less(KeyOf(pool[j]), KeyOf(b)))
      && (forall j | 0 <= j < i && Eligible(r, pool[j]) :: Less(KeyOf(b), KeyOf(pool[j])))
  }

  // What the decision says about everyone else: a reason for exactly the names
  // of the backends that are not eligible, and each reason is such a backend's.
  predicate Explains(r: Request, pool: seq<Backend>, rejected: map<string, Rejection>) {
    && (forall b | b in pool && !Eligible(r, b) :: b.name in rejected)
    && (forall n | n in rejected ::
          exists b :: b in pool && b.name == n && !Eligible(r, b) && WhyNot(r, b) == Some(rejected[n]))
  }

  datatype Decision = Decision(backend: Backend, considered: nat, rejected: map<string, Rejection>)

  // ----- the selection, stage by stage -----

  function Select(pool: seq<Backend>, p: Backend -> bool): seq<Backend> {
    if pool == [] then []
    else Select(pool[..|pool| - 1], p) + if p(pool[|pool| - 1]) then [pool[|pool| - 1]] else []
  }

  // The candidates left after a stage: in the pool, past every test so far; and
  // everyone who failed one of them is explained.
  predicate Stage(r: Request, pool: seq<Backend>, left: seq<Backend>, rejected: map<string, Rejection>,
                  passes: Backend -> bool)
  {
    && left == Select(pool, passes)
    && (forall b | b in pool && !passes(b) :: b.name in rejected)
    && (forall n | n in rejected ::
          exists b :: b in pool && b.name == n && !passes(b) && WhyNot(r, b) == Some(rejected[n]))
  }

  predicate BelowCeiling(r: Request, b: Backend) {
    Level(r.classification) <= Level(b.maxClassification)
  }

  predicate Capable(r: Request, b: Backend) {
    BelowCeiling(r, b) && r.requiredCapabilities <= b.capabilities && NeededContext(r) <= b.maxContext
  }

  lemma {:induction false} SelectMeans(pool: seq<Backend>, p: Backend -> bool)
    ensures forall b :: b in Select(pool, p) <==> b in pool && p(b)
  {
    if pool != [] {
      SelectMeans(pool[..|pool| - 1], p);
      assert forall b :: b in pool <==> b in pool[..|pool| - 1] || b == pool[|pool| - 1];
    }
  }

  lemma {:induction false} SelectTwice(pool: seq<Backend>, p: Backend -> bool, q: Backend -> bool)
    requires forall b | q(b) :: p(b)
    ensures Select(Select(pool, p), q) == Select(pool, q)
  {
    if pool != [] {
      var n := |pool| - 1;
      SelectTwice(pool[..n], p, q);
      var s := Select(pool[..n], p);
      if p(pool[n]) {
        assert (s + [pool[n]])[..|s|] == s;
      } else {
        assert Select(pool, p) == s;
      }
    }
  }

  // The first of the cheapest.
  method Cheapest(bs: seq<Backend>) returns (c: Backend)
    requires bs != []
    ensures exists i :: 0 <= i < |bs| && bs[i] == c && FirstMin(bs, i)
  {
    var best := 0;
    for i := 1 to |bs|
      invariant 0 <= best < i
      invariant forall j | 0 <= j < i :: !Less(KeyOf(bs[j]), KeyOf(bs[best]))
      invariant forall j | 0 <= j < best :: Less(KeyOf(bs[best]), KeyOf(bs[j]))
    {
      if Less(KeyOf(bs[i]), KeyOf(bs[best])) {
        best := i;
      }
    }
    c := bs[best];
  }

  predicate FirstMin(bs: seq<Backend>, i: nat)
    requires i < |bs|
  {
    && (forall j | 0 <= j < |bs| :: !Less(KeyOf(bs[j]), KeyOf(bs[i])))
    && (forall j | 0 <= j < i :: Less(KeyOf(bs[i]), KeyOf(bs[j])))
  }

  method FilterCeiling(r: Request, pool: seq<Backend>) returns (left: seq<Backend>, rejected: map<string, Rejection>)
    ensures Stage(r, pool, left, rejected, b => BelowCeiling(r, b))
  {
    left, rejected := [], map[];
    for i := 0 to |pool|
      invariant Stage(r, pool[..i], left, rejected, b => BelowCeiling(r, b))
    {
      var b := pool[i];
      assert pool[..i + 1][..i] == pool[..i];
      assert forall x :: x in pool[..i + 1] <==> x in pool[..i] || x == b;
      if Level(b.maxClassification) < Level(r.classification) {
        rejected := rejected[b.name := AboveCeiling(r.classification, b.maxClassification)];
      } else {
        left := left + [b];
      }
    }
    assert pool[..|pool|] == pool;
  }

  // Half-way through a later stage: everyone who failed an earlier test is
  // explained, and so is everyone looked at so far who failed this one.
  predicate Midway(r: Request, pool: seq<Backend>, seen: seq<Backend>, left: seq<Backend>,
                   rejected: map<string, Rejection>, before: Backend -> bool, passes: Backend -> bool)
  {
    && left == Select(seen, passes)
    && (forall b | b in pool && !before(b) :: b.name in rejected)
    && (forall b | b in seen && !passes(b) :: b.name in rejected)
    && (forall n | n in rejected ::
          exists b :: b in pool && b.name == n && !passes(b) && WhyNot(r, b) == Some(rejected[n]))
  }

  lemma StageDone(r: Request, pool: seq<Backend>, left: seq<Backend>, rejected: map<string, Rejection>,
                  before: Backend -> bool, passes: Backend -> bool)
    requires forall b | passes(b) :: before(b)
    requires Midway(r, pool, Select(pool, before), left, rejected, before, passes)
    ensures Stage(r, pool, left, rejected, passes)
  {
    SelectTwice(pool, before, passes);
    SelectMeans(pool, before);
  }

  lemma StageStarts(r: Request, pool: seq<Backend>, left: seq<Backend>, rejected: map<string, Rejection>,
                    before: Backend -> bool, passes: Backend -> bool)
    requires forall b | passes(b) :: before(b)
    requires Stage(r, pool, left, rejected, before)
    ensures Midway(r, pool, [], [], rejected, before, passes)
    ensures forall b | b in left :: b in pool && before(b)
  {
    SelectMeans(pool, before);
    forall n | n in rejected
      ensures exists b :: b in pool && b.name == n && !passes(b) && WhyNot(r, b) == Some(rejected[n])
    {
      var b :| b in pool && b.name == n && !before(b) && WhyNot(r, b) == Some(rejected[n]);
    }
  }

  // Looking at one more candidate: it is kept when it passes, explained when not.
  lemma MidwayNext(r: Request, pool: seq<Backend>, seen: seq<Backend>, left: seq<Backend>,
                   rejected: map<string, Rejection>, before: Backend -> bool, passes: Backend -> bool,
                   b: Backend, why: Rejection)
    requires Midway(r, pool, seen, left, rejected, before, passes) && b in pool
    ensures passes(b) ==> Midway(r, pool, seen + [b], left + [b], rejected, before, passes)
    ensures !passes(b) && WhyNot(r, b) == Some(why) ==>
              Midway(r, pool, seen + [b], left, rejected[b.name := why], before, passes)
  {
    assert (seen + [b])[..|seen|] == seen;
    assert forall x :: x in seen + [b] <==> x in seen || x == b;
  }

  lemma MissingMeans(r: Request, b: Backend)
    ensures r.requiredCapabilities - b.capabilities == {} <==> r.requiredCapabilities <= b.capabilities
  {
    assert forall c | c in r.requiredCapabilities && c !in b.capabilities ::
        c in r.requiredCapabilities - b.capabilities;
  }

  method FilterCapable(r: Request, ghost pool: seq<Backend>, eligible: seq<Backend>,
                       rejectedSoFar: map<string, Rejection>)
    returns (left: seq<Backend>, rejected: map<string, Rejection>)
    requires Stage(r, pool, eligible, rejectedSoFar, b => BelowCeiling(r, b))
    ensures Stage(r, pool, left, rejected, b => Capable(r, b))
  {
    left, rejected := [], rejectedSoFar;
    StageStarts(r, pool, eligible, rejected, b => BelowCeiling(r, b), b => Capable(r, b));
    for i := 0 to |eligible|
      invariant Midway(r, pool, eligible[..i], left, rejected, b => BelowCeiling(r, b), b => Capable(r, b))
    {
      var b := eligible[i];
      assert eligible[..i + 1] == eligible[..i] + [b];
      var missing := r.requiredCapabilities - b.capabilities;
      MissingMeans(r, b);
      MidwayNext(r, pool, eligible[..i], left, rejected, b => BelowCeiling(r, b), b => Capable(r, b), b,
                 if missing != {} then MissingCapabilities(missing)
                 else ContextTooSmall(b.maxContext, NeededContext(r)));
      if missing != {} {
        rejected := rejected[b.name := MissingCapabilities(missing)];
      } else if b.maxContext < NeededContext(r) {
        rejected := rejected[b.name := ContextTooSmall(b.maxContext, NeededContext(r))];
      } else {
        left := left + [b];
      }
    }
    assert eligible[..|eligible|] == eligible;
    StageDone(r, pool, left, rejected, b => BelowCeiling(r, b), b => Capable(r, b));
  }

  predicate InTime(r: Request, b: Backend) { b.ttftP95Ms <= r.latencyBudgetMs }

  method KeepInTime(r: Request, survivors: seq<Backend>) returns (inBudget: seq<Backend>)
    ensures inBudget == Select(survivors, b => InTime(r, b))
  {
    inBudget := [];
    for i := 0 to |survivors|
      invariant inBudget == Select(survivors[..i], b => InTime(r, b))
    {
      assert survivors[..i + 1][..i] == survivors[..i];
      if survivors[i].ttftP95Ms <= r.latencyBudgetMs {
        inBudget := inBudget + [survivors[i]];
      }
    }
    assert survivors[..|survivors|] == survivors;
  }

  method FilterLatency(r: Request, ghost pool: seq<Backend>, survivors: seq<Backend>,
                       rejectedSoFar: map<string, Rejection>)
    returns (inBudget: seq<Backend>, rejected: map<string, Rejection>)
    requires Stage(r, pool, survivors, rejectedSoFar, b => Capable(r, b))
    ensures Stage(r, pool, inBudget, rejected, b => Eligible(r, b))
  {
    inBudget := KeepInTime(r, survivors);
    rejected := rejectedSoFar;
    ghost var before, passes := (b: Backend) => Capable(r, b), (b: Backend) => Eligible(r, b);
    LatencyStarts(r, pool, survivors, rejected, inBudget);
    SelectNothing(passes);
    hide Midway, Stage, WhyNot, Eligible, Capable, InTime, Select;
    for i := 0 to |survivors|
      invariant Midway(r, pool, survivors[..i], Select(survivors[..i], passes), rejected, before, passes)
    {
      var b := survivors[i];
      assert survivors[..i + 1] == survivors[..i] + [b];
      SelectNext(survivors[..i], b, passes);
      InBudgetIff(r, pool, survivors, rejectedSoFar, inBudget, b);
      LatencyNext(r, pool, survivors[..i], rejected, b);
      if b !in inBudget {
        rejected := rejected[b.name := TooSlow(b.ttftP95Ms, r.latencyBudgetMs)];
      }
    }
    StageSurvivors(r, pool, survivors, rejectedSoFar, before);
    assert survivors[..|survivors|] == survivors;
    EligibleIsCapable(r);
    StageDone(r, pool, inBudget, rejected, before, passes);
  }

  lemma SelectNothing(p: Backend -> bool)
    ensures Select([], p) == []
  {
  }

  lemma SelectNext(seen: seq<Backend>, b: Backend, p: Backend -> bool)
    ensures Select(seen + [b], p) == Select(seen, p) + if p(b) then [b] else []
  {
    assert (seen + [b])[..|seen|] == seen;
  }

  lemma LatencyNext(r: Request, pool: seq<Backend>, seen: seq<Backend>, rejected: map<string, Rejection>, b: Backend)
    requires Capable(r, b) && b in pool
    requires Midway(r, pool, seen, Select(seen, b => Eligible(r, b)), rejected, b => Capable(r, b), b => Eligible(r, b))
    ensures var left, why := Select(seen, b => Eligible(r, b)), TooSlow(b.ttftP95Ms, r.latencyBudgetMs);
      if Eligible(r, b)
      then Midway(r, pool, seen + [b], left + [b], rejected, b => Capable(r, b), b => Eligible(r, b))
      else Midway(r, pool, seen + [b], left, rejected[b.name := why], b => Capable(r, b), b => Eligible(r, b))
  {
    LatencyIsLast(r, b);
    MidwayNext(r, pool, seen, Select(seen, b => Eligible(r, b)), rejected, b => Capable(r, b), b => Eligible(r, b), b,
               TooSlow(b.ttftP95Ms, r.latencyBudgetMs));
  }

  lemma EligibleIsCapable(r: Request)
    ensures forall b: Backend | Eligible(r, b) :: Capable(r, b)
  {
  }

  // The candidates in time are the eligible ones among those left so far.
  lemma LatencyStarts(r: Request, pool: seq<Backend>, survivors: seq<Backend>, rejected: map<string, Rejection>,
                      inBudget: seq<Backend>)
    requires Stage(r, pool, survivors, rejected, b => Capable(r, b)) && inBudget == Select(survivors, b => InTime(r, b))
    ensures Midway(r, pool, [], [], rejected, b => Capable(r, b), b => Eligible(r, b))
    ensures inBudget == Select(survivors, b => Eligible(r, b))
  {
    var passes := (b: Backend) => Eligible(r, b);
    StageStarts(r, pool, survivors, rejected, b => Capable(r, b), passes);
    forall b | b in survivors
      ensures InTime(r, b) == Eligible(r, b)
    {
      LatencyIsLast(r, b);
    }
    SelectAgree(survivors, b => InTime(r, b), passes);
  }

  lemma InBudgetIff(r: Request, pool: seq<Backend>, survivors: seq<Backend>, rejected: map<string, Rejection>,
                    inBudget: seq<Backend>, b: Backend)
    requires Stage(r, pool, survivors, rejected, b => Capable(r, b))
    requires inBudget == Select(survivors, b => Eligible(r, b))
    requires b in survivors
    ensures b in pool && Capable(r, b) && (b in inBudget <==> Eligible(r, b))
  {
    SelectMeans(pool, b => Capable(r, b));
    SelectMeans(survivors, b => Eligible(r, b));
  }

  lemma LatencyIsLast(r: Request, b: Backend)
    ensures Capable(r, b) && !InTime(r, b) ==> WhyNot(r, b) == Some(TooSlow(b.ttftP95Ms, r.latencyBudgetMs))
    ensures Capable(r, b) ==> (InTime(r, b) <==> Eligible(r, b))
  {
    MissingMeans(r, b);
  }

  lemma StageSurvivors(r: Request, pool: seq<Backend>, left: seq<Backend>, rejected: map<string, Rejection>,
                       passes: Backend -> bool)
    requires Stage(r, pool, left, rejected, passes)
    ensures left == Select(pool, passes)
  {
  }

  lemma {:induction false} SelectAgree(pool: seq<Backend>, p: Backend -> bool, q: Backend -> bool)
    requires forall b | b in pool :: p(b) == q(b)
    ensures Select(pool, p) == Select(pool, q)
  {
    if pool != [] { SelectAgree(pool[..|pool| - 1], p, q); }
  }

  // Selection keeps the order of the pool.
  lemma {:induction false} SelectInOrder(pool: seq<Backend>, p: Backend -> bool, i: nat)
    requires i < |Select(pool, p)|
    ensures exists k :: 0 <= k < |pool| && pool[k] == Select(pool, p)[i]
                        && forall j | 0 <= j < k && p(pool[j]) :: pool[j] in Select(pool, p)[..i]
  {
    var n := |pool| - 1;
    var before := Select(pool[..n], p);
    if i < |before| {
      SelectInOrder(pool[..n], p, i);
      var k :| 0 <= k < n && pool[..n][k] == before[i]
               && forall j | 0 <= j < k && p(pool[..n][j]) :: pool[..n][j] in before[..i];
      assert Select(pool, p)[..i] == before[..i];
      assert pool[k] == pool[..n][k];
      assert forall j | 0 <= j < k :: pool[j] == pool[..n][j];
    } else {
      SelectMeans(pool[..n], p);
      assert Select(pool, p)[..i] == before;
      assert forall j | 0 <= j < n :: pool[j] in pool[..n];
    }
  }

  lemma FirstMinIsChoice(r: Request, pool: seq<Backend>, i: nat)
    requires i < |Select(pool, b => Eligible(r, b))| && FirstMin(Select(pool, b => Eligible(r, b)), i)
    ensures IsChoice(r, pool, Select(pool, b => Eligible(r, b))[i])
  {
    var p := (b: Backend) => Eligible(r, b);
    var s := Select(pool, p);
    SelectMeans(pool, p);
    SelectInOrder(pool, p, i);
    var k :| 0 <= k < |pool| && pool[k] == s[i] && forall j | 0 <= j < k && p(pool[j]) :: pool[j] in s[..i];
    assert s[i] in s;
    forall j | 0 <= j < |pool| && Eligible(r, pool[j])
      ensures !Less(KeyOf(pool[j]), KeyOf(s[i]))
      ensures j < k ==> Less(KeyOf(s[i]), KeyOf(pool[j]))
    {
      assert pool[j] in s;
    }
  }

  // The whole selection. It refuses exactly when nobody is eligible.
  method Route(r: Request, pool: seq<Backend>) returns (d: Result<Decision, map<string, Rejection>>)
    ensures d.Ok? <==> exists b :: b in pool && Eligible(r, b)
    ensures d.Ok? ==> IsChoice(r, pool, d.value.backend) && d.value.considered == |pool|
                      && Explains(r, pool, d.value.rejected)
    ensures d.Err? ==> Explains(r, pool, d.error)
  {
    var eligible, rejected := FilterCeiling(r, pool);
    var survivors;
    survivors, rejected := FilterCapable(r, pool, eligible, rejected);
    var inBudget;
    inBudget, rejected := FilterLatency(r, pool, survivors, rejected);
    SelectMeans(pool, b => Eligible(r, b));
    if inBudget == [] {
      return Err(rejected);
    }
    assert inBudget[0] in inBudget;
    var chosen := Cheapest(inBudget);
    ghost var i :| 0 <= i < |inBudget| && inBudget[i] == chosen && FirstMin(inBudget, i);
    FirstMinIsChoice(r, pool, i);
    return Ok(Decision(chosen, |pool|, rejected));
  }

  // ----- what the choice means -----

  lemma LessIsOrder(x: CostKey, y: CostKey, z: CostKey)
    ensures !Less(x, x)
    ensures Less(x, y) || Less(y, x) || x == y
    ensures !Less(y, x) && !Less(z, y) ==> !Less(z, x)
  {
  }

  // Eligibility is passing every test, which is having no reason against it.
  lemma StagesAreOneTest(r: Request, b: Backend)
    ensures Eligible(r, b) <==> WhyNot(r, b).None?
  {
    MissingMeans(r, b);
  }

  // Which ceilings admit a class: any for PUBLIC, its own, and RESTRICTED for all.
  lemma CeilingMeans(asked: Classification, ceiling: Classification)
    ensures Level(asked) <= Level(ceiling) <==> asked == PUBLIC || ceiling == RESTRICTED || asked == ceiling
  {
  }

  // The estimate and three tenths of it, whole tokens only.
  lemma NeededContextMeans(r: Request)
    ensures r.estInputTokens >= 0 ==>
              10 * NeededContext(r) <= 13 * r.estInputTokens < 10 * NeededContext(r) + 10
    ensures r.estInputTokens < 0 ==>
              10 * NeededContext(r) - 10 < 13 * r.estInputTokens <= 10 * NeededContext(r)
  {
  }

  // Eligible, on the fields of the two alone.
  lemma EligibleMeans(r: Request, b: Backend)
    ensures Eligible(r, b) <==>
              && (r.classification == PUBLIC || b.maxClassification == RESTRICTED
                  || r.classification == b.maxClassification)
              && (forall c | c in r.requiredCapabilities :: c in b.capabilities)
              && 13 * r.estInputTokens <= 10 * b.maxContext + (if r.estInputTokens >= 0 then 9 else 0)
              && b.ttftP95Ms <= r.latencyBudgetMs
  {
  }

  // The reason given for a backend is the first that applies. A ceiling is the
  // reason for exactly three pairs of classes.
  lemma ReasonMeans(r: Request, b: Backend)
    ensures var why := WhyNot(r, b);
      && (why.Some? && why.value.AboveCeiling? <==>
            (r.classification, b.maxClassification)
            in {(INTERNAL, PUBLIC), (RESTRICTED, PUBLIC), (RESTRICTED, INTERNAL)})
      && (why.Some? && why.value.AboveCeiling? ==>
            why.value == AboveCeiling(r.classification, b.maxClassification))
      && (why.Some? && why.value.MissingCapabilities? ==>
            why.value.missing != {}
            && forall c :: c in why.value.missing <==> c in r.requiredCapabilities && c !in b.capabilities)
      && (why.Some? && why.value.ContextTooSmall? ==>
            r.requiredCapabilities <= b.capabilities
            && why.value == ContextTooSmall(b.maxContext, NeededContext(r)) && b.maxContext < NeededContext(r))
      && (why.Some? && why.value.TooSlow? ==>
            r.requiredCapabilities <= b.capabilities && b.maxContext >= NeededContext(r)
            && why.value == TooSlow(b.ttftP95Ms, r.latencyBudgetMs) && b.ttftP95Ms > r.latencyBudgetMs)
  {
    CeilingMeans(r.classification, b.maxClassification);
    MissingMeans(r, b);
    if r.requiredCapabilities - b.capabilities != {} {
      var c :| c in r.requiredCapabilities - b.capabilities;
      assert c in r.requiredCapabilities && c !in b.capabilities;
    }
  }

  // So in a decision about a pool of distinct names, a backend is turned away for
  // its ceiling exactly when it is PUBLIC and more was asked, or INTERNAL and the
  // request RESTRICTED.
  lemma TurnedAwayForCeiling(r: Request, pool: seq<Backend>, rejected: map<string, Rejection>, b: Backend)
    requires DistinctNames(pool) && Explains(r, pool, rejected) && b in pool
    ensures b.name in rejected && rejected[b.name].AboveCeiling? <==>
              (b.maxClassification == PUBLIC && r.classification != PUBLIC)
              || (b.maxClassification == INTERNAL && r.classification == RESTRICTED)
  {
    NameIsOne(pool);
    ReasonMeans(r, b);
    CeilingMeans(r.classification, b.maxClassification);
    StagesAreOneTest(r, b);
  }

  // ----- what is cheaper -----

  // The price is thousandths of a USD for a million tokens: hourly cost over
  // tokens an hour.
  lemma PriceMeans(b: Backend)
    ensures b.CostPerMtok().None? <==> b.costPerHourMilliUsd != 0 && b.tokensPerSecond <= 0.0
    ensures b.costPerHourMilliUsd == 0 ==> b.CostPerMtok() == Some(0.0)
    ensures b.costPerHourMilliUsd != 0 && b.tokensPerSecond > 0.0 ==>
              b.CostPerMtok().value * (b.tokensPerSecond * 3600.0) == b.costPerHourMilliUsd as real * 1000000.0
  {
    if b.costPerHourMilliUsd != 0 && b.tokensPerSecond > 0.0 {
      Cancel(b.costPerHourMilliUsd as real, b.tokensPerSecond * 3600.0, 1000000.0);
    }
  }

  lemma Cancel(x: real, y: real, k: real)
    requires y > 0.0
    ensures x / y * k * y == x * k
  {
    assert x / y * y == x;
    assert x / y * k * y == (x / y * y) * k;
  }

  // With x the price of cost a at throughput u, and y that of b at v.
  lemma PriceOrder(x: real, a: real, u: real, y: real, b: real, v: real)
    requires u > 0.0 && v > 0.0
    requires x * (u * 3600.0) == a * 1000000.0 && y * (v * 3600.0) == b * 1000000.0
    ensures x < y <==> a * v < b * u
    ensures x == y <==> a * v == b * u
  {
    assert (x * (u * 3600.0)) * v == (a * 1000000.0) * v;
    assert (y * (v * 3600.0)) * u == (b * 1000000.0) * u;
    assert x * (u * v) * 3600.0 == (a * v) * 1000000.0;
    assert y * (u * v) * 3600.0 == (b * u) * 1000000.0;
    Scaled(x, y, u * v, u, v);
  }

  lemma Scaled(x: real, y: real, k: real, u: real, v: real)
    requires u > 0.0 && v > 0.0 && k == u * v
    ensures x < y <==> x * k < y * k
    ensures x == y <==> x * k == y * k
  {
  }

  predicate Priced(b: Backend) { b.costPerHourMilliUsd == 0 || b.tokensPerSecond > 0.0 }

  // Dearer, on the fields: unpriced against priced, then for two priced ones by
  // cost for the same tokens, for two unpriced ones by the hour.
  predicate Dearer(b: Backend, d: Backend) {
    if Priced(b) != Priced(d) then Priced(d)
    else if !Priced(b) then d.costPerHourMilliUsd < b.costPerHourMilliUsd
    else if d.costPerHourMilliUsd == 0 then b.costPerHourMilliUsd > 0
    else if b.costPerHourMilliUsd == 0 then false
    else d.costPerHourMilliUsd as real * b.tokensPerSecond < b.costPerHourMilliUsd as real * d.tokensPerSecond
  }

  lemma LessMeans(d: Backend, b: Backend)
    requires d.costPerHourMilliUsd >= 0 && b.costPerHourMilliUsd >= 0
    ensures Less(KeyOf(d), KeyOf(b)) <==>
              Dearer(b, d) || (!Dearer(d, b) && d.ttftP95Ms < b.ttftP95Ms)
  {
    PriceMeans(d);
    PriceMeans(b);
    if Priced(d) && Priced(b) {
      if d.costPerHourMilliUsd != 0 && b.costPerHourMilliUsd != 0 {
        PriceOrder(d.CostPerMtok().value, d.costPerHourMilliUsd as real, d.tokensPerSecond,
                   b.CostPerMtok().value, b.costPerHourMilliUsd as real, b.tokensPerSecond);
      } else if d.costPerHourMilliUsd != 0 {
        PriceIsPositive(d);
      } else if b.costPerHourMilliUsd != 0 {
        PriceIsPositive(b);
      }
    }
  }

  lemma PriceIsPositive(b: Backend)
    requires b.costPerHourMilliUsd > 0 && b.tokensPerSecond > 0.0
    ensures b.CostPerMtok().value > 0.0
  {
    PriceMeans(b);
  }

  // The choice against any eligible backend, on the fields alone: priced if that
  // one is, free if it is, no more for the same tokens, no more by the hour when
  // neither is priced; at the same price no slower; and on a full tie the first.
  lemma ChoiceIsCheapest(r: Request, pool: seq<Backend>, d: Backend, i: nat)
    requires IsChoice(r, pool, d) && i < |pool| && Eligible(r, pool[i])
    requires d.costPerHourMilliUsd >= 0 && pool[i].costPerHourMilliUsd >= 0
    ensures var b := pool[i];
      && (b.costPerHourMilliUsd == 0 ==> d.costPerHourMilliUsd == 0)
      && (b.tokensPerSecond > 0.0 ==> d.costPerHourMilliUsd == 0 || d.tokensPerSecond > 0.0)
      && (b.tokensPerSecond > 0.0 && d.tokensPerSecond > 0.0 ==>
            d.costPerHourMilliUsd as real * b.tokensPerSecond <= b.costPerHourMilliUsd as real * d.tokensPerSecond)
      && (b.tokensPerSecond <= 0.0 && d.tokensPerSecond <= 0.0 ==>
            d.costPerHourMilliUsd <= b.costPerHourMilliUsd)
      && var same :=
           if d.costPerHourMilliUsd == 0 || b.costPerHourMilliUsd == 0
           then d.costPerHourMilliUsd == b.costPerHourMilliUsd
           else if d.tokensPerSecond > 0.0 && b.tokensPerSecond > 0.0
           then d.costPerHourMilliUsd as real * b.tokensPerSecond == b.costPerHourMilliUsd as real * d.tokensPerSecond
           else d.tokensPerSecond <= 0.0 && b.tokensPerSecond <= 0.0 && d.costPerHourMilliUsd == b.costPerHourMilliUsd;
      && (same ==> d.ttftP95Ms <= b.ttftP95Ms)
      && (same && d.ttftP95Ms == b.ttftP95Ms ==> d in pool[..i + 1])
  {
    var b := pool[i];
    LessMeans(d, b);
    LessMeans(b, d);
    FreeIsNothing(d, b);
    FreeIsNothing(b, d);
    hide KeyOf, Eligible;
    var k :| 0 <= k < |pool| && pool[k] == d
             && forall j | 0 <= j < k && Eligible(r, pool[j]) :: Less(KeyOf(d), KeyOf(pool[j]));
    assert !Less(KeyOf(b), KeyOf(d));
    if k <= i { assert pool[..i + 1][k] == d; }
  }

  lemma FreeIsNothing(d: Backend, b: Backend)
    ensures d.costPerHourMilliUsd == 0 ==> d.costPerHourMilliUsd as real * b.tokensPerSecond == 0.0
    ensures d.costPerHourMilliUsd > 0 && b.tokensPerSecond > 0.0 ==>
              d.costPerHourMilliUsd as real * b.tokensPerSecond > 0.0
  {
  }

  // There is one choice.
  lemma ChoiceIsUnique(r: Request, pool: seq<Backend>, a: Backend, b: Backend)
    requires IsChoice(r, pool, a) && IsChoice(r, pool, b)
    ensures a == b
  {
  }

  // Two pools with the same eligible backends in the same order have the same
  // choice, so adding or removing anyone who is not eligible never changes it.
  lemma ChoiceIgnoresIneligible(r: Request, pool: seq<Backend>, other: seq<Backend>, b: Backend)
    requires Select(pool, x => Eligible(r, x)) == Select(other, x => Eligible(r, x))
    requires IsChoice(r, pool, b)
    ensures IsChoice(r, other, b)
  {
    var p := (x: Backend) => Eligible(r, x);
    var s := Select(pool, p);
    SelectMeans(pool, p);
    assert b in s;
    var i := FirstMinOf(s);
    FirstMinIsChoice(r, pool, i);
    ChoiceIsUnique(r, pool, b, s[i]);
    FirstMinIsChoice(r, other, i);
  }

  lemma {:induction false} FirstMinOf(bs: seq<Backend>) returns (i: nat)
    requires bs != []
    ensures i < |bs| && FirstMin(bs, i)
  {
    var n := |bs| - 1;
    if n == 0 { return 0; }
    i := FirstMinOf(bs[..n]);
    assert forall j | 0 <= j < n :: bs[..n][j] == bs[j];
    if Less(KeyOf(bs[n]), KeyOf(bs[i])) {
      forall j | 0 <= j < n
        ensures Less(KeyOf(bs[n]), KeyOf(bs[j]))
      {
        LessIsOrder(KeyOf(bs[j]), KeyOf(bs[i]), KeyOf(bs[n]));
      }
      i := n;
    }
  }

  // A weaker request: lower class, fewer capabilities, less context, more time.
  predicate Weaker(w: Request, r: Request) {
    && Level(w.classification) <= Level(r.classification)
    && w.requiredCapabilities <= r.requiredCapabilities
    && w.estInputTokens <= r.estInputTokens
    && r.latencyBudgetMs <= w.latencyBudgetMs
  }

  // Asking for less never costs more.
  lemma WeakerIsNoDearer(w: Request, r: Request, pool: seq<Backend>, b: Backend)
    requires Weaker(w, r) && IsChoice(r, pool, b)
    ensures exists c :: IsChoice(w, pool, c)
    ensures forall c | IsChoice(w, pool, c) :: !Less(KeyOf(b), KeyOf(c))
  {
    assert NeededContext(w) <= NeededContext(r);
    var k :| 0 <= k < |pool| && pool[k] == b && Eligible(r, b);
    assert Eligible(w, pool[k]);
    var p := (x: Backend) => Eligible(w, x);
    SelectMeans(pool, p);
    assert b in Select(pool, p);
    var i := FirstMinOf(Select(pool, p));
    FirstMinIsChoice(w, pool, i);
  }

  predicate DistinctNames(pool: seq<Backend>) {
    forall i, j | 0 <= i < j < |pool| :: pool[i].name != pool[j].name
  }

  function Names(bs: seq<Backend>): set<string> { set b | b in bs :: b.name }

  // With distinct names the eligible and the rejected partition the pool, and
  // every rejected backend has its own reason.
  lemma RejectedPartitionPool(r: Request, pool: seq<Backend>, rejected: map<string, Rejection>)
    requires DistinctNames(pool) && Explains(r, pool, rejected)
    ensures var e := Select(pool, b => Eligible(r, b));
      && Names(e) + rejected.Keys == Names(pool) && Names(e) !! rejected.Keys
      && |e| + |rejected| == |pool|
    ensures forall b | b in pool && !Eligible(r, b) ::
              b.name in rejected && WhyNot(r, b) == Some(rejected[b.name])
  {
    hide Eligible, WhyNot;
    var p := (b: Backend) => Eligible(r, b);
    var e := Select(pool, p);
    SelectMeans(pool, p);
    NameIsOne(pool);
    NamesSplit(r, pool, rejected, e);
    hide Explains;
    NamesCount(pool);
    SelectDistinct(pool, p);
    NamesCount(e);
    assert |Names(pool)| == |Names(e)| + |rejected.Keys|;
  }

  lemma NameIsOne(pool: seq<Backend>)
    requires DistinctNames(pool)
    ensures forall b, c | b in pool && c in pool && b.name == c.name :: b == c
  {
  }

  lemma NamesSplit(r: Request, pool: seq<Backend>, rejected: map<string, Rejection>, e: seq<Backend>)
    requires forall b, c | b in pool && c in pool && b.name == c.name :: b == c
    requires forall b :: b in e <==> b in pool && Eligible(r, b)
    requires Explains(r, pool, rejected)
    ensures Names(e) + rejected.Keys == Names(pool) && Names(e) !! rejected.Keys
  {
    hide Eligible, WhyNot;
  }

  lemma {:induction false} NamesCount(bs: seq<Backend>)
    requires DistinctNames(bs)
    ensures |Names(bs)| == |bs|
  {
    if bs != [] {
      var n := |bs| - 1;
      NamesCount(bs[..n]);
      assert Names(bs) == Names(bs[..n]) + {bs[n].name};
    }
  }

  lemma {:induction false} SelectDistinct(pool: seq<Backend>, p: Backend -> bool)
    requires DistinctNames(pool)
    ensures DistinctNames(Select(pool, p))
  {
    if pool != [] {
      var n := |pool| - 1;
      SelectDistinct(pool[..n], p);
      SelectMeans(pool[..n], p);
      var s := Select(pool[..n], p);
      assert forall j | 0 <= j < |s| :: s[j] in pool[..n];
    }
  }
}
