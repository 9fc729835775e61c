/** Calls in progress, what a call is charged, and the ledger of calls. */
module Client {
  import opened Wrappers
  import opened Router

  datatype CallRecord = CallRecord(
    backend: string,
    model: string,
    promptTokens: int,
    completionTokens: int,
    latencyMs: int,
    ttftMs: Option<int>,
    costMilliUsd: real,
    concurrency: real,
    cached: bool,
    tenant: string)

  // ----- calls in progress -----

  type Counts = map<string, int>

  function CountOf(c: Counts, backend: string): int {
    if backend in c then c[backend] else 0
  }

  function AfterEnter(c: Counts, backend: string): Counts {
    c[backend := CountOf(c, backend) + 1]
  }

  function AfterLeave(c: Counts, backend: string): Counts {
    c[backend := if CountOf(c, backend) > 1 then CountOf(c, backend) - 1 else 0]
  }

  class InFlight {
    var counts: Counts

    constructor ()
      ensures counts == map[]
    {
      counts := map[];
    }

    // Returns the count including the call that enters.
    method Enter(backend: string) returns (n: int)
      modifies this
      ensures counts == AfterEnter(old(counts), backend)
      ensures n == CountOf(counts, backend)
    {
      n := (if backend in counts then counts[backend] else 0) + 1;
      counts := counts[backend := n];
    }

    // Returns the count including the call that is leaving.
    method Leave(backend: string) returns (n: int)
      modifies this
      ensures counts == AfterLeave(old(counts), backend)
      ensures n == CountOf(old(counts), backend)
    {
      n := if backend in counts then counts[backend] else 0;
      counts := counts[backend := if n - 1 > 0 then n - 1 else 0];
    }
  }

  // The mean of the counts at start and end, at least one.
  function Concurrency(startedWith: int, endedWith: int): real {
    var mean := (startedWith + endedWith) as real / 2.0;
    if mean > 1.0 then mean else 1.0
  }

  // The replica's hourly rate for the time the call held it.
  function FullCharge(ratePerHour: int, latencyMs: int): real {
    ratePerHour as real * (latencyMs as real / 3600000.0)
  }

  function Charge(ratePerHour: int, latencyMs: int, startedWith: int, endedWith: int): real {
    FullCharge(ratePerHour, latencyMs) / Concurrency(startedWith, endedWith)
  }

  // What a backend sends back when nothing fails.
  datatype Reply = Reply(text: string, promptTokens: int, completionTokens: int, latencyMs: int, ttftMs: Option<int>)

  function FreshRecord(b: Backend, reply: Reply, startedWith: int, endedWith: int, tenant: string): CallRecord {
    CallRecord(b.name, b.model, reply.promptTokens, reply.completionTokens, reply.latencyMs, reply.ttftMs,
               Charge(b.costPerHourMilliUsd, reply.latencyMs, startedWith, endedWith),
               Concurrency(startedWith, endedWith), false, tenant)
  }

  // The record is the call's own, and its cost times its concurrency is the hourly
  // rate for the milliseconds it took.
  predicate IsRecordOf(b: Backend, reply: Reply, tenant: string, r: CallRecord) {
    && r.backend == b.name && r.model == b.model && r.tenant == tenant && !r.cached
    && r.promptTokens == reply.promptTokens && r.completionTokens == reply.completionTokens
    && r.latencyMs == reply.latencyMs && r.ttftMs == reply.ttftMs
    && r.concurrency >= 1.0
    && r.costMilliUsd * r.concurrency * 3600000.0 == b.costPerHourMilliUsd as real * reply.latencyMs as real
  }

  lemma ConcurrencyMeans(startedWith: int, endedWith: int)
    ensures startedWith + endedWith >= 2 ==>
              2.0 * Concurrency(startedWith, endedWith) == (startedWith + endedWith) as real
    ensures startedWith + endedWith < 2 ==> Concurrency(startedWith, endedWith) == 1.0
  {
  }

  lemma ByTheHour(ratePerHour: int, latencyMs: int)
    ensures FullCharge(ratePerHour, latencyMs) * 3600000.0 == ratePerHour as real * latencyMs as real
    ensures latencyMs == 3600000 ==> FullCharge(ratePerHour, latencyMs) == ratePerHour as real
  {
    var r, t := ratePerHour as real, latencyMs as real / 3600000.0;
    assert t * 3600000.0 == latencyMs as real;
    assert (r * t) * 3600000.0 == r * (t * 3600000.0);
  }

  lemma FreshRecordMeans(b: Backend, reply: Reply, startedWith: int, endedWith: int, tenant: string)
    ensures IsRecordOf(b, reply, tenant, FreshRecord(b, reply, startedWith, endedWith, tenant))
  {
    ByTheHour(b.costPerHourMilliUsd, reply.latencyMs);
    ConcurrencyMeans(startedWith, endedWith);
    hide FullCharge, Concurrency;
    var full, n := FullCharge(b.costPerHourMilliUsd, reply.latencyMs), Concurrency(startedWith, endedWith);
    assert n >= 1.0;
    assert full / n * n == full;
  }

  // One backend call with nothing else in between; the outcome is the network's.
  // The record has no tenant yet. A failing call leaves the count as it was and
  // has no record.
  method Complete(inFlight: InFlight, b: Backend, outcome: Option<Reply>) returns (r: Option<(string, CallRecord)>)
    modifies inFlight
    ensures inFlight.counts == AfterLeave(AfterEnter(old(inFlight.counts), b.name), b.name)
    ensures outcome.None? ==> r == None
    ensures outcome.Some? ==>
              var n := CountOf(old(inFlight.counts), b.name) + 1;
              r == Some((outcome.value.text, FreshRecord(b, outcome.value, n, n, "")))
    ensures outcome.Some? ==> IsRecordOf(b, outcome.value, "", r.value.1)
    ensures outcome.Some? && CountOf(old(inFlight.counts), b.name) >= 0 ==>
              r.value.1.concurrency == (CountOf(old(inFlight.counts), b.name) + 1) as real
  {
    hide FullCharge;
    ghost var n := CountOf(inFlight.counts, b.name) + 1;
    if outcome.Some? { FreshRecordMeans(b, outcome.value, n, n, ""); }
    var startedWith := inFlight.Enter(b.name);
    var endedWith := inFlight.Leave(b.name);
    match outcome
    case None => return None;
    case Some(reply) =>
      var mean := (startedWith + endedWith) as real / 2.0;
      var concurrency := if mean > 1.0 then mean else 1.0;
      assert concurrency == Concurrency(startedWith, endedWith);
      var cost := FullCharge(b.costPerHourMilliUsd, reply.latencyMs) / concurrency;
      return Some((reply.text, CallRecord(b.name, b.model, reply.promptTokens, reply.completionTokens,
                                          reply.latencyMs, reply.ttftMs, cost, concurrency, false, "")));
  }

  // Entering and leaving restores every backend's count.
  lemma EnterLeaveRestores(c: Counts, backend: string, other: string)
    requires CountOf(c, backend) >= 0
    ensures CountOf(AfterLeave(AfterEnter(c, backend), backend), other) == CountOf(c, other)
  {
  }

  // ----- the ledger -----

  datatype Totals = Totals(calls: int, cached: int, tokens: int, milliUsd: real, ms: int)

  const ZERO := Totals(0, 0, 0, 0.0, 0)

  function Add(a: Totals, b: Totals): Totals {
    Totals(a.calls + b.calls, a.cached + b.cached, a.tokens + b.tokens, a.milliUsd + b.milliUsd, a.ms + b.ms)
  }

  function OfRecord(r: CallRecord): Totals {
    Totals(1, if r.cached then 1 else 0, r.promptTokens + r.completionTokens, r.costMilliUsd, r.latencyMs)
  }

  function Sum(rs: seq<CallRecord>): Totals {
    if rs == [] then ZERO else Add(Sum(rs[..|rs| - 1]), OfRecord(rs[|rs| - 1]))
  }

  function Where(rs: seq<CallRecord>, p: CallRecord -> bool): seq<CallRecord> {
    if rs == [] then []
    else Where(rs[..|rs| - 1], p) + if p(rs[|rs| - 1]) then [rs[|rs| - 1]] else []
  }

  datatype BackendTotals = BackendTotals(calls: int, tokens: int, milliUsd: real, ms: int)

  datatype TenantTotals = TenantTotals(calls: int, cached: int, tokens: int, milliUsd: real)

  function ForBackend(t: Totals): BackendTotals { BackendTotals(t.calls, t.tokens, t.milliUsd, t.ms) }

  function ForTenant(t: Totals): TenantTotals { TenantTotals(t.calls, t.cached, t.tokens, t.milliUsd) }

  function OfBackend(rs: seq<CallRecord>, b: string): Totals { Sum(Where(rs, (r: CallRecord) => r.backend == b)) }

  function OfTenant(rs: seq<CallRecord>, t: string): Totals { Sum(Where(rs, (r: CallRecord) => r.tenant == t)) }

  lemma {:induction false} NoneWhere(rs: seq<CallRecord>, p: CallRecord -> bool)
    requires forall r | r in rs :: !p(r)
    ensures Where(rs, p) == []
  {
    if rs != [] { NoneWhere(rs[..|rs| - 1], p); }
  }

  lemma WhereNext(rs: seq<CallRecord>, r: CallRecord, p: CallRecord -> bool)
    ensures Where(rs + [r], p) == Where(rs, p) + if p(r) then [r] else []
    ensures Sum(Where(rs + [r], p)) == if p(r) then Add(Sum(Where(rs, p)), OfRecord(r)) else Sum(Where(rs, p))
  {
    assert (rs + [r])[..|rs|] == rs;
    var w := Where(rs, p);
    assert (w + [r])[..|w|] == w;
    assert w + [] == w;
  }

  // The groups seen so far, each with the totals of its records.
  predicate GroupedByBackend(out: map<string, BackendTotals>, rs: seq<CallRecord>) {
    && out.Keys == (set r | r in rs :: r.backend)
    && forall b | b in out :: out[b] == ForBackend(OfBackend(rs, b))
  }

  predicate GroupedByTenant(out: map<string, TenantTotals>, rs: seq<CallRecord>) {
    && out.Keys == (set r | r in rs :: r.tenant)
    && forall t | t in out :: out[t] == ForTenant(OfTenant(rs, t))
  }

  lemma NextByBackend(out: map<string, BackendTotals>, rs: seq<CallRecord>, r: CallRecord)
    requires GroupedByBackend(out, rs)
    ensures var b := if r.backend in out then out[r.backend] else BackendTotals(0, 0, 0.0, 0);
      GroupedByBackend(out[r.backend := BackendTotals(b.calls + 1, b.tokens + r.promptTokens + r.completionTokens,
                                                      b.milliUsd + r.costMilliUsd, b.ms + r.latencyMs)], rs + [r])
  {
    hide Where, Sum;
    if r.backend !in out { NoneWhere(rs, (x: CallRecord) => x.backend == r.backend); }
    EmptySum();
    forall b
      ensures OfBackend(rs + [r], b) == if r.backend == b then Add(OfBackend(rs, b), OfRecord(r)) else OfBackend(rs, b)
    {
      WhereNext(rs, r, (x: CallRecord) => x.backend == b);
    }
  }

  lemma NextByTenant(out: map<string, TenantTotals>, rs: seq<CallRecord>, r: CallRecord)
    requires GroupedByTenant(out, rs)
    ensures var t := if r.tenant in out then out[r.tenant] else TenantTotals(0, 0, 0, 0.0);
      GroupedByTenant(out[r.tenant := TenantTotals(t.calls + 1, t.cached + (if r.cached then 1 else 0),
                                                   t.tokens + r.promptTokens + r.completionTokens,
                                                   t.milliUsd + r.costMilliUsd)], rs + [r])
  {
    hide Where, Sum;
    if r.tenant !in out { NoneWhere(rs, (x: CallRecord) => x.tenant == r.tenant); }
    EmptySum();
    forall t
      ensures OfTenant(rs + [r], t) == if r.tenant == t then Add(OfTenant(rs, t), OfRecord(r)) else OfTenant(rs, t)
    {
      WhereNext(rs, r, (x: CallRecord) => x.tenant == t);
    }
  }

  lemma NoGroups()
    ensures GroupedByBackend(map[], []) && GroupedByTenant(map[], [])
  {
  }

  lemma EmptySum()
    ensures Sum([]) == ZERO
  {
  }

  class Ledger {
    var records: seq<CallRecord>

    constructor ()
      ensures records == []
    {
      records := [];
    }

    method Append(r: CallRecord)
      modifies this
      ensures records == old(records) + [r]
    {
      records := records + [r];
    }

    method TotalMilliUsd() returns (total: real)
      ensures total == Sum(records).milliUsd
    {
      total := 0.0;
      for i := 0 to |records|
        invariant total == Sum(records[..i]).milliUsd
      {
        assert records[..i + 1][..i] == records[..i];
        total := total + records[i].costMilliUsd;
      }
      assert records[..|records|] == records;
    }

    method ByBackend() returns (out: map<string, BackendTotals>)
      ensures GroupedByBackend(out, records)
    {
      hide GroupedByBackend;
      out := map[];
      NoGroups();
      assert records[..0] == [];
      for i := 0 to |records|
        invariant GroupedByBackend(out, records[..i])
      {
        var r := records[i];
        assert records[..i + 1] == records[..i] + [r];
        NextByBackend(out, records[..i], r);
        var b := if r.backend in out then out[r.backend] else BackendTotals(0, 0, 0.0, 0);
        out := out[r.backend := BackendTotals(b.calls + 1, b.tokens + r.promptTokens + r.completionTokens,
                                              b.milliUsd + r.costMilliUsd, b.ms + r.latencyMs)];
      }
      assert records[..|records|] == records;
    }

    method ByTenant() returns (out: map<string, TenantTotals>)
      ensures GroupedByTenant(out, records)
    {
      hide GroupedByTenant;
      out := map[];
      NoGroups();
      assert records[..0] == [];
      for i := 0 to |records|
        invariant GroupedByTenant(out, records[..i])
      {
        var r := records[i];
        assert records[..i + 1] == records[..i] + [r];
        NextByTenant(out, records[..i], r);
        var t := if r.tenant in out then out[r.tenant] else TenantTotals(0, 0, 0, 0.0);
        out := out[r.tenant := TenantTotals(t.calls + 1, t.cached + (if r.cached then 1 else 0),
                                            t.tokens + r.promptTokens + r.completionTokens,
                                            t.milliUsd + r.costMilliUsd)];
      }
      assert records[..|records|] == records;
    }
  }

  // ----- the groups partition the ledger -----

  // The sum of the group totals, over these group names.
  ghost function SumGroups(rs: seq<CallRecord>, key: CallRecord -> string, names: set<string>): Totals {
    if names == {} then ZERO
    else
      var n :| n in names;
      Add(Sum(Where(rs, r => key(r) == n)), SumGroups(rs, key, names - {n}))
  }

  lemma {:induction false} SplitWhere(rs: seq<CallRecord>, p: CallRecord -> bool, q: CallRecord -> bool,
                                     s: CallRecord -> bool)
    requires forall r :: p(r) <==> q(r) || s(r)
    requires forall r :: !(q(r) && s(r))
    ensures Sum(Where(rs, p)) == Add(Sum(Where(rs, q)), Sum(Where(rs, s)))
  {
    if rs == [] {
      EmptySum();
    } else {
      hide Where, Sum, Add, OfRecord;
      var before, r := rs[..|rs| - 1], rs[|rs| - 1];
      assert rs == before + [r];
      SplitWhere(before, p, q, s);
      WhereNext(before, r, p);
      WhereNext(before, r, q);
      WhereNext(before, r, s);
      AddRegroup(Sum(Where(before, q)), Sum(Where(before, s)), OfRecord(r));
    }
  }

  lemma AddRegroup(a: Totals, b: Totals, c: Totals)
    ensures Add(Add(a, b), c) == Add(Add(a, c), b) == Add(a, Add(b, c))
  {
  }

  lemma {:induction false} GroupsAddUp(rs: seq<CallRecord>, key: CallRecord -> string, names: set<string>)
    ensures SumGroups(rs, key, names) == Sum(Where(rs, r => key(r) in names))
    decreases |names|
  {
    if names == {} {
      NoneWhere(rs, r => key(r) in names);
    } else {
      var n :| n in names && SumGroups(rs, key, names)
               == Add(Sum(Where(rs, r => key(r) == n)), SumGroups(rs, key, names - {n}));
      GroupsAddUp(rs, key, names - {n});
      SplitWhere(rs, (r: CallRecord) => key(r) in names, (r: CallRecord) => key(r) == n,
                 (r: CallRecord) => key(r) in names - {n});
    }
  }

  lemma {:induction false} AllWhere(rs: seq<CallRecord>, p: CallRecord -> bool)
    requires forall r | r in rs :: p(r)
    ensures Where(rs, p) == rs
  {
    if rs != [] { AllWhere(rs[..|rs| - 1], p); }
  }

  // Grouped by backend or by tenant, the costs, calls, tokens and times of the
  // groups add up to the whole ledger's.
  lemma GroupsPartitionLedger(rs: seq<CallRecord>)
    ensures SumGroups(rs, (r: CallRecord) => r.backend, set r | r in rs :: r.backend) == Sum(rs)
    ensures SumGroups(rs, (r: CallRecord) => r.tenant, set r | r in rs :: r.tenant) == Sum(rs)
    ensures Sum(rs).calls == |rs|
  {
    var byBackend, byTenant := (r: CallRecord) => r.backend, (r: CallRecord) => r.tenant;
    var backends, tenants := set r | r in rs :: r.backend, set r | r in rs :: r.tenant;
    GroupsAddUp(rs, byBackend, backends);
    AllWhere(rs, r => byBackend(r) in backends);
    GroupsAddUp(rs, byTenant, tenants);
    AllWhere(rs, r => byTenant(r) in tenants);
    SumCounts(rs);
  }

  lemma {:induction false} SumCounts(rs: seq<CallRecord>)
    ensures Sum(rs).calls == |rs|
  {
    if rs != [] { SumCounts(rs[..|rs| - 1]); }
  }
}
