/** The gateway's calls as traffic on its backends: the in-flight counts, what a
    record is charged, and the salts sent along. */
module GatewaySharing {
  import opened Wrappers
  import opened Router
  import opened Client
  import opened GatewayRuns
  import CacheModel
  import PrefixSalt
  import S = Sharing

  predicate IsInCall(calls: Calls, id: nat) { id in calls && calls[id].InCall? }

  // The enter and leave events of a run.
  function Crossing(w: World, w': World, id: nat): seq<S.Event> {
    if IsInCall(w.calls, id) == IsInCall(w'.calls, id) then []
    else if IsInCall(w'.calls, id) then [S.Enters(id, w'.calls[id].backend.name)]
    else [S.Leaves(id, w.calls[id].backend.name)]
  }

  function Traffic(s: Setup, events: seq<Event>): seq<S.Event> {
    if events == [] then []
    else
      var before, e := events[..|events| - 1], events[|events| - 1];
      var w := RunSteps(s, START, before);
      Traffic(s, before) + Crossing(w, Next(s, w, e), e.id)
  }

  // The call was told the count with it when it entered.
  predicate Began(ev: seq<S.Event>, id: nat, backend: string, startedWith: int) {
    exists enter :: 0 <= enter < |ev| && ev[enter] == S.Enters(id, backend)
      && startedWith == S.CountAt(ev, backend, enter + 1)
  }

  ghost predicate Shared(w: World, ev: seq<S.Event>) {
    && S.Proper(ev) && S.Track(ev) == w.counts
    && (forall id :: id in S.Open(ev) <==> IsInCall(w.calls, id))
    && (forall id | IsInCall(w.calls, id) ::
          && S.Open(ev)[id] == w.calls[id].backend.name
          && Began(ev, id, w.calls[id].backend.name, w.calls[id].startedWith))
  }

  lemma StillBegan(ev: seq<S.Event>, x: S.Event, id: nat, backend: string, startedWith: int)
    requires Began(ev, id, backend, startedWith)
    ensures Began(ev + [x], id, backend, startedWith)
  {
    var enter :| 0 <= enter < |ev| && ev[enter] == S.Enters(id, backend)
      && startedWith == S.CountAt(ev, backend, enter + 1);
    assert (ev + [x])[..enter + 1] == ev[..enter + 1];
    assert (ev + [x])[enter] == ev[enter];
  }

  lemma AddEvent(w: World, ev: seq<S.Event>, x: S.Event)
    requires Shared(w, ev)
    requires x.Enters? ==> x.call !in S.Open(ev)
    requires x.Leaves? ==> x.call in S.Open(ev) && S.Open(ev)[x.call] == x.backend
    ensures var ev' := ev + [x];
      && S.Proper(ev')
      && S.Track(ev') == (if x.Enters? then AfterEnter(w.counts, x.backend) else AfterLeave(w.counts, x.backend))
      && S.Open(ev') == (if x.Enters? then S.Open(ev)[x.call := x.backend] else S.Open(ev) - {x.call})
      && (x.Enters? ==> Began(ev', x.call, x.backend, CountOf(S.Track(ev'), x.backend)))
      && forall id | IsInCall(w.calls, id) :: Began(ev', id, w.calls[id].backend.name, w.calls[id].startedWith)
  {
    NextEvent(ev, x);
    hide S.Proper, S.Track, S.Open, Began, AfterEnter, AfterLeave;
    if x.Enters? { JustBegan(ev, x); }
    forall id | IsInCall(w.calls, id)
      ensures Began(ev + [x], id, w.calls[id].backend.name, w.calls[id].startedWith)
    {
      StillBegan(ev, x, id, w.calls[id].backend.name, w.calls[id].startedWith);
    }
  }

  lemma NextEvent(ev: seq<S.Event>, x: S.Event)
    requires S.Proper(ev)
    requires x.Enters? ==> x.call !in S.Open(ev)
    requires x.Leaves? ==> x.call in S.Open(ev) && S.Open(ev)[x.call] == x.backend
    ensures var ev' := ev + [x];
      && S.Proper(ev')
      && S.Track(ev') == (if x.Enters? then AfterEnter(S.Track(ev), x.backend) else AfterLeave(S.Track(ev), x.backend))
      && S.Open(ev') == (if x.Enters? then S.Open(ev)[x.call := x.backend] else S.Open(ev) - {x.call})
  {
    hide AfterEnter, AfterLeave;
    assert (ev + [x])[..|ev|] == ev;
  }

  lemma JustBegan(ev: seq<S.Event>, x: S.Event)
    requires x.Enters?
    ensures Began(ev + [x], x.call, x.backend, CountOf(S.Track(ev + [x]), x.backend))
  {
    hide S.Track;
    var ev' := ev + [x];
    assert ev'[..|ev| + 1] == ev' && ev'[|ev|] == x;
  }

  lemma StepIsShared(s: Setup, w: World, ev: seq<S.Event>, e: Event)
    requires Shared(w, ev)
    ensures Shared(Next(s, w, e), ev + Crossing(w, Next(s, w, e), e.id))
  {
    hide S.Proper, S.Track, S.Open, Began, CacheModel.GetStep, CacheModel.PutStep, Routes, FreshRecord, SaltFor,
      AfterEnter, AfterLeave;
    var w' := Next(s, w, e);
    var more := Crossing(w, w', e.id);
    if more == [] {
      assert ev + more == ev;
    } else {
      AddEvent(w, ev, more[0]);
    }
  }

  lemma {:induction false} RunIsShared(s: Setup, events: seq<Event>)
    ensures Shared(RunSteps(s, START, events), Traffic(s, events))
  {
    if events != [] {
      hide Next, Shared;
      var before := events[..|events| - 1];
      RunIsShared(s, before);
      StepIsShared(s, RunSteps(s, START, before), Traffic(s, before), events[|events| - 1]);
    }
  }

  // In every run the count of a backend is the number of calls in progress on it.
  lemma CountsAreCallsInProgress(s: Setup, events: seq<Event>, backend: string)
    ensures var w := RunSteps(s, START, events);
      CountOf(w.counts, backend)
      == |set id | id in w.calls && w.calls[id].InCall? && w.calls[id].backend.name == backend|
  {
    var w, ev := RunSteps(s, START, events), Traffic(s, events);
    RunIsShared(s, events);
    S.CountIsCallsInProgress(ev, backend);
    assert S.OpenOn(ev, backend) ==
      set id | id in w.calls && w.calls[id].InCall? && w.calls[id].backend.name == backend;
  }

  // Recorded as its own call and charged one replica's cost for its time, divided
  // by the mean of the counts it entered and left with, which is at least one and
  // no more than the highest count between.
  ghost predicate FairlyCharged(ev: seq<S.Event>, id: nat, b: Backend, reply: Reply, r: CallRecord) {
    && (exists enter, leave, k :: WithinPeak(ev, id, b.name, r.concurrency, enter, leave, k))
    && IsRecordOf(b, reply, "", r)
  }

  predicate WithinPeak(ev: seq<S.Event>, id: nat, backend: string, concurrency: real, enter: nat, leave: nat, k: nat) {
    && S.IsCall(ev, id, backend, enter, leave) && enter < k <= leave
    && 2.0 * concurrency == (S.CountAt(ev, backend, enter + 1) + S.CountAt(ev, backend, leave)) as real
    && 1.0 <= concurrency <= S.CountAt(ev, backend, k) as real
  }

  lemma LastLeaves(before: seq<S.Event>, id: nat, b: Backend, startedWith: int, reply: Reply)
    requires S.Proper(before + [S.Leaves(id, b.name)]) && Began(before, id, b.name, startedWith)
    ensures FairlyCharged(before + [S.Leaves(id, b.name)], id, b, reply,
                          FreshRecord(b, reply, startedWith, CountOf(S.Track(before), b.name), ""))
  {
    var ev := before + [S.Leaves(id, b.name)];
    var enter :| 0 <= enter < |before| && before[enter] == S.Enters(id, b.name)
      && startedWith == S.CountAt(before, b.name, enter + 1);
    assert ev[..enter + 1] == before[..enter + 1] && ev[..|before|] == before;
    S.ConcurrencyWithinPeak(ev, id, b.name, enter, |before|);
    var c := Concurrency(startedWith, CountOf(S.Track(before), b.name));
    S.CallCounts(ev, id, b.name, enter, |before|);
    ConcurrencyMeans(startedWith, CountOf(S.Track(before), b.name));
    FreshRecordMeans(b, reply, startedWith, CountOf(S.Track(before), b.name), "");
    hide IsRecordOf;
    var k: int :| enter < k <= |before| && c <= S.CountAt(ev, b.name, k) as real;
    assert WithinPeak(ev, id, b.name, c, enter, |before|, k);
  }

  lemma LeaveIsFair(s: Setup, w: World, before: seq<S.Event>, e: Event)
    requires Shared(w, before) && IsInCall(w.calls, e.id) && e.step.Leave? && e.step.outcome.Some?
    ensures var b, w' := w.calls[e.id].backend, Next(s, w, e);
      && e.id in w'.calls && w'.calls[e.id].Returned?
      && FairlyCharged(before + Crossing(w, w', e.id), e.id, b, e.step.outcome.value, w'.calls[e.id].record)
  {
    hide S.Proper, S.Track, S.Open, Began, FreshRecord, AfterLeave, FairlyCharged;
    var InCall(a, b, _, n) := w.calls[e.id];
    StepIsShared(s, w, before, e);
    LastLeaves(before, e.id, b, n, e.step.outcome.value);
  }

  // In every run, every call a backend answers is charged so.
  lemma ChargedForItsShare(s: Setup, events: seq<Event>, n: nat)
    requires n < |events| && events[n].step.Leave? && events[n].step.outcome.Some?
    requires IsInCall(After(s, events, n).calls, events[n].id)
    ensures var id, b := events[n].id, After(s, events, n).calls[events[n].id].backend;
      var calls := After(s, events, n + 1).calls;
      && id in calls && calls[id].Returned?
      && FairlyCharged(Traffic(s, events[..n + 1]), id, b, events[n].step.outcome.value, calls[id].record)
  {
    AfterNext(s, events, n);
    assert events[..n + 1][..n] == events[..n];
    RunIsShared(s, events[..n]);
    hide Next, Shared, FairlyCharged, Crossing;
    LeaveIsFair(s, After(s, events, n), Traffic(s, events[..n]), events[n]);
  }

  // ----- salts -----

  predicate Salted(s: Setup, c: Call) {
    c.InCall? ==>
      && c.arrival.tenant != ""
      && SaltFor(s, c.arrival).Ok?
      && c.salt == if c.backend.prefixCacheSalt then Some(SaltFor(s, c.arrival).value) else None
  }

  lemma StepIsSalted(s: Setup, w: World, e: Event)
    requires forall c | c in w.calls :: Salted(s, w.calls[c])
    ensures forall c | c in Next(s, w, e).calls :: Salted(s, Next(s, w, e).calls[c])
  {
    hide CacheModel.GetStep, CacheModel.PutStep, PrefixSalt.Salt, Routes, FreshRecord, AfterEnter, AfterLeave;
    if e.id in w.calls && SaltFor(s, w.calls[e.id].arrival).Ok? { SaltNeedsTenant(s, w.calls[e.id].arrival); }
  }

  lemma SaltNeedsTenant(s: Setup, a: Arrival)
    requires SaltFor(s, a).Ok?
    ensures a.tenant != ""
  {
  }

  lemma {:induction false} RunIsSalted(s: Setup, events: seq<Event>)
    ensures forall c | c in RunSteps(s, START, events).calls :: Salted(s, RunSteps(s, START, events).calls[c])
  {
    if events != [] {
      hide Next, Salted;
      RunIsSalted(s, events[..|events| - 1]);
      StepIsSalted(s, RunSteps(s, START, events[..|events| - 1]), events[|events| - 1]);
    }
  }

  // Two calls in progress share a prefix cache salt only within one tenant and
  // classification, unless the keyed hash collides on their two inputs.
  lemma SharedSaltIsSharedGroup(s: Setup, events: seq<Event>, c: nat, d: nat)
    requires var calls := RunSteps(s, START, events).calls;
      IsInCall(calls, c) && IsInCall(calls, d) && calls[c].salt.Some? && calls[c].salt == calls[d].salt
    ensures var a, b := RunSteps(s, START, events).calls[c].arrival, RunSteps(s, START, events).calls[d].arrival;
      var m, n := PrefixSalt.Message(a.tenant, a.request.classification),
                  PrefixSalt.Message(b.tenant, b.request.classification);
      && s.hmac(s.saltKey, m) == s.hmac(s.saltKey, n)
      && (m == n <==> a.tenant == b.tenant && a.request.classification == b.request.classification)
  {
    var calls := RunSteps(s, START, events).calls;
    var a, b := calls[c].arrival, calls[d].arrival;
    RunIsSalted(s, events);
    assert Salted(s, calls[c]) && Salted(s, calls[d]);
    PrefixSalt.SaltsSeparate(s.hmac, s.saltKey, a.request.classification, a.tenant,
                             b.request.classification, b.tenant);
    PrefixSalt.MessagesDiffer(a.tenant, a.request.classification, b.tenant, b.request.classification);
  }
}
