/** Many calls at once on many backends: what the in-flight counts mean under any
    interleaving, and what the concurrency of a call is worth. */
module Sharing {
  import opened Client

  // A call enters its backend and later leaves it, whether it succeeded or not.
  datatype Event = Enters(call: nat, backend: string) | Leaves(call: nat, backend: string)

  // The calls in progress after the events, with their backends.
  function Open(ev: seq<Event>): map<nat, string> {
    if ev == [] then map[]
    else
      var before := Open(ev[..|ev| - 1]);
      match ev[|ev| - 1]
      case Enters(c, b) => before[c := b]
      case Leaves(c, _) => before - {c}
  }

  // Every call enters while it is not in progress and leaves while it is.
  predicate Proper(ev: seq<Event>) {
    ev != [] ==>
      var before := ev[..|ev| - 1];
      && Proper(before)
      && match ev[|ev| - 1]
         case Enters(c, _) => c !in Open(before)
         case Leaves(c, b) => c in Open(before) && Open(before)[c] == b
  }

  // The counts the operations keep.
  function Track(ev: seq<Event>): Counts {
    if ev == [] then map[]
    else
      match ev[|ev| - 1]
      case Enters(_, b) => AfterEnter(Track(ev[..|ev| - 1]), b)
      case Leaves(_, b) => AfterLeave(Track(ev[..|ev| - 1]), b)
  }

  function OpenOn(ev: seq<Event>, b: string): set<nat> {
    set c | c in Open(ev) && Open(ev)[c] == b
  }

  // The count of a backend is always the number of calls in progress on it, so
  // the count is never negative and the clamp at zero never takes effect.
  lemma {:induction false} CountIsCallsInProgress(ev: seq<Event>, b: string)
    requires Proper(ev)
    ensures CountOf(Track(ev), b) == |OpenOn(ev, b)|
    ensures ev != [] && ev[|ev| - 1].Leaves? && ev[|ev| - 1].backend == b ==>
              CountOf(Track(ev[..|ev| - 1]), b) >= 1
              && CountOf(Track(ev), b) == CountOf(Track(ev[..|ev| - 1]), b) - 1
  {
    if ev != [] {
      var before := ev[..|ev| - 1];
      CountIsCallsInProgress(before, b);
      var was := OpenOn(before, b);
      match ev[|ev| - 1] {
        case Enters(c, d) =>
          assert OpenOn(ev, b) == if d == b then was + {c} else was;
        case Leaves(c, d) =>
          assert OpenOn(ev, b) == was - {c};
          assert d == b <==> c in was;
      }
    }
  }

  lemma {:induction false} ProperPrefix(ev: seq<Event>, n: nat)
    requires Proper(ev) && n <= |ev|
    ensures Proper(ev[..n])
  {
    if n < |ev| {
      ProperPrefix(ev[..|ev| - 1], n);
      assert ev[..|ev| - 1][..n] == ev[..n];
    } else {
      assert ev[..n] == ev;
    }
  }

  // The count of the backend after the first n events.
  function CountAt(ev: seq<Event>, b: string, n: nat): int
    requires n <= |ev|
  {
    CountOf(Track(ev[..n]), b)
  }

  // What one completed call was told: the count with it when it entered, and the
  // count still with it when it left.
  function ConcurrencyOf(ev: seq<Event>, b: string, enter: nat, leave: nat): real
    requires enter < leave < |ev|
  {
    Concurrency(CountAt(ev, b, enter + 1), CountAt(ev, b, leave))
  }

  predicate IsCall(ev: seq<Event>, c: nat, b: string, enter: nat, leave: nat) {
    enter < leave < |ev| && ev[enter] == Enters(c, b) && ev[leave] == Leaves(c, b)
  }

  lemma LastEnters(ev: seq<Event>, c: nat, b: string)
    requires Proper(ev) && ev != [] && ev[|ev| - 1] == Enters(c, b)
    ensures CountOf(Track(ev), b) >= 1
  {
    CountIsCallsInProgress(ev, b);
    hide Proper, Track;
    assert c in OpenOn(ev, b);
  }

  lemma LastLeaves(ev: seq<Event>, c: nat, b: string)
    requires Proper(ev) && ev != [] && ev[|ev| - 1] == Leaves(c, b)
    ensures CountOf(Track(ev[..|ev| - 1]), b) >= 1
  {
    CountIsCallsInProgress(ev, b);
  }

  lemma CallCounts(ev: seq<Event>, c: nat, b: string, enter: nat, leave: nat)
    requires Proper(ev) && IsCall(ev, c, b, enter, leave)
    ensures CountAt(ev, b, enter + 1) >= 1 && CountAt(ev, b, leave) >= 1
  {
    hide Proper, Track, Open, OpenOn, CountOf;
    var entered, left := ev[..enter + 1], ev[..leave + 1];
    ProperPrefix(ev, enter + 1);
    ProperPrefix(ev, leave + 1);
    LastEnters(entered, c, b);
    LastLeaves(left, c, b);
    assert left[..|left| - 1] == ev[..leave];
  }

  // The concurrency of a call is at least one and at most the highest count its
  // backend had while it was in progress.
  lemma ConcurrencyWithinPeak(ev: seq<Event>, c: nat, b: string, enter: nat, leave: nat)
    requires Proper(ev) && IsCall(ev, c, b, enter, leave)
    ensures ConcurrencyOf(ev, b, enter, leave) >= 1.0
    ensures exists k :: enter < k <= leave && ConcurrencyOf(ev, b, enter, leave) <= CountAt(ev, b, k) as real
  {
    hide Proper, CountAt;
    CallCounts(ev, c, b, enter, leave);
    var k := if CountAt(ev, b, enter + 1) >= CountAt(ev, b, leave) then enter + 1 else leave;
    assert ConcurrencyOf(ev, b, enter, leave) <= CountAt(ev, b, k) as real;
  }

  lemma {:induction false} CountUnchanged(ev: seq<Event>, b: string, from: nat, to: nat)
    requires from <= to <= |ev|
    requires forall k | from <= k < to :: ev[k].backend != b
    ensures CountAt(ev, b, to) == CountAt(ev, b, from)
  {
    if from < to {
      CountUnchanged(ev, b, from, to - 1);
      assert ev[..to][..to - 1] == ev[..to - 1];
    }
  }

  // It is exactly the number of calls sharing the backend, throughout, when no
  // other call enters or leaves that backend meanwhile.
  lemma ConcurrencyExact(ev: seq<Event>, c: nat, b: string, enter: nat, leave: nat, k: nat)
    requires Proper(ev) && IsCall(ev, c, b, enter, leave) && enter < k <= leave
    requires forall n | enter < n < leave :: ev[n].backend != b
    ensures ConcurrencyOf(ev, b, enter, leave) == |OpenOn(ev[..k], b)| as real
  {
    hide Proper, Track, Open, OpenOn;
    CallCounts(ev, c, b, enter, leave);
    CountUnchanged(ev, b, enter + 1, k);
    CountUnchanged(ev, b, enter + 1, leave);
    ProperPrefix(ev, k);
    CountIsCallsInProgress(ev[..k], b);
  }
}
