/** The cache as it is kept: a bucket of entries per scope, in order of their
    numbers, and one order of use over all of them. It does on every call what the
    single list does. */
module SemanticCacheIndexes {
  import opened Wrappers
  import opened Similarity
  import opened CacheModel

  datatype Slot = Slot(id: nat, entry: Entry)

  type Buckets = map<Scope, seq<Slot>>

  type Key = (Scope, nat)

  type Order = seq<Key>

  function FindSlot(b: seq<Slot>, id: nat): Option<Entry> {
    if b == [] then None
    else if b[0].id == id then Some(b[0].entry)
    else FindSlot(b[1..], id)
  }

  function RemoveSlot(b: seq<Slot>, id: nat): seq<Slot> {
    if b == [] then []
    else if b[0].id == id then b[1..]
    else [b[0]] + RemoveSlot(b[1..], id)
  }

  function RemoveKey(o: Order, k: Key): Order {
    if o == [] then []
    else if o[0] == k then o[1..]
    else [o[0]] + RemoveKey(o[1..], k)
  }

  predicate Ascending(b: seq<Slot>) {
    forall i, j | 0 <= i < j < |b| :: b[i].id < b[j].id
  }

  predicate Present(scopes: Buckets, k: Key) {
    k.0 in scopes && FindSlot(scopes[k.0], k.1).Some?
  }

  function ItemAt(scopes: Buckets, k: Key): Item
    requires Present(scopes, k)
  {
    Item(k.0, k.1, FindSlot(scopes[k.0], k.1).value)
  }

  predicate AllPresent(scopes: Buckets, order: Order) {
    forall k | k in order :: Present(scopes, k)
  }

  // The one list the two indexes stand for.
  function Flat(scopes: Buckets, order: Order): (items: seq<Item>)
    requires AllPresent(scopes, order)
    ensures |items| == |order|
    ensures forall i | 0 <= i < |order| :: order[i] in order && items[i] == ItemAt(scopes, order[i])
  {
    if order == [] then []
    else
      assert order[0] in order;
      [ItemAt(scopes, order[0])] + Flat(scopes, order[1..])
  }

  predicate DistinctKeys(order: Order) {
    forall i, j | 0 <= i < j < |order| :: order[i].1 != order[j].1
  }

  predicate Ordered(scopes: Buckets) {
    forall s | s in scopes :: scopes[s] != [] && Ascending(scopes[s])
  }

  predicate Listed(scopes: Buckets, order: Order, nextId: nat) {
    forall s, i | s in scopes && 0 <= i < |scopes[s]| ::
      scopes[s][i].id < nextId && (s, scopes[s][i].id) in order
  }

  // The agreement of the two indexes: every key of the order has its entry in a
  // bucket and every entry its key, no key or number occurs twice, no bucket is
  // empty, and numbers rise within a bucket and stay below the next one.
  predicate Agree(scopes: Buckets, order: Order, nextId: nat) {
    DistinctKeys(order) && AllPresent(scopes, order) && Ordered(scopes) && Listed(scopes, order, nextId)
  }

  // ----- buckets and keys -----

  lemma {:induction false} FindMeans(b: seq<Slot>, id: nat)
    requires Ascending(b)
    ensures FindSlot(b, id).Some? <==> exists i | 0 <= i < |b| :: b[i].id == id
    ensures forall i | 0 <= i < |b| :: FindSlot(b, b[i].id) == Some(b[i].entry)
  {
    if b != [] {
      FindMeans(b[1..], id);
      forall i | 0 <= i < |b|
        ensures FindSlot(b, b[i].id) == Some(b[i].entry)
      {
        assert i > 0 ==> b[1..][i - 1] == b[i] && b[0].id < b[i].id;
      }
      if exists i | 0 <= i < |b| :: b[i].id == id {
        var i :| 0 <= i < |b| && b[i].id == id;
        assert i > 0 ==> b[1..][i - 1] == b[i];
      }
    }
  }

  lemma {:induction false} RemoveSlotMembers(b: seq<Slot>, id: nat)
    requires Ascending(b)
    ensures forall x :: x in RemoveSlot(b, id) <==> x in b && x.id != id
  {
    if b != [] {
      RemoveSlotMembers(b[1..], id);
      forall x
        ensures x in RemoveSlot(b, id) <==> x in b && x.id != id
      {
        assert x in b <==> x == b[0] || x in b[1..];
        if x in b[1..] {
          var i :| 0 <= i < |b| - 1 && b[1..][i] == x;
          assert b[0].id < b[i + 1].id;
        }
      }
    }
  }

  lemma {:induction false} RemoveSlotMeans(b: seq<Slot>, id: nat)
    requires Ascending(b)
    ensures Ascending(RemoveSlot(b, id))
    ensures forall x :: x in RemoveSlot(b, id) <==> x in b && x.id != id
  {
    RemoveSlotMembers(b, id);
    if b != [] && b[0].id != id {
      RemoveSlotMeans(b[1..], id);
      AscendingCons(b, RemoveSlot(b[1..], id));
    }
  }

  // The first slot before any of the later ones.
  lemma AscendingCons(b: seq<Slot>, rest: seq<Slot>)
    requires b != [] && Ascending(b) && Ascending(rest) && forall x | x in rest :: x in b[1..]
    ensures Ascending([b[0]] + rest)
  {
    forall j | 0 <= j < |rest|
      ensures b[0].id < rest[j].id
    {
      assert rest[j] in b[1..];
      var i :| 0 <= i < |b| - 1 && b[1..][i] == rest[j];
      assert b[i + 1] == rest[j];
    }
  }

  lemma {:induction false} FindAfterRemove(b: seq<Slot>, id: nat, n: nat)
    requires n != id
    ensures FindSlot(RemoveSlot(b, id), n) == FindSlot(b, n)
  {
    if b != [] { FindAfterRemove(b[1..], id, n); }
  }

  lemma {:induction false} RemoveKeyMeans(o: Order, k: Key)
    requires DistinctKeys(o)
    ensures var r := RemoveKey(o, k);
      && (forall x :: x in r <==> x in o && x != k)
      && DistinctKeys(r)
      && |r| == |o| - (if k in o then 1 else 0)
  {
    if o != [] {
      RemoveKeyMeans(o[1..], k);
      assert forall x :: x in o <==> x == o[0] || x in o[1..];
      assert forall x | x in o[1..] :: x.1 != o[0].1;
      var rest := RemoveKey(o[1..], k);
      assert forall j | 0 <= j < |rest| :: rest[j] in o[1..];
    }
  }

  function DropSlot(scopes: Buckets, s: Scope, id: nat): Buckets {
    if s !in scopes then scopes
    else
      var b := RemoveSlot(scopes[s], id);
      if b == [] then scopes - {s} else scopes[s := b]
  }

  predicate NotKey(x: Item, s: Scope, id: nat) { !(x.scope == s && x.id == id) }

  // Removing an entry from both indexes removes it from the list.
  lemma DropAgrees(scopes: Buckets, order: Order, nextId: nat, s: Scope, id: nat)
    requires Agree(scopes, order, nextId)
    ensures Agree(DropSlot(scopes, s, id), RemoveKey(order, (s, id)), nextId)
    ensures Flat(DropSlot(scopes, s, id), RemoveKey(order, (s, id)))
         == Keep(Flat(scopes, order), (x: Item) => NotKey(x, s, id))
  {
    RemoveKeyMeans(order, (s, id));
    var scopes' := DropSlot(scopes, s, id);
    if s in scopes {
      RemoveSlotMeans(scopes[s], id);
    }
    forall k | k in order && k != (s, id)
      ensures Present(scopes', k) && ItemAt(scopes', k) == ItemAt(scopes, k)
    {
      assert Present(scopes, k);
      if k.0 == s { FindAfterRemove(scopes[s], id, k.1); }
    }
    forall t: Scope, i: int | t in scopes' && 0 <= i < |scopes'[t]|
      ensures scopes'[t][i].id < nextId && (t, scopes'[t][i].id) in RemoveKey(order, (s, id))
    {
      assert scopes'[t][i] in scopes[t];
    }
    FlatWithout(scopes, scopes', order, s, id);
  }

  lemma {:induction false} FlatWithout(scopes: Buckets, scopes': Buckets, order: Order, s: Scope, id: nat)
    requires DistinctKeys(order)
    requires AllPresent(scopes, order)
    requires forall k | k in order && k != (s, id) ::
               Present(scopes, k) && Present(scopes', k) && ItemAt(scopes', k) == ItemAt(scopes, k)
    ensures AllPresent(scopes', RemoveKey(order, (s, id)))
    ensures Flat(scopes', RemoveKey(order, (s, id))) == Keep(Flat(scopes, order), (x: Item) => NotKey(x, s, id))
  {
    RemoveKeyMeans(order, (s, id));
    if order != [] {
      FlatWithout(scopes, scopes', order[1..], s, id);
      RemoveKeyMeans(order[1..], (s, id));
      assert Flat(scopes, order) == [ItemAt(scopes, order[0])] + Flat(scopes, order[1..]);
      hide Present, ItemAt, FindSlot;
      if order[0] == (s, id) {
        assert (s, id) !in order[1..];
        RemoveAbsent(order[1..], (s, id));
      } else {
        var rest := RemoveKey(order[1..], (s, id));
        assert RemoveKey(order, (s, id)) == [order[0]] + rest;
        assert ([order[0]] + rest)[1..] == rest;
      }
    }
  }

  lemma {:induction false} RemoveAbsent(o: Order, k: Key)
    requires k !in o
    ensures RemoveKey(o, k) == o
  {
    if o != [] { RemoveAbsent(o[1..], k); }
  }

  // ----- adding and moving -----

  function Bucket(scopes: Buckets, s: Scope): seq<Slot> {
    if s in scopes then scopes[s] else []
  }

  lemma {:induction false} FindAppended(b: seq<Slot>, x: Slot, id: nat)
    ensures FindSlot(b + [x], id) ==
            if FindSlot(b, id).Some? then FindSlot(b, id) else if x.id == id then Some(x.entry) else None
  {
    if b != [] {
      assert (b + [x])[1..] == b[1..] + [x];
      FindAppended(b[1..], x, id);
    }
  }

  lemma FlatAppend(scopes: Buckets, order: Order, k: Key)
    requires AllPresent(scopes, order) && Present(scopes, k)
    ensures Flat(scopes, order + [k]) == Flat(scopes, order) + [ItemAt(scopes, k)]
  {
    hide FindSlot;
  }

  lemma FlatSame(scopes: Buckets, scopes': Buckets, order: Order)
    requires forall k | k in order ::
               Present(scopes, k) && Present(scopes', k) && ItemAt(scopes', k) == ItemAt(scopes, k)
    ensures Flat(scopes', order) == Flat(scopes, order)
  {
  }

  function Added(scopes: Buckets, s: Scope, x: Slot): Buckets {
    scopes[s := Bucket(scopes, s) + [x]]
  }

  lemma AddedItems(scopes: Buckets, order: Order, nextId: nat, s: Scope, e: Entry)
    requires Agree(scopes, order, nextId)
    ensures var scopes' := Added(scopes, s, Slot(nextId, e));
      && Present(scopes', (s, nextId)) && ItemAt(scopes', (s, nextId)) == Item(s, nextId, e)
      && forall k | k in order :: k.1 < nextId && Present(scopes, k) && Present(scopes', k)
                                  && ItemAt(scopes', k) == ItemAt(scopes, k)
  {
    var x := Slot(nextId, e);
    FreshId(scopes, order, nextId, s);
    FindAppended(Bucket(scopes, s), x, nextId);
    forall k | k in order
      ensures k.1 < nextId && Present(Added(scopes, s, x), k) && ItemAt(Added(scopes, s, x), k) == ItemAt(scopes, k)
    {
      assert Present(scopes, k);
      if k.0 == s { FindAppended(Bucket(scopes, s), x, k.1); }
      FindMeans(scopes[k.0], k.1);
    }
  }

  // Adding a fresh entry to both indexes appends it to the list.
  lemma AddAgrees(scopes: Buckets, order: Order, nextId: nat, s: Scope, e: Entry)
    requires Agree(scopes, order, nextId)
    ensures var scopes' := Added(scopes, s, Slot(nextId, e));
      var order' := order + [(s, nextId)];
      && Agree(scopes', order', nextId + 1)
      && Flat(scopes', order') == Flat(scopes, order) + [Item(s, nextId, e)]
  {
    hide Present, ItemAt, FindSlot, Flat, Added, Ascending;
    AddedItems(scopes, order, nextId, s, e);
    var scopes' := Added(scopes, s, Slot(nextId, e));
    FlatSame(scopes, scopes', order);
    FlatAppend(scopes', order, (s, nextId));
    AddedBuckets(scopes, order, nextId, s, e);
    var order' := order + [(s, nextId)];
    assert forall k :: k in order' <==> k in order || k == (s, nextId);
  }

  lemma AddedBuckets(scopes: Buckets, order: Order, nextId: nat, s: Scope, e: Entry)
    requires Agree(scopes, order, nextId)
    ensures var scopes' := Added(scopes, s, Slot(nextId, e));
      var order' := order + [(s, nextId)];
      Ordered(scopes') && Listed(scopes', order', nextId + 1)
  {
  }

  lemma FreshId(scopes: Buckets, order: Order, nextId: nat, s: Scope)
    requires Agree(scopes, order, nextId)
    ensures FindSlot(Bucket(scopes, s), nextId).None?
  {
    if s in scopes { FindMeans(scopes[s], nextId); }
  }

  // Moving a key to the end moves its entry to the end of the list.
  lemma MoveAgrees(scopes: Buckets, order: Order, nextId: nat, k: Key)
    requires Agree(scopes, order, nextId) && k in order
    ensures var order' := RemoveKey(order, k) + [k];
      && Agree(scopes, order', nextId)
      && Flat(scopes, order') == Keep(Flat(scopes, order), (x: Item) => NotKey(x, k.0, k.1)) + [ItemAt(scopes, k)]
  {
    hide Present, ItemAt, FindSlot, Flat, Ascending, RemoveKey, Keep, NotKey;
    MovedOrder(order, k);
    assert (k.0, k.1) == k;
    FlatWithout(scopes, scopes, order, k.0, k.1);
    FlatAppend(scopes, RemoveKey(order, k), k);
  }

  lemma MovedOrder(order: Order, k: Key)
    requires k in order && DistinctKeys(order)
    ensures var order' := RemoveKey(order, k) + [k];
      && (forall x :: x in order' <==> x in order)
      && DistinctKeys(order')
  {
    RemoveKeyMeans(order, k);
    var rest := RemoveKey(order, k);
    forall i | 0 <= i < |rest|
      ensures rest[i].1 != k.1
    {
      assert rest[i] in rest;
      if rest[i].1 == k.1 { SameIdSameKey(order, rest[i], k); }
    }
  }

  lemma SameIdSameKey(order: Order, a: Key, b: Key)
    requires DistinctKeys(order)
    requires a in order && b in order && a.1 == b.1
    ensures a == b
  {
  }

  // ----- the list, seen from a bucket -----

  // Every listed entry sits in its bucket, and every slot is listed.
  lemma ListedIsInBucket(scopes: Buckets, order: Order, nextId: nat, n: nat)
    requires Agree(scopes, order, nextId) && n < |order|
    ensures var x := Flat(scopes, order)[n];
      && x.id < nextId && x.id == order[n].1 && x.scope in scopes
      && exists i :: 0 <= i < |scopes[x.scope]| && scopes[x.scope][i] == Slot(x.id, x.entry)
  {
    var x := Flat(scopes, order)[n];
    hide Flat;
    assert Present(scopes, order[n]);
    FindMeans(scopes[x.scope], x.id);
  }

  lemma SlotIsListed(scopes: Buckets, order: Order, nextId: nat, s: Scope, i: nat)
    requires Agree(scopes, order, nextId) && s in scopes && i < |scopes[s]|
    ensures Item(s, scopes[s][i].id, scopes[s][i].entry) in Flat(scopes, order)
  {
    hide Flat;
    var k := (s, scopes[s][i].id);
    assert k in order;
    var n :| 0 <= n < |order| && order[n] == k;
    FindMeans(scopes[s], scopes[s][i].id);
    assert Flat(scopes, order)[n] == ItemAt(scopes, k);
  }

  lemma FlatMembers(scopes: Buckets, order: Order, nextId: nat)
    requires Agree(scopes, order, nextId)
    ensures var items := Flat(scopes, order);
      && DistinctIds(items) && (forall x | x in items :: x.id < nextId)
      && (forall x :: x in items <==>
            x.scope in scopes && exists i :: 0 <= i < |scopes[x.scope]| && scopes[x.scope][i] == Slot(x.id, x.entry))
  {
    var items := Flat(scopes, order);
    forall n | 0 <= n < |items|
      ensures items[n].id < nextId && items[n].id == order[n].1 && items[n].scope in scopes
      ensures exists i :: 0 <= i < |scopes[items[n].scope]|
                          && scopes[items[n].scope][i] == Slot(items[n].id, items[n].entry)
    {
      ListedIsInBucket(scopes, order, nextId, n);
    }
    forall x: Item, i: nat | x.scope in scopes && i < |scopes[x.scope]| && scopes[x.scope][i] == Slot(x.id, x.entry)
      ensures x in items
    {
      SlotIsListed(scopes, order, nextId, x.scope, i);
    }
    hide Flat, AllPresent, Ordered, Listed;
  }

  ghost function IdsBelow(items: seq<Item>, s: Scope, id: nat): set<nat> {
    set x | x in items && x.scope == s && x.id < id :: x.id
  }

  lemma {:induction false} RankIsCount(items: seq<Item>, s: Scope, id: nat)
    requires DistinctIds(items)
    ensures Rank(items, s, id) == |IdsBelow(items, s, id)|
  {
    if items != [] {
      RankIsCount(items[1..], s, id);
      var rest := IdsBelow(items[1..], s, id);
      assert forall x :: x in items <==> x == items[0] || x in items[1..];
      assert items[0].id !in rest;
      assert IdsBelow(items, s, id) == rest + if items[0].scope == s && items[0].id < id then {items[0].id} else {};
    }
  }

  ghost function FirstIds(b: seq<Slot>, n: nat): set<nat>
    requires n <= |b|
  {
    set i | 0 <= i < n :: b[i].id
  }

  lemma {:induction false} FirstIdsCount(b: seq<Slot>, n: nat)
    requires Ascending(b) && n <= |b|
    ensures |FirstIds(b, n)| == n
  {
    if n > 0 {
      FirstIdsCount(b, n - 1);
      assert FirstIds(b, n) == FirstIds(b, n - 1) + {b[n - 1].id};
      assert b[n - 1].id !in FirstIds(b, n - 1);
    }
  }

  // The scan reaches an entry at its place in the bucket.
  lemma RankIsPlace(scopes: Buckets, order: Order, nextId: nat, s: Scope, i: nat)
    requires Agree(scopes, order, nextId) && s in scopes && i < |scopes[s]|
    ensures Rank(Flat(scopes, order), s, scopes[s][i].id) == i
  {
    hide AllPresent, Listed, DistinctKeys, Flat, Rank, IdsBelow, FirstIds;
    var items, b := Flat(scopes, order), scopes[s];
    FlatMembers(scopes, order, nextId);
    RankIsCount(items, s, b[i].id);
    FirstIdsCount(b, i);
    BelowIsFirst(items, s, b, i);
  }

  lemma BelowIsFirst(items: seq<Item>, s: Scope, b: seq<Slot>, i: nat)
    requires Ascending(b) && i < |b|
    requires forall x | x in items && x.scope == s :: exists j :: 0 <= j < |b| && b[j] == Slot(x.id, x.entry)
    requires forall j | 0 <= j < |b| :: Item(s, b[j].id, b[j].entry) in items
    ensures IdsBelow(items, s, b[i].id) == FirstIds(b, i)
  {
  }

  // ----- the scan -----

  // The ids of the first k entries that had expired when they were reached.
  ghost function Gone(cfg: Config, b: seq<Slot>, readings: Readings, k: nat): set<nat>
    requires k <= |b|
  {
    set j | 0 <= j < k && IsExpired(cfg, b[j].entry, readings(j)) :: b[j].id
  }

  predicate StillThere(x: Item, s: Scope, gone: set<nat>) { !(x.scope == s && x.id in gone) }

  // The list after the first k entries of the bucket were scanned.
  ghost function Remaining(cfg: Config, items: seq<Item>, s: Scope, b: seq<Slot>, readings: Readings, k: nat): seq<Item>
    requires k <= |b|
  {
    Keep(items, (x: Item) => StillThere(x, s, Gone(cfg, b, readings, k)))
  }

  lemma RemainingAtStart(cfg: Config, items: seq<Item>, s: Scope, b: seq<Slot>, readings: Readings)
    ensures Remaining(cfg, items, s, b, readings, 0) == items
  {
    KeepAll(items, (x: Item) => StillThere(x, s, Gone(cfg, b, readings, 0)));
  }

  lemma RemainingNext(cfg: Config, items: seq<Item>, s: Scope, b: seq<Slot>, readings: Readings, k: nat)
    requires k < |b|
    ensures Remaining(cfg, items, s, b, readings, k + 1) ==
            if IsExpired(cfg, b[k].entry, readings(k))
            then Keep(Remaining(cfg, items, s, b, readings, k), (x: Item) => NotKey(x, s, b[k].id))
            else Remaining(cfg, items, s, b, readings, k)
  {
    var gone, next := Gone(cfg, b, readings, k), Gone(cfg, b, readings, k + 1);
    assert next == gone + if IsExpired(cfg, b[k].entry, readings(k)) then {b[k].id} else {};
    var f, g, id := (x: Item) => StillThere(x, s, gone), (x: Item) => NotKey(x, s, b[k].id), b[k].id;
    if IsExpired(cfg, b[k].entry, readings(k)) {
      KeepTwice(items, f, g);
      KeepAgree(items, (x: Item) => f(x) && g(x), (x: Item) => StillThere(x, s, next));
    } else {
      KeepAgree(items, f, (x: Item) => StillThere(x, s, next));
    }
  }

  // The keys of the bucket still to be scanned are all there.
  predicate Unscanned(order: Order, s: Scope, b: seq<Slot>, k: nat)
    requires k <= |b|
  {
    forall j | k <= j < |b| :: (s, b[j].id) in order
  }

  lemma DropInScan(cfg: Config, scopes: Buckets, order: Order, nextId: nat, items: seq<Item>, s: Scope,
                   b: seq<Slot>, readings: Readings, k: nat)
    requires Agree(scopes, order, nextId) && Ascending(b) && k < |b|
    requires Flat(scopes, order) == Remaining(cfg, items, s, b, readings, k)
    requires IsExpired(cfg, b[k].entry, readings(k)) && Unscanned(order, s, b, k)
    ensures var scopes', order' := DropSlot(scopes, s, b[k].id), RemoveKey(order, (s, b[k].id));
      && Agree(scopes', order', nextId)
      && Flat(scopes', order') == Remaining(cfg, items, s, b, readings, k + 1)
      && Unscanned(order', s, b, k + 1)
      && |order'| == |order| - 1
  {
    hide Flat, Present, FindSlot, Remaining, Keep, DropSlot, RemoveKey;
    DropAgrees(scopes, order, nextId, s, b[k].id);
    RemoveKeyMeans(order, (s, b[k].id));
    RemainingNext(cfg, items, s, b, readings, k);
  }

  // After the whole bucket, what is left is what the lookup means to leave.
  lemma ScanLeavesLive(cfg: Config, scopes: Buckets, order: Order, nextId: nat, s: Scope, readings: Readings)
    requires Agree(scopes, order, nextId) && s in scopes
    ensures var items := Flat(scopes, order);
      Remaining(cfg, items, s, scopes[s], readings, |scopes[s]|) == Live(cfg, items, s, readings)
  {
    var items, b := Flat(scopes, order), scopes[s];
    var gone := Gone(cfg, b, readings, |b|);
    FlatMembers(scopes, order, nextId);
    forall x | x in items
      ensures StillThere(x, s, gone) == !ExpiresIn(cfg, items, s, readings, x)
    {
      if x.scope == s {
        var i :| 0 <= i < |b| && b[i] == Slot(x.id, x.entry);
        RankIsPlace(scopes, order, nextId, s, i);
        if x.id in gone {
          var j :| 0 <= j < |b| && IsExpired(cfg, b[j].entry, readings(j)) && b[j].id == x.id;
          assert i == j;
        }
      }
    }
    KeepAgree(items, (x: Item) => StillThere(x, s, gone), (x: Item) => !ExpiresIn(cfg, items, s, readings, x));
  }

  predicate Alive(cfg: Config, b: seq<Slot>, readings: Readings, j: nat)
    requires j < |b|
  {
    !IsExpired(cfg, b[j].entry, readings(j))
  }

  // The running best of the first k entries: the first of the highest score.
  predicate Leads(cfg: Config, vec: Vector, b: seq<Slot>, readings: Readings, k: nat, best: int, score: real)
    requires k <= |b|
  {
    && -1 <= best < k
    && (best == -1 ==> score == 0.0)
    && (best >= 0 ==>
          && score > 0.0 && score == cfg.score(vec, b[best].entry.vector)
          && Alive(cfg, b, readings, best))
    && (forall j | 0 <= j < k && Alive(cfg, b, readings, j) ::
          cfg.score(vec, b[j].entry.vector) <= score
          && (best >= 0 && cfg.score(vec, b[j].entry.vector) == score ==> best <= j))
  }

  predicate AliveInBucket(cfg: Config, b: seq<Slot>, readings: Readings, x: Item) {
    exists j :: 0 <= j < |b| && b[j] == Slot(x.id, x.entry) && Alive(cfg, b, readings, j)
  }

  lemma LiveInBucket(cfg: Config, scopes: Buckets, order: Order, nextId: nat, s: Scope, readings: Readings)
    requires Agree(scopes, order, nextId) && s in scopes
    ensures var live := Live(cfg, Flat(scopes, order), s, readings);
      && DistinctIds(live) && Ascending(scopes[s])
      && forall x: Item | x.scope == s :: x in live <==> AliveInBucket(cfg, scopes[s], readings, x)
  {
    var items, b := Flat(scopes, order), scopes[s];
    FlatMembers(scopes, order, nextId);
    LiveMeans(cfg, items, s, readings);
    hide Flat, Live, AllPresent, Listed;
    forall x: Item | x.scope == s
      ensures x in Live(cfg, items, s, readings) <==> AliveInBucket(cfg, b, readings, x)
    {
      if x in items {
        var i :| 0 <= i < |b| && b[i] == Slot(x.id, x.entry);
        RankIsPlace(scopes, order, nextId, s, i);
        assert forall j | 0 <= j < |b| && b[j] == Slot(x.id, x.entry) :: j == i;
      }
    }
  }

  // The scan's best is the list's best.
  lemma LeaderIsBest(cfg: Config, live: seq<Item>, s: Scope, b: seq<Slot>, readings: Readings,
                     vec: Vector, best: int, score: real)
    requires Ascending(b) && DistinctIds(live)
    requires forall x: Item | x.scope == s :: x in live <==> AliveInBucket(cfg, b, readings, x)
    requires Leads(cfg, vec, b, readings, |b|, best, score)
    ensures Best(cfg, live, s, vec) == if best == -1 then None else Some(Item(s, b[best].id, b[best].entry))
    ensures best >= 0 ==> Item(s, b[best].id, b[best].entry) in live
  {
    BestMeans(cfg, live, s, vec);
    if best >= 0 {
      var x := Item(s, b[best].id, b[best].entry);
      assert AliveInBucket(cfg, b, readings, x);
      forall y | y in live && y.scope == s
        ensures Score(cfg, vec, y) <= score && (Score(cfg, vec, y) == score ==> x.id <= y.id)
      {
        var j :| 0 <= j < |b| && b[j] == Slot(y.id, y.entry) && Alive(cfg, b, readings, j);
        assert best <= j ==> b[best].id <= b[j].id;
      }
      assert IsBest(cfg, live, s, vec, x);
      BestIsUnique(cfg, live, s, vec, x, Best(cfg, live, s, vec).value);
    } else {
      forall y | y in live && y.scope == s
        ensures Score(cfg, vec, y) <= 0.0
      {
        assert AliveInBucket(cfg, b, readings, y);
      }
    }
  }

  class SemanticCache {
    const cfg: Config
    var scopes: Buckets
    var order: Order
    var nextId: nat
    var hits: nat
    var misses: nat
    var falseHitsBlocked: nat
    var expired: nat
    var evicted: nat

    ghost predicate Valid()
      reads this
    {
      Agree(scopes, order, nextId)
    }

    ghost function View(): Cache
      reads this
      requires Valid()
    {
      Cache(Flat(scopes, order), nextId, hits, misses, falseHitsBlocked, expired, evicted)
    }

    constructor (cfg: Config)
      ensures Valid() && View() == EMPTY_CACHE && this.cfg == cfg
    {
      this.cfg := cfg;
      scopes, order, nextId := map[], [], 0;
      hits, misses, falseHitsBlocked, expired, evicted := 0, 0, 0, 0, 0;
    }

    method Drop(s: Scope, id: nat)
      modifies this`scopes, this`order
      ensures scopes == DropSlot(old(scopes), s, id)
      ensures order == RemoveKey(old(order), (s, id))
    {
      if s in scopes {
        var b := RemoveSlot(scopes[s], id);
        scopes := scopes[s := b];
        if b == [] {
          scopes := scopes - {s};
        }
      }
      order := RemoveKey(order, (s, id));
    }

    // Scans the bucket, dropping what has expired and keeping the best so far.
    method Scan(s: Scope, vec: Vector, readings: Readings) returns (best: int, score: real)
      requires Valid() && s in scopes
      modifies this`scopes, this`order, this`expired
      ensures Valid()
      ensures var b := old(scopes[s]);
        && Leads(cfg, vec, b, readings, |b|, best, score)
        && Flat(scopes, order) == Remaining(cfg, old(Flat(scopes, order)), s, b, readings, |b|)
      ensures expired - old(expired) == |old(order)| - |order|
    {
      hide DistinctKeys, AllPresent, Ordered, Listed, Flat, Remaining, DropSlot, RemoveKey, Ascending, Unscanned;
      ghost var items := Flat(scopes, order);
      var b := scopes[s];
      best, score := -1, 0.0;
      StartScan(cfg, scopes, order, nextId, s, readings);
      for k := 0 to |b|
        invariant Valid() && Ascending(b) && Unscanned(order, s, b, k)
        invariant Leads(cfg, vec, b, readings, k, best, score)
        invariant Flat(scopes, order) == Remaining(cfg, items, s, b, readings, k)
        invariant expired - old(expired) == |old(order)| - |order|
      {
        var e := b[k].entry;
        if IsExpired(cfg, e, readings(k)) {
          expired := expired + 1;
          DropInScan(cfg, scopes, order, nextId, items, s, b, readings, k);
          Drop(s, b[k].id);
          continue;
        }
        RemainingNext(cfg, items, s, b, readings, k);
        StillUnscanned(order, s, b, k);
        var sc := cfg.score(vec, e.vector);
        if sc > score {
          best, score := k, sc;
        }
      }
    }

    method Get(prompt: string, s: Scope, readings: Readings) returns (answer: Option<string>)
      requires Valid()
      modifies this
      ensures Valid()
      ensures var (c', o) := GetStep(cfg, old(View()), prompt, s, readings);
        View() == c' && answer == if o.Hit? then Some(o.response) else None
    {
      hide DistinctKeys, AllPresent, Ordered, Listed, Flat, Remaining, Ascending, RemoveKey, Live, Best;
      if s !in scopes || scopes[s] == [] {
        NothingToScan(cfg, scopes, order, nextId, s, readings, cfg.embed(prompt));
        misses := misses + 1;
        return None;
      }
      var vec := cfg.embed(prompt);
      ghost var live := Live(cfg, Flat(scopes, order), s, readings);
      var b := scopes[s];
      ScanLeavesLive(cfg, scopes, order, nextId, s, readings);
      LiveInBucket(cfg, scopes, order, nextId, s, readings);
      var best, score := Scan(s, vec, readings);
      LeaderIsBest(cfg, live, s, b, readings, vec, best, score);
      if best == -1 || score < cfg.threshold {
        misses := misses + 1;
        return None;
      }
      if b[best].entry.numbers != cfg.numbersOf(prompt) {
        falseHitsBlocked := falseHitsBlocked + 1;
        misses := misses + 1;
        return None;
      }
      MoveIsWithout(scopes, order, nextId, live, Item(s, b[best].id, b[best].entry));
      order := RemoveKey(order, (s, b[best].id)) + [(s, b[best].id)];
      hits := hits + 1;
      return Some(b[best].entry.response);
    }

    // Evicts from the front until the cache fits.
    method EvictSurplus()
      requires Valid()
      modifies this`scopes, this`order, this`evicted
      ensures Valid()
      ensures var d := Surplus(cfg, |old(order)|);
        Flat(scopes, order) == old(Flat(scopes, order))[d..] && evicted == old(evicted) + d
    {
      hide DistinctKeys, AllPresent, Ordered, Listed, Flat, DropSlot, RemoveKey;
      ghost var all := Flat(scopes, order);
      ghost var d := 0;
      while |order| > cfg.maxEntries
        invariant Valid()
        invariant 0 <= d <= |all| && Flat(scopes, order) == all[d..]
        invariant d == 0 || |order| >= cfg.maxEntries
        invariant evicted == old(evicted) + d
        decreases |order|
      {
        var (oldScope, oldId) := order[0];
        EvictFirst(scopes, order, nextId);
        order := order[1..];
        Drop(oldScope, oldId);
        evicted := evicted + 1;
        d := d + 1;
      }
      assert |order| == |all| - d;
    }

    method Put(prompt: string, response: string, s: Scope, time: real)
      requires Valid()
      modifies this
      ensures Valid()
      ensures View() == PutStep(cfg, old(View()), prompt, response, s, time).0
    {
      hide DistinctKeys, AllPresent, Ordered, Listed, Flat, DropSlot, RemoveKey;
      var id := nextId;
      nextId := nextId + 1;
      var e := Entry(prompt, response, cfg.embed(prompt), cfg.numbersOf(prompt), time);
      AddAgrees(scopes, order, id, s, e);
      scopes := scopes[s := (if s in scopes then scopes[s] else []) + [Slot(id, e)]];
      order := order + [(s, id)];
      assert Flat(scopes, order) == old(View()).items + [NewItem(cfg, id, prompt, response, s, time)];
      EvictSurplus();
    }
  }

  lemma StartScan(cfg: Config, scopes: Buckets, order: Order, nextId: nat, s: Scope, readings: Readings)
    requires Agree(scopes, order, nextId) && s in scopes
    ensures Ascending(scopes[s]) && Unscanned(order, s, scopes[s], 0)
    ensures Flat(scopes, order) == Remaining(cfg, Flat(scopes, order), s, scopes[s], readings, 0)
  {
    RemainingAtStart(cfg, Flat(scopes, order), s, scopes[s], readings);
  }

  lemma StillUnscanned(order: Order, s: Scope, b: seq<Slot>, k: nat)
    requires k < |b| && Unscanned(order, s, b, k)
    ensures Unscanned(order, s, b, k + 1)
  {
  }

  // A scope with no bucket: nothing expires and nothing matches.
  lemma NothingToScan(cfg: Config, scopes: Buckets, order: Order, nextId: nat, s: Scope, readings: Readings,
                      vec: Vector)
    requires Agree(scopes, order, nextId) && (s in scopes ==> scopes[s] == [])
    ensures var items := Flat(scopes, order);
      Live(cfg, items, s, readings) == items && Best(cfg, items, s, vec).None?
  {
    var items := Flat(scopes, order);
    FlatMembers(scopes, order, nextId);
    KeepAll(items, (x: Item) => !ExpiresIn(cfg, items, s, readings, x));
    BestMeans(cfg, items, s, vec);
  }

  lemma MoveIsWithout(scopes: Buckets, order: Order, nextId: nat, live: seq<Item>, x: Item)
    requires Agree(scopes, order, nextId) && live == Flat(scopes, order) && x in live
    ensures var order' := RemoveKey(order, (x.scope, x.id)) + [(x.scope, x.id)];
      Agree(scopes, order', nextId) && Flat(scopes, order') == Without(live, x.id) + [x]
  {
    var i :| 0 <= i < |live| && live[i] == x;
    assert order[i] == (x.scope, x.id);
    MoveAgrees(scopes, order, nextId, (x.scope, x.id));
    FlatMembers(scopes, order, nextId);
    KeepAgree(live, (y: Item) => NotKey(y, x.scope, x.id), (y: Item) => y.id != x.id);
  }

  // What a lookup leaves of its bucket, entry by entry: the one at place i stays
  // exactly when its reading, the i-th, is no more than the time to live after it
  // was stored, or entries live for ever. Other buckets stay.
  lemma BucketAfterLookup(cfg: Config, before: Cache, scopes: Buckets, order: Order, scopes': Buckets, order': Order,
                          prompt: string, s: Scope, readings: Readings, t: Scope, i: nat)
    requires Agree(scopes, order, before.nextId) && before.items == Flat(scopes, order)
    requires Agree(scopes', order', before.nextId)
    requires GetStep(cfg, before, prompt, s, readings).0.items == Flat(scopes', order')
    requires t in scopes && i < |scopes[t]|
    ensures t in scopes' && scopes[t][i] in scopes'[t] <==>
              t != s || cfg.ttlSeconds <= 0.0 || readings(i) - scopes[t][i].entry.storedAt <= cfg.ttlSeconds
  {
    var slot := scopes[t][i];
    var x := Item(t, slot.id, slot.entry);
    SoundFlat(before, scopes, order);
    SlotIff(scopes, order, before.nextId, t, slot);
    SlotIff(scopes', order', before.nextId, t, slot);
    if t == s { RankIsPlace(scopes, order, before.nextId, s, i); }
    hide GetStep, Flat, Agree, Sound, AllPresent, Listed, Ordered, DistinctKeys;
    GetMeans(cfg, before, prompt, s, readings);
    assert x in before.items;
  }

  lemma SoundFlat(c: Cache, scopes: Buckets, order: Order)
    requires Agree(scopes, order, c.nextId) && c.items == Flat(scopes, order)
    ensures Sound(c)
  {
    FlatMembers(scopes, order, c.nextId);
  }

  lemma SlotIff(scopes: Buckets, order: Order, nextId: nat, s: Scope, slot: Slot)
    requires Agree(scopes, order, nextId)
    ensures Item(s, slot.id, slot.entry) in Flat(scopes, order) <==> s in scopes && slot in scopes[s]
  {
    FlatMembers(scopes, order, nextId);
    hide Agree, Flat;
    if s in scopes && slot in scopes[s] {
      var i :| 0 <= i < |scopes[s]| && scopes[s][i] == slot;
      var x := Item(s, slot.id, slot.entry);
      assert scopes[x.scope][i] == Slot(x.id, x.entry);
    }
  }

  // Taking the first key off the order and dropping its entry takes the first
  // entry off the list.
  lemma EvictFirst(scopes: Buckets, order: Order, nextId: nat)
    requires Agree(scopes, order, nextId) && order != []
    ensures var (s, id) := order[0];
      var order' := RemoveKey(order[1..], (s, id));
      && order' == order[1..]
      && Agree(DropSlot(scopes, s, id), order', nextId)
      && Flat(DropSlot(scopes, s, id), order') == Flat(scopes, order)[1..]
  {
    var (s, id) := order[0];
    assert (s, id) !in order[1..];
    RemoveAbsent(order[1..], (s, id));
    assert RemoveKey(order, (s, id)) == order[1..];
    DropAgrees(scopes, order, nextId, s, id);
    var items := Flat(scopes, order);
    FlatMembers(scopes, order, nextId);
    assert Keep(items, (x: Item) => NotKey(x, s, id)) == Keep(items[1..], (x: Item) => NotKey(x, s, id));
    KeepAll(items[1..], (x: Item) => NotKey(x, s, id));
  }
}
