/** The API server's field ownership rules, as the operator relies on them: an
    object is its field values plus the record of which manager owns which field.
    A write by apply lists every field its manager wants; a write by update sends
    the whole object. */
module ServerSideApply {
  import opened Wrappers

  datatype Operation = Apply | Update

  // The same name under the two operations is two managers.
  datatype Manager = Manager(name: string, operation: Operation)

  datatype Object<F(==), V(==)> = Object(values: map<F, V>, owners: set<(Manager, F)>)

  // A write that was refused, with the fields it clashed on.
  datatype Conflict<F> = Conflict(fields: set<F>)

  predicate Valid<F(==), V(==)>(o: Object<F, V>) {
    forall c | c in o.owners :: c.1 in o.values
  }

  predicate OwnedByOther<F(==), V(==)>(o: Object<F, V>, m: Manager, f: F) {
    exists c | c in o.owners :: c.0 != m && c.1 == f
  }

  // Fields the configuration would change under another manager.
  function Conflicts<F(==), V(==)>(o: Object<F, V>, m: Manager, config: map<F, V>): set<F> {
    set c | c in o.owners && c.0 != m && c.1 in config && Differs(o, config, c.1) :: c.1
  }

  predicate Differs<F(==), V(==)>(o: Object<F, V>, config: map<F, V>, f: F)
    requires f in config
  {
    f !in o.values || o.values[f] != config[f]
  }

  // Fields the manager listed before, lists no longer, and nobody else owns.
  function Abandoned<F(==), V(==)>(o: Object<F, V>, m: Manager, config: map<F, V>): set<F> {
    set c | c in o.owners && c.0 == m && c.1 !in config && !OwnedByOther(o, m, c.1) :: c.1
  }

  // The object after an apply that was accepted. Fields still missing afterwards
  // get the server's defaults, which nobody owns.
  function Merge<F(==), V(==)>(o: Object<F, V>, m: Manager, config: map<F, V>, defaults: map<F, V>)
    : Object<F, V>
  {
    Object(
      defaults + (o.values - Abandoned(o, m, config)) + config,
      (set c | c in o.owners && c.0 != m && !(c.1 in config && Differs(o, config, c.1)))
      + (set f | f in config :: (m, f)))
  }

  // A server-side apply. Without force, a clash refuses the whole write.
  function ApplyWrite<F(==), V(==)>(o: Object<F, V>, m: Manager, config: map<F, V>, force: bool,
                                    defaults: map<F, V>): Result<Object<F, V>, Conflict<F>>
  {
    if force || Conflicts(o, m, config) == {} then Ok(Merge(o, m, config, defaults))
    else Err(Conflict(Conflicts(o, m, config)))
  }

  function Changed<F(==), V(==)>(o: Object<F, V>, next: map<F, V>): set<F> {
    set f | f in next && Differs(o, next, f)
  }

  // A plain write of the whole object, defaulted before it is compared. The
  // writer takes over every field whose value it changes.
  function UpdateWrite<F(==), V(==)>(o: Object<F, V>, m: Manager, sent: map<F, V>, defaults: map<F, V>)
    : Object<F, V>
  {
    var next := defaults + sent;
    var changed := Changed(o, next);
    Object(
      next,
      (set c | c in o.owners && c.1 in next && c.1 !in changed) + (set f | f in changed :: (m, f)))
  }

  // The manager applies one configuration after another, forcing each.
  function ApplyAll<F(==), V(==)>(o: Object<F, V>, m: Manager, configs: seq<map<F, V>>,
                                  defaults: map<F, V>): Object<F, V>
  {
    if configs == [] then o
    else
      var n := |configs| - 1;
      Merge(ApplyAll(o, m, configs[..n], defaults), m, configs[n], defaults)
  }

  predicate Listed<F(==), V(==)>(configs: seq<map<F, V>>, f: F) {
    exists i | 0 <= i < |configs| :: f in configs[i]
  }

  predicate AlwaysAs<F(==), V(==)>(configs: seq<map<F, V>>, f: F, v: V) {
    forall i | 0 <= i < |configs| :: f in configs[i] ==> configs[i][f] == v
  }

  // The fields of the starting object that the whole sequence leaves alone:
  // never the manager's, or shared with a manager nobody ever contradicted.
  predicate Survives<F(==), V(==)>(o: Object<F, V>, m: Manager, configs: seq<map<F, V>>, f: F) {
    && f in o.values
    && ((OwnedByOther(o, m, f) && AlwaysAs(configs, f, o.values[f]))
        || ((m, f) !in o.owners && !Listed(configs, f)))
  }

  // An unforced apply is refused exactly when some other manager owns a field it
  // lists with another value than it asks for.
  lemma RefusedIff<F, V>(o: Object<F, V>, m: Manager, config: map<F, V>, defaults: map<F, V>)
    requires Valid(o)
    ensures ApplyWrite(o, m, config, true, defaults).Ok?
    ensures ApplyWrite(o, m, config, false, defaults).Err? <==>
              exists n, f :: n != m && (n, f) in o.owners && f in config && o.values[f] != config[f]
  {
    if ApplyWrite(o, m, config, false, defaults).Err? {
      var g :| g in Conflicts(o, m, config);
      var c :| c in o.owners && c.0 != m && c.1 in config && Differs(o, config, c.1) && c.1 == g;
      assert (c.0, c.1) == c;
    }
    forall n, f | n != m && (n, f) in o.owners && f in config && o.values[f] != config[f]
      ensures f in Conflicts(o, m, config)
    {
      var c := (n, f);
      assert c.0 != m && c.1 == f;
    }
  }

  // A plain write, field by field: the values sent, or the defaults for what was
  // left out; the writer alone owns what it changed, and what it did not change
  // keeps its owners.
  lemma UpdateAt<F, V>(o: Object<F, V>, m: Manager, sent: map<F, V>, defaults: map<F, V>, f: F)
    requires Valid(o)
    ensures var r := UpdateWrite(o, m, sent, defaults);
      && Valid(r)
      && (f in r.values <==> f in sent || f in defaults)
      && (f in sent ==> r.values[f] == sent[f])
      && (f in defaults && f !in sent ==> r.values[f] == defaults[f])
      && (f !in r.values ==> forall n :: (n, f) !in r.owners)
      && (f in r.values && f in o.values && o.values[f] == r.values[f] ==>
            forall n :: (n, f) in r.owners <==> (n, f) in o.owners)
      && (f in r.values && !(f in o.values && o.values[f] == r.values[f]) ==>
            forall n :: (n, f) in r.owners <==> n == m)
  {
  }

  // One apply on a valid object, field by field.
  lemma MergeAt<F, V>(o: Object<F, V>, m: Manager, config: map<F, V>, defaults: map<F, V>, f: F)
    requires Valid(o)
    ensures var r := Merge(o, m, config, defaults);
      && Valid(r)
      && ((m, f) in r.owners <==> f in config)
      && (f in config ==> f in r.values && r.values[f] == config[f])
      && (f !in config && f in o.values && ((m, f) !in o.owners || OwnedByOther(o, m, f))
          ==> f in r.values && r.values[f] == o.values[f])
      && (f !in config && !(f in o.values && ((m, f) !in o.owners || OwnedByOther(o, m, f)))
          ==> (f in r.values <==> f in defaults) && (f in defaults ==> r.values[f] == defaults[f]))
  {
  }

  // Applying the same configuration again changes nothing, value or owner.
  lemma MergeTwice<F, V>(o: Object<F, V>, m: Manager, config: map<F, V>, defaults: map<F, V>)
    requires Valid(o)
    ensures var r := Merge(o, m, config, defaults); Merge(r, m, config, defaults) == r
  {
    MergedAgrees(o, m, config, defaults);
    AgreedIsKept(Merge(o, m, config, defaults), m, config, defaults);
  }

  // The configuration is already the object's, and all the manager owns.
  predicate Agrees<F(==), V(==)>(o: Object<F, V>, m: Manager, config: map<F, V>, defaults: map<F, V>) {
    && (forall f | f in config :: f in o.values && o.values[f] == config[f] && (m, f) in o.owners)
    && (forall c | c in o.owners && c.0 == m :: c.1 in config)
    && (forall f | f in defaults :: f in o.values)
  }

  lemma MergedAgrees<F, V>(o: Object<F, V>, m: Manager, config: map<F, V>, defaults: map<F, V>)
    ensures Agrees(Merge(o, m, config, defaults), m, config, defaults)
  {
  }

  lemma AgreedIsKept<F, V>(o: Object<F, V>, m: Manager, config: map<F, V>, defaults: map<F, V>)
    requires Agrees(o, m, config, defaults)
    ensures Merge(o, m, config, defaults) == o
  {
  }

  // History independence: whatever was applied before, the manager ends up
  // owning exactly the last configuration, other managers keep exactly what no
  // configuration contradicted, and every other field is left or removed by the
  // starting object and the set of fields ever listed, never by the order.
  lemma {:induction false} ApplyAllResult<F(!new), V>(
      o: Object<F, V>, m: Manager, configs: seq<map<F, V>>, defaults: map<F, V>)
    requires Valid(o) && configs != []
    ensures var r := ApplyAll(o, m, configs, defaults);
      var last := configs[|configs| - 1];
      && Valid(r)
      && (forall f :: (m, f) in r.owners <==> f in last)
      && (forall n, f | n != m :: (n, f) in r.owners <==>
            (n, f) in o.owners && AlwaysAs(configs, f, o.values[f]))
      && (forall f | f in last :: f in r.values && r.values[f] == last[f])
      && (forall f | f !in last :: Survives(o, m, configs, f)
            ==> f in r.values && r.values[f] == o.values[f])
      && (forall f | f !in last :: !Survives(o, m, configs, f)
            ==> (f in r.values <==> f in defaults) && (f in defaults ==> r.values[f] == defaults[f]))
  {
    var n := |configs| - 1;
    var prefix, last := configs[..n], configs[n];
    var p := ApplyAll(o, m, prefix, defaults);
    if prefix != [] {
      ApplyAllResult(o, m, prefix, defaults);
    }
    var r := ApplyAll(o, m, configs, defaults);
    assert r == Merge(p, m, last, defaults);
    forall f
      ensures (m, f) in r.owners <==> f in last
      ensures f in last ==> f in r.values && r.values[f] == last[f]
      ensures f !in last && Survives(o, m, configs, f) ==> f in r.values && r.values[f] == o.values[f]
      ensures f !in last && !Survives(o, m, configs, f)
              ==> (f in r.values <==> f in defaults) && (f in defaults ==> r.values[f] == defaults[f])
      ensures forall k | k != m :: (k, f) in r.owners <==>
                (k, f) in o.owners && AlwaysAs(configs, f, o.values[f])
    {
      MergeAt(p, m, last, defaults, f);
      SplitLast(configs, f);
    }
  }

  // With nobody else writing, only the last configuration matters at all.
  lemma OnlyTheLastMatters<F(!new), V>(m: Manager, configs: seq<map<F, V>>, defaults: map<F, V>)
    requires configs != []
    ensures var empty := Object(map[], {});
      ApplyAll(empty, m, configs, defaults) == Merge(empty, m, configs[|configs| - 1], defaults)
  {
    var empty: Object<F, V> := Object(map[], {});
    var last := configs[|configs| - 1];
    var r, once := ApplyAll(empty, m, configs, defaults), Merge(empty, m, last, defaults);
    ApplyAllResult(empty, m, configs, defaults);
    forall f
      ensures f in r.values <==> f in once.values
      ensures f in r.values ==> r.values[f] == once.values[f]
    {
      MergeAt(empty, m, last, defaults, f);
    }
    assert r.values == once.values;
    forall c
      ensures c in r.owners <==> c in once.owners
    {
      if c.0 == m { MergeAt(empty, m, last, defaults, c.1); }
      assert c == (c.0, c.1);
    }
  }

  lemma SplitLast<F, V>(configs: seq<map<F, V>>, f: F)
    requires configs != []
    ensures var n := |configs| - 1;
      && (Listed(configs, f) <==> Listed(configs[..n], f) || f in configs[n])
      && (forall v :: AlwaysAs(configs, f, v) <==>
            AlwaysAs(configs[..n], f, v) && (f in configs[n] ==> configs[n][f] == v))
  {
  }
}
