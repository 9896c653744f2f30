/** `compareProviderAndDb`: the set-difference reconciler. The callbacks are
    state transformers; the `Promise.allSettled` fan-out of each group is
    run one callback after another, in list order. */
module Compare {
  import opened Wrappers

  predicate Distinct<T(==,!new)>(xs: seq<T>)
  {
    forall i, j :: 0 <= i < j < |xs| ==> xs[i] != xs[j]
  }

  function SetOf<T(==,!new)>(xs: seq<T>): set<T>
  {
    set x | x in xs
  }

  /** `Array.from(new Set(xs))`: each element once, at its first occurrence. */
  function Dedup<T(==,!new)>(xs: seq<T>): (r: seq<T>)
    ensures forall x :: x in r <==> x in xs
    ensures Distinct(r)
    decreases |xs|
  {
    if xs == [] then []
    else
      var d := Dedup(xs[..|xs| - 1]);
      var last := xs[|xs| - 1];
      assert forall x :: x in xs <==> x in xs[..|xs| - 1] || x == last;
      if last in d then d else d + [last]
  }

  /** The elements of `xs` that are not in `ys`, in the order of `xs`. */
  function Without<T(==,!new)>(xs: seq<T>, ys: seq<T>): (r: seq<T>)
    ensures forall x :: x in r <==> x in xs && x !in ys
    ensures Distinct(xs) ==> Distinct(r)
    decreases |xs|
  {
    if xs == [] then []
    else
      var p := xs[..|xs| - 1];
      var last := xs[|xs| - 1];
      assert forall x :: x in xs <==> x in p || x == last;
      assert Distinct(xs) ==> Distinct(p) && last !in p;
      Without(p, ys) + (if last in ys then [] else [last])
  }

  /** `Array.from(new Set(xs).difference(new Set(ys)))`. */
  function Difference<T(==,!new)>(xs: seq<T>, ys: seq<T>): (r: seq<T>)
    ensures forall x :: x in r <==> x in xs && x !in ys
    ensures Distinct(r)
  {
    Without(Dedup(xs), ys)
  }

  /** The state and the number of fulfilled callbacks after one group has
      settled. A rejected callback leaves the state as it found it. */
  datatype Settled<S> = Settled(state: S, succeeded: nat)

  /** The group settled in list order. Every element gets its callback,
      whatever happened to the ones before it. */
  function Settle<S, T>(s: S, items: seq<T>, f: (S, T) -> Result<S>): (r: Settled<S>)
    ensures r.succeeded <= |items|
    decreases |items|
  {
    if items == [] then Settled(s, 0)
    else
      var p := Settle(s, items[..|items| - 1], f);
      var res := f(p.state, items[|items| - 1]);
      if res.Ok? then Settled(res.value, p.succeeded + 1) else Settled(p.state, p.succeeded)
  }

  datatype Call<T> = Insert(item: T) | Delete(item: T)

  /** The result `{ inserted, deleted }`, the state reached, and the
      callbacks made, in order. */
  datatype Compared<S, T> = Compared(inserted: nat, deleted: nat, state: S, calls: seq<Call<T>>)

  function InsertCalls<T>(xs: seq<T>): (r: seq<Call<T>>)
    ensures |r| == |xs| && forall i :: 0 <= i < |xs| ==> r[i] == Insert(xs[i])
  {
    seq(|xs|, i requires 0 <= i < |xs| => Insert(xs[i]))
  }

  function DeleteCalls<T>(xs: seq<T>): (r: seq<Call<T>>)
    ensures |r| == |xs| && forall i :: 0 <= i < |xs| ==> r[i] == Delete(xs[i])
  {
    seq(|xs|, i requires 0 <= i < |xs| => Delete(xs[i]))
  }

  /** What `compareProviderAndDb` does: the inserts for provider-only
      elements all settle, then the deletes for db-only elements. `calls`
      lists the callbacks as they are planned, one per element of the two
      differences; `Settle` applies its callback to every element in turn,
      whatever the earlier ones returned, so these are also the callbacks
      made. */
  function Reconcile<S, T(==,!new)>(s: S, providerData: seq<T>, dbData: seq<T>,
                               insertToDb: (S, T) -> Result<S>, deleteFromDb: (S, T) -> Result<S>): Compared<S, T>
  {
    if providerData == [] && dbData == [] then Compared(0, 0, s, [])
    else
      var toInsert := Difference(providerData, dbData);
      var ins := Settle(s, toInsert, insertToDb);
      var toDelete := Difference(dbData, providerData);
      var del := Settle(ins.state, toDelete, deleteFromDb);
      Compared(ins.succeeded, del.succeeded, del.state, InsertCalls(toInsert) + DeleteCalls(toDelete))
  }

  method SettleAll<S, T>(s: S, items: seq<T>, f: (S, T) -> Result<S>) returns (r: Settled<S>)
    ensures r == Settle(s, items, f)
  {
    var state := s;
    var count := 0;
    var i := 0;
    while i < |items|
      invariant 0 <= i <= |items|
      invariant Settled(state, count) == Settle(s, items[..i], f)
    {
      assert items[..i + 1][..i] == items[..i];
      var res := f(state, items[i]);
      if res.Ok? {
        state := res.value;
        count := count + 1;
      }
      i := i + 1;
    }
    assert items[..i] == items;
    r := Settled(state, count);
  }

  method CompareProviderAndDb<S, T(==,!new)>(s: S, providerData: seq<T>, dbData: seq<T>,
                                        insertToDb: (S, T) -> Result<S>, deleteFromDb: (S, T) -> Result<S>)
    returns (r: Compared<S, T>)
    ensures r == Reconcile(s, providerData, dbData, insertToDb, deleteFromDb)
  {
    if |providerData| == 0 && |dbData| == 0 {
      return Compared(0, 0, s, []);
    }
    var toInsert := Difference(providerData, dbData);
    var ins := SettleAll(s, toInsert, insertToDb);
    var toDelete := Difference(dbData, providerData);
    var del := SettleAll(ins.state, toDelete, deleteFromDb);
    r := Compared(ins.succeeded, del.succeeded, del.state, InsertCalls(toInsert) + DeleteCalls(toDelete));
  }

  // ---------------------------------------------------------------------
  // Properties

  lemma {:induction false} DistinctCardinality<T(!new)>(xs: seq<T>)
    requires Distinct(xs)
    ensures |SetOf(xs)| == |xs|
    decreases |xs|
  {
    if xs != [] {
      var p := xs[..|xs| - 1];
      DistinctCardinality(p);
      assert SetOf(xs) == SetOf(p) + {xs[|xs| - 1]};
      assert xs[|xs| - 1] !in SetOf(p);
    }
  }

  /** The calls for `a` and `b` name exactly their elements. */
  lemma CallsMembers<T(!new)>(a: seq<T>, b: seq<T>)
    ensures var c := InsertCalls(a) + DeleteCalls(b);
      && (forall x :: Insert(x) in c <==> x in a)
      && (forall x :: Delete(x) in c <==> x in b)
  {
    var c := InsertCalls(a) + DeleteCalls(b);
    forall x ensures Insert(x) in c <==> x in a {
      if Insert(x) in c {
        var i :| 0 <= i < |c| && c[i] == Insert(x);
        assert i < |a| && a[i] == x;
      }
      if x in a {
        var i :| 0 <= i < |a| && a[i] == x;
        assert c[i] == Insert(x);
      }
    }
    forall x ensures Delete(x) in c <==> x in b {
      if Delete(x) in c {
        var i :| 0 <= i < |c| && c[i] == Delete(x);
        assert i >= |a| && b[i - |a|] == x;
      }
      if x in b {
        var i :| 0 <= i < |b| && b[i] == x;
        assert c[|a| + i] == Delete(x);
      }
    }
  }

  /** The calls for distinct `a` and `b` are distinct, inserts first. */
  lemma CallsOrdered<T(!new)>(a: seq<T>, b: seq<T>)
    requires Distinct(a) && Distinct(b)
    ensures var c := InsertCalls(a) + DeleteCalls(b);
      && Distinct(c)
      && (forall j, k :: 0 <= j < k < |c| && c[j].Delete? ==> c[k].Delete?)
  {
    var c := InsertCalls(a) + DeleteCalls(b);
    forall j, k | 0 <= j < k < |c| ensures c[j] != c[k] {
      if k < |a| {
        assert a[j] != a[k];
      } else if j >= |a| {
        assert b[j - |a|] != b[k - |a|];
      }
    }
  }

  /** The inserts for `a` followed by the deletes for `b`. */
  lemma CallsShape<T(!new)>(a: seq<T>, b: seq<T>)
    requires Distinct(a) && Distinct(b)
    ensures var c := InsertCalls(a) + DeleteCalls(b);
      && (forall x :: Insert(x) in c <==> x in a)
      && (forall x :: Delete(x) in c <==> x in b)
      && Distinct(c)
      && (forall j, k :: 0 <= j < k < |c| && c[j].Delete? ==> c[k].Delete?)
  {
    CallsMembers(a, b);
    CallsOrdered(a, b);
  }

  /** Each distinct provider-only element gets exactly one insert callback,
      each distinct db-only element exactly one delete callback, elements
      on both sides get none, and every insert comes before every delete. */
  lemma ReconcileCalls<S, T(!new)>(s: S, providerData: seq<T>, dbData: seq<T>,
                                 insertToDb: (S, T) -> Result<S>, deleteFromDb: (S, T) -> Result<S>)
    ensures var c := Reconcile(s, providerData, dbData, insertToDb, deleteFromDb).calls;
      && (forall x :: Insert(x) in c <==> x in providerData && x !in dbData)
      && (forall x :: Delete(x) in c <==> x in dbData && x !in providerData)
      && Distinct(c)
      && (forall j, k :: 0 <= j < k < |c| && c[j].Delete? ==> c[k].Delete?)
  {
    if providerData != [] || dbData != [] {
      CallsShape(Difference(providerData, dbData), Difference(dbData, providerData));
    }
  }

  /** If both inputs are empty nothing is called and both counts are 0. */
  lemma ReconcileEmpty<S, T(!new)>(s: S, insertToDb: (S, T) -> Result<S>, deleteFromDb: (S, T) -> Result<S>)
    ensures Reconcile(s, [], [], insertToDb, deleteFromDb) == Compared(0, 0, s, [])
  {
  }

  lemma {:induction false} SettleAllSucceed<S, T>(s: S, items: seq<T>, f: (S, T) -> Result<S>)
    requires forall st, k :: 0 <= k < |items| ==> f(st, items[k]).Ok?
    ensures Settle(s, items, f).succeeded == |items|
    decreases |items|
  {
    if items != [] {
      var p := items[..|items| - 1];
      assert forall k :: 0 <= k < |p| ==> p[k] == items[k];
      SettleAllSucceed(s, p, f);
    }
  }

  /** `inserted` counts fulfilled insert callbacks: at most the number of
      distinct provider-only elements, and exactly that many when every
      insert succeeds; likewise `deleted`. */
  lemma ReconcileCounts<S, T(!new)>(s: S, providerData: seq<T>, dbData: seq<T>,
                                  insertToDb: (S, T) -> Result<S>, deleteFromDb: (S, T) -> Result<S>)
    ensures var r := Reconcile(s, providerData, dbData, insertToDb, deleteFromDb);
      && r.inserted <= |SetOf(providerData) - SetOf(dbData)|
      && r.deleted <= |SetOf(dbData) - SetOf(providerData)|
      && ((forall st, x :: insertToDb(st, x).Ok?) ==> r.inserted == |SetOf(providerData) - SetOf(dbData)|)
      && ((forall st, x :: deleteFromDb(st, x).Ok?) ==> r.deleted == |SetOf(dbData) - SetOf(providerData)|)
  {
    var toInsert := Difference(providerData, dbData);
    var toDelete := Difference(dbData, providerData);
    assert SetOf(toInsert) == SetOf(providerData) - SetOf(dbData);
    assert SetOf(toDelete) == SetOf(dbData) - SetOf(providerData);
    DistinctCardinality(toInsert);
    DistinctCardinality(toDelete);
    if providerData != [] || dbData != [] {
      var ins := Settle(s, toInsert, insertToDb);
      if forall st, x :: insertToDb(st, x).Ok? {
        SettleAllSucceed(s, toInsert, insertToDb);
      }
      if forall st, x :: deleteFromDb(st, x).Ok? {
        SettleAllSucceed(ins.state, toDelete, deleteFromDb);
      }
    }
  }
}
