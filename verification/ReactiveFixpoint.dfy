/** Order independence: at quiescence the active plugins are the least set closed under the dependency
    relation, whatever order they were loaded in and however the transitions interleaved. */
module ReactiveFixpoint {
  import opened Options
  import opened Reactive
  import opened ReactiveWf
  import opened ReactiveDriver
  import opened ReactiveQuiescence
  import opened ReactiveLifecycle
  import opened ReactiveRequests
  import opened ReactiveSupport
  import opened ReactiveEffects
  import opened ReactiveOwnership
  import opened ReactiveTheorems

  /** A service by name and scope. */
  datatype Service = Service(name: Name, at: Label)

  /** Static description of an application: what each plugin needs, what it provides while active, and what
      the root provides. */
  datatype World = World(needs: map<nat, set<Service>>, gives: map<nat, set<Service>>, host: set<Service>)

  ghost predicate Available(w: World, up: set<nat>, need: Service) {
    need in w.host || exists j :: j in up && j in w.gives && need in w.gives[j]
  }

  ghost predicate Satisfied(w: World, up: set<nat>, id: nat) {
    id in w.needs && forall need :: need in w.needs[id] ==> Available(w, up, need)
  }

  /** Every plugin whose needs `up` satisfies is in `up`. */
  ghost predicate Closed(w: World, up: set<nat>) {
    forall id :: Satisfied(w, up, id) ==> id in up
  }

  /** The least fixpoint of the dependency relation. */
  ghost predicate LeastClosed(w: World, up: set<nat>) {
    up <= w.needs.Keys && Closed(w, up) && forall other: set<nat> :: Closed(w, other) ==> up <= other
  }

  lemma LeastClosedUnique(w: World, a: set<nat>, b: set<nat>)
    ensures LeastClosed(w, a) && LeastClosed(w, b) ==> a == b
  {}

  /** What a fiber has registered, if its availability predicate passes. */
  function Provided(c: Core, p: nat): set<Service> {
    set at | at in c.bindings && c.bindings[at] in c.store && c.store[c.bindings[at]].provider == p
        && c.store[c.bindings[at]].available
      :: Service(c.store[c.bindings[at]].name, at)
  }

  function Needed(fib: Fiber): set<Service> {
    set n | n in fib.fixed.inject :: Service(n, LabelOf(fib, n))
  }

  /** `id` names the plugin of every fiber in service, and `w` describes them: each active fiber has
      registered exactly what its plugin provides. */
  ghost predicate Describes(c: Core, id: map<nat, nat>, w: World) {
    && (forall f :: f in id <==> InService(c, f))
    && (forall f, g :: f in id && g in id && id[f] == id[g] ==> f == g)
    && (forall k :: k in w.needs <==> exists f :: f in id && id[f] == k)
    && (forall f :: f in id ==> id[f] in w.needs && w.needs[id[f]] == Needed(c.fibers[f]))
    && (forall f :: f in id && c.fibers[f].life.state == Active ==>
        id[f] in w.gives && w.gives[id[f]] == Provided(c, f))
    && w.host == (if IsActive(c, 0) then Provided(c, 0) else {})
  }

  function ActivePlugins(c: Core, id: map<nat, nat>): set<nat> {
    set f | f in id && IsActive(c, f) :: id[f]
  }

  /** No plugin body of a fiber in service failed. */
  predicate NoneFailed(c: Core) {
    forall f :: f in c.fibers && InService(c, f) ==> c.fibers[f].life.state != Failed
  }

  /** No registered service of a plugin was made while no generation of the plugin stood. */
  predicate OwnedByGenerations(c: Core) {
    forall at :: at in c.bindings ==> !Stray(c, c.bindings[at])
  }

  predicate Stray(c: Core, e: nat) {
    e in c.store && c.store[e].provider in c.fibers && e in c.fibers[c.store[e].provider].strays
  }

  /** At rest a registration that is not a stray is its provider's standing generation's. */
  lemma QuietOwned(s: Sys, at: Label)
    ensures Inv(s) && Quiet(s) && OwnedByGenerations(s.core) && at in s.core.bindings ==>
      var e := s.core.bindings[at];
      e in s.core.store && var p := s.core.store[e].provider; p != 0 ==> p in s.core.fibers && e in s.core.fibers[p].own
  {
    hide SysWf, SingleOwner, TreeOk, TracedOk, FiberInv;
    if Inv(s) && Quiet(s) && OwnedByGenerations(s.core) && at in s.core.bindings {
      assert SlotOk(s.core, at) && !Stray(s.core, s.core.bindings[at]);
      QuietRecorded(s, s.core.bindings[at]);
    }
  }

  /** Only fibers in service and the root are active when nothing is in flight. */
  lemma QuietActive(s: Sys, p: nat)
    ensures Inv(s) && Quiet(s) && IsActive(s.core, p) && p != 0 ==> InService(s.core, p)
  {
    hide SysWf, EffectsInv;
    if Inv(s) && Quiet(s) && IsActive(s.core, p) && p != 0 {
      assert FiberInv(s, p);
      assert !HasOwner(s.pool, p) && AtRest(s.core.fibers[p]);
      assert IdleKnows(s.core.fibers[p], RefreshPending(s.pool, p), DisposePending(s.pool, p));
    }
  }

  /** What an active fiber has registered, the registry resolves. */
  lemma ProvidedFound(c: Core, p: nat, name: Name, at: Label)
    ensures IsActive(c, p) && Service(name, at) in Provided(c, p) ==>
      Lookup(c, at, name) == Some(c.bindings[at]) && c.bindings[at] in c.store
      && c.store[c.bindings[at]].provider == p
  {}

  lemma AvailableFound(s: Sys, id: map<nat, nat>, w: World, name: Name, at: Label)
    ensures Describes(s.core, id, w) && Available(w, ActivePlugins(s.core, id), Service(name, at)) ==>
      Lookup(s.core, at, name).Some?
  {
    if Describes(s.core, id, w) && Available(w, ActivePlugins(s.core, id), Service(name, at)) {
      var c, need := s.core, Service(name, at);
      if need in w.host {
        ProvidedFound(c, 0, name, at);
      } else {
        var j :| j in ActivePlugins(c, id) && j in w.gives && need in w.gives[j];
        var p :| p in id && IsActive(c, p) && id[p] == j;
        ProvidedFound(c, p, name, at);
      }
    }
  }

  lemma ActiveClosed(s: Sys, id: map<nat, nat>, w: World)
    ensures Inv(s) && AllConsistent(s) && Quiet(s) && Describes(s.core, id, w) && NoneFailed(s.core) ==>
      Closed(w, ActivePlugins(s.core, id))
  {
    hide Inv, AllConsistent;
    if Inv(s) && AllConsistent(s) && Quiet(s) && Describes(s.core, id, w) && NoneFailed(s.core) {
      var c, up := s.core, ActivePlugins(s.core, id);
      forall k | Satisfied(w, up, k) ensures k in up {
        var f :| f in id && id[f] == k;
        QuietConverged(s, f);
        hide Inv, AllConsistent;
        forall n | n in c.fibers[f].fixed.inject ensures Current(c, c.fibers[f], n).Some? {
          var need := Service(n, LabelOf(c.fibers[f], n));
          assert need in Needed(c.fibers[f]);
          assert Available(w, up, need);
          AvailableFound(s, id, w, n, LabelOf(c.fibers[f], n));
        }
        assert c.fibers[f].life.epoch != Inactive;
      }
    }
  }

  /** An active plugin is in every closed set: its providers were committed before it. */
  lemma {:induction false} ActiveInClosed(s: Sys, id: map<nat, nat>, w: World, other: set<nat>, f: nat)
    requires Inv(s) && AllConsistent(s) && Quiet(s) && Describes(s.core, id, w) && OwnedByGenerations(s.core)
    requires Closed(w, other) && f in id && IsActive(s.core, f)
    ensures id[f] in other
    decreases BaseOf(s.core, f)
  {
    hide Inv, AllConsistent, OwnedByGenerations, Supports, BaseOf;
    var c, fib := s.core, s.core.fibers[f];
    QuietConverged(s, f);
    forall need | need in w.needs[id[f]] ensures Available(w, other, need) {
      assert need in Needed(fib);
      var n :| n in fib.fixed.inject && need == Service(n, LabelOf(fib, n));
      assert Current(c, fib, n).Some?;
      var p := c.store[c.bindings[LabelOf(fib, n)]].provider;
      assert IsActive(c, p) && need in Provided(c, p);
      if p != 0 {
        QuietActive(s, p);
        QuietOwned(s, LabelOf(fib, n));
        Grounded(s, p, f, n);
        ActiveInClosed(s, id, w, other, p);
        assert id[p] in other && need in w.gives[id[p]];
      }
    }
    assert Satisfied(w, other, id[f]);
  }

  /** The provider an active fiber converged on was committed before it. */
  lemma Grounded(s: Sys, p: nat, f: nat, n: Name)
    requires Inv(s) && Converged(s.core, f) && s.core.fibers[f].life.state == Active && f != 0 && p != 0
    requires n in s.core.fibers[f].fixed.inject && Current(s.core, s.core.fibers[f], n).Some?
    requires var e := Current(s.core, s.core.fibers[f], n).value;
      e in s.core.store && s.core.store[e].provider == p && p in s.core.fibers && e in s.core.fibers[p].own
    ensures BaseOf(s.core, p) < BaseOf(s.core, f)
  {
    hide SysWf, SingleOwner, EffectsInv, LifeOk, RequestsOk;
    assert Supports(s.core, p, f, n);
    assert FiberInv(s, p) && FiberInv(s, f);
    SupportGrounded(s, p, f, n);
  }

  /** The active plugins of a quiescent application in which no body failed and every registration belongs
      to its provider's running generation are the least set closed under the dependency relation. */
  lemma ActiveIsLeast(tr: seq<Sys>, i: nat, id: map<nat, nat>, w: World)
    requires Run(tr) && AlignedRun(tr) && i < |tr| && Quiet(tr[i])
    requires Describes(tr[i].core, id, w) && NoneFailed(tr[i].core) && OwnedByGenerations(tr[i].core)
    ensures LeastClosed(w, ActivePlugins(tr[i].core, id))
  {
    hide Run, AlignedRun, Inv, AllConsistent, OwnedByGenerations, NoneFailed, Closed, Describes, ActivePlugins;
    var s := tr[i];
    InvRun(tr, i);
    ConsistentRun(tr, i);
    ActiveClosed(s, id, w);
    ActiveAmong(s.core, id, w);
    forall other: set<nat> | Closed(w, other) ensures ActivePlugins(s.core, id) <= other {
      ActiveWithin(s, id, w, other);
    }
  }

  lemma ActiveAmong(c: Core, id: map<nat, nat>, w: World)
    ensures Describes(c, id, w) ==> ActivePlugins(c, id) <= w.needs.Keys
  {}

  lemma ActiveWithin(s: Sys, id: map<nat, nat>, w: World, other: set<nat>)
    requires Inv(s) && AllConsistent(s) && Quiet(s) && Describes(s.core, id, w) && OwnedByGenerations(s.core)
    requires Closed(w, other)
    ensures ActivePlugins(s.core, id) <= other
  {
    hide Inv, AllConsistent, Describes, OwnedByGenerations, Closed;
    forall f | f in id && IsActive(s.core, f) ensures id[f] in other { ActiveInClosed(s, id, w, other, f); }
  }

  /** Two quiescent states, of any two runs, that the same static description fits have the same active
      plugins. */
  lemma OrderIndependent(tr: seq<Sys>, i: nat, id: map<nat, nat>, tr': seq<Sys>, i': nat, id': map<nat, nat>, w: World)
    requires Run(tr) && AlignedRun(tr) && i < |tr| && Quiet(tr[i])
    requires Describes(tr[i].core, id, w) && NoneFailed(tr[i].core) && OwnedByGenerations(tr[i].core)
    requires Run(tr') && AlignedRun(tr') && i' < |tr'| && Quiet(tr'[i'])
    requires Describes(tr'[i'].core, id', w) && NoneFailed(tr'[i'].core) && OwnedByGenerations(tr'[i'].core)
    ensures ActivePlugins(tr[i].core, id) == ActivePlugins(tr'[i'].core, id')
  {
    hide Run, AlignedRun, Describes, NoneFailed, OwnedByGenerations, LeastClosed;
    ActiveIsLeast(tr, i, id, w);
    ActiveIsLeast(tr', i', id', w);
    LeastClosedUnique(w, ActivePlugins(tr[i].core, id), ActivePlugins(tr'[i'].core, id'));
  }
}
