/** Effect entries and disposable lists (disposable.go, and runDisposer, unwindChildren and the clearing
    loop of unload in fiber.go), with one thread of control: what each critical section does, and in
    which order a teardown runs the disposers. */
module Disposables {

  // ----- the abstract effect tree -----

  /** An entry: its disposer is installed once its body returned; children are the effects registered
      through its body's context. */
  datatype Effect = Effect(id: nat, installed: bool, deferred: bool, done: bool, running: bool, children: seq<Effect>)

  /** What a teardown request leaves of an entry: deferred while its body runs, otherwise done. */
  function Released(e: Effect): Effect {
    if e.done then e
    else if !e.installed then e.(deferred := true)
    else e.(done := true, children := [])
  }

  /** The disposers a teardown request runs: the entry's own before those of its children, newest first. */
  function Teardown(e: Effect): seq<nat> {
    if e.done || !e.installed then [] else [e.id] + TeardownAll(e.children)
  }

  function TeardownAll(forest: seq<Effect>): seq<nat> {
    if forest == [] then []
    else Teardown(forest[|forest| - 1]) + TeardownAll(forest[..|forest| - 1])
  }

  /** A second request runs nothing, and neither does one for an entry that is done. */
  lemma TeardownOnce(e: Effect)
    ensures Teardown(Released(e)) == [] && (e.done ==> Teardown(e) == [])
    ensures e.installed && !e.done ==> Released(e).done && Teardown(e) != [] && Teardown(e)[0] == e.id
  {}

  // ----- bodies that register through their own scope -----

  /** What a body does: it registers nested effects through its own context, then returns. */
  datatype Script = Script(id: nat, nested: seq<Script>)

  /** The tree of a body that returned. */
  function Built(s: Script): Effect {
    Effect(s.id, true, false, false, false, BuiltAll(s.nested))
  }

  function BuiltAll(scripts: seq<Script>): (forest: seq<Effect>)
    ensures |forest| == |scripts|
  {
    if scripts == [] then [] else BuiltAll(scripts[..|scripts| - 1]) + [Built(scripts[|scripts| - 1])]
  }

  /** The order in which the bodies return. */
  function Completed(s: Script): seq<nat> {
    CompletedAll(s.nested) + [s.id]
  }

  function CompletedAll(scripts: seq<Script>): seq<nat> {
    if scripts == [] then [] else CompletedAll(scripts[..|scripts| - 1]) + Completed(scripts[|scripts| - 1])
  }

  function Reversed<T>(s: seq<T>): (r: seq<T>)
    ensures |r| == |s| && forall i :: 0 <= i < |s| ==> r[i] == s[|s| - 1 - i]
  {
    if s == [] then [] else Reversed(s[1..]) + [s[0]]
  }

  lemma ReversedConcat(a: seq<nat>, b: seq<nat>)
    ensures Reversed(a + b) == Reversed(b) + Reversed(a)
  {
    var l, r := Reversed(a + b), Reversed(b) + Reversed(a);
    assert |l| == |r|;
    assert forall i :: 0 <= i < |l| ==> l[i] == r[i];
  }

  /** Teardown order: unwinding effects whose bodies all returned, each having registered only through its
      own scope, runs the disposers in exactly the reverse of the order in which the bodies completed. */
  lemma {:induction false} TeardownReversesAll(scripts: seq<Script>)
    ensures TeardownAll(BuiltAll(scripts)) == Reversed(CompletedAll(scripts))
    decreases scripts
  {
    if scripts != [] {
      var front, last := scripts[..|scripts| - 1], scripts[|scripts| - 1];
      var forest := BuiltAll(scripts);
      assert forest[|forest| - 1] == Built(last) && forest[..|forest| - 1] == BuiltAll(front);
      TeardownReverses(last);
      TeardownReversesAll(front);
      ReversedConcat(CompletedAll(front), Completed(last));
    }
  }

  lemma {:induction false} TeardownReverses(s: Script)
    ensures Teardown(Built(s)) == Reversed(Completed(s))
    decreases s
  {
    TeardownReversesAll(s.nested);
    ReversedConcat(CompletedAll(s.nested), [s.id]);
    assert Reversed([s.id]) == [s.id];
  }

  // ----- effectEntry -----

  class EffectEntry {
    const id: nat
    var installed: bool
    var deferred: bool
    var done: bool
    var running: bool
    var children: seq<EffectEntry>
    ghost var Repr: set<EffectEntry>

    /** The entries below are a tree: no entry has two owners. */
    ghost predicate Valid()
      reads this, Repr
      decreases Repr, 0
    {
      this in Repr && AllValid(children, Repr - {this})
    }

    ghost function Tree(): Effect
      reads this, Repr
      requires Valid()
      decreases Repr, 0
    {
      Effect(id, installed, deferred, done, running, Trees(children, Repr - {this}))
    }

    /** Registered, with its body about to run. */
    constructor (id: nat)
      ensures Valid() && fresh(Repr) && Repr == {this} && this.id == id
      ensures Tree() == Effect(id, false, false, false, true, [])
    {
      this.id := id;
      installed, deferred, done, running, children := false, false, false, true, [];
      Repr := {this};
    }

    /** The entries below have become `below`. */
    ghost method Grow(below: set<EffectEntry>)
      requires this !in below && AllValid(children, below)
      modifies this`Repr
      ensures Repr == below + {this} && Valid() && AllValid(children, below)
      ensures Tree() == Effect(id, installed, deferred, done, running, old(Trees(children, below)))
    {
      Repr := below + {this};
      assert Repr - {this} == below;
    }

    /** Takes ownership of an effect registered through this entry's context while its body runs. */
    method Adopt(child: EffectEntry) returns (ok: bool)
      requires Valid() && child.Valid() && child.Repr !! Repr
      modifies this
      ensures ok == (!old(done) && old(running))
      ensures Valid() && Repr == (if ok then old(Repr) + child.Repr else old(Repr))
      ensures children == (if ok then old(children) + [child] else old(children))
      ensures Tree() == (if ok then old(Tree()).(children := old(Tree()).children + [child.Tree()]) else old(Tree()))
    {
      ok := !done && running;
      if ok {
        ghost var before := Trees(children, Repr - {this});
        children := children + [child];
        Repr := Repr + child.Repr;
        assert AllValid(children, Repr - {this});
        assert Trees(children, Repr - {this}) == before + [child.Tree()];
      }
    }

    method FinishBody()
      requires Valid()
      modifies this
      ensures Valid() && Repr == old(Repr) && children == old(children)
      ensures Tree() == old(Tree()).(running := false)
    {
      running := false;
      assert AllValid(children, Repr - {this});
      assert Trees(children, Repr - {this}) == old(Trees(children, Repr - {this}));
    }

    /** Installs the body's disposer; `now` says that a teardown was requested meanwhile. */
    method SetDispose() returns (now: bool)
      requires Valid()
      modifies this
      ensures Valid() && Repr == old(Repr) && children == old(children)
      ensures Tree() == old(Tree()).(installed := true)
      ensures now == (old(deferred) && !old(done))
    {
      installed := true;
      now := deferred && !done;
      assert AllValid(children, Repr - {this});
      assert Trees(children, Repr - {this}) == old(Trees(children, Repr - {this}));
    }

    /** Says whether the disposer is installed; otherwise the request is deferred. */
    method RequestDispose() returns (ready: bool)
      requires Valid()
      modifies this
      ensures Valid() && Repr == old(Repr) && children == old(children)
      ensures ready == old(installed)
      ensures Tree() == (if old(installed) || old(done) then old(Tree()) else old(Tree()).(deferred := true))
    {
      if !installed && !done { deferred := true; }
      ready := installed;
      assert AllValid(children, Repr - {this});
      assert Trees(children, Repr - {this}) == old(Trees(children, Repr - {this}));
    }

    /** The first claim gets the disposer and the nested effects; a later one gets nothing. */
    method ClaimDispose() returns (claimed: bool, kids: seq<EffectEntry>)
      requires Valid()
      modifies this
      ensures Valid() && Repr == old(Repr)
      ensures claimed == !old(done)
      ensures claimed ==>
        kids == old(children) && AllValid(kids, Repr - {this}) && Trees(kids, Repr - {this}) == old(Tree()).children
      ensures !claimed ==> kids == []
      ensures Tree() == (if old(done) then old(Tree()) else old(Tree()).(done := true, children := []))
    {
      claimed := !done;
      kids := [];
      if claimed {
        kids := children;
        done := true;
        children := [];
        assert AllValid(kids, Repr - {this});
        assert Trees(kids, Repr - {this}) == old(Trees(children, Repr - {this}));
      } else {
        assert AllValid(children, Repr - {this});
        assert Trees(children, Repr - {this}) == old(Trees(children, Repr - {this}));
      }
    }

    /** Releases a nested effect that was disposed individually. */
    method Detach(child: EffectEntry)
      requires Valid()
      modifies this
      ensures Valid() && Repr == old(Repr)
      ensures children == Removed(old(children), child)
    {
      RemovedValid(children, child, Repr - {this});
      children := TakeOut(children, child);
    }

    /** The loop of `detach`: the first occurrence goes. */
    static method TakeOut(entries: seq<EffectEntry>, entry: EffectEntry) returns (r: seq<EffectEntry>)
      ensures r == Removed(entries, entry)
    {
      hide Removed;
      var i := 0;
      while i < |entries| && entries[i] != entry
        invariant 0 <= i <= |entries| && entry !in entries[..i]
      {
        assert entries[..i + 1] == entries[..i] + [entries[i]];
        i := i + 1;
      }
      RemovedAt(entries, entry, i);
      r := if i == |entries| then entries else entries[..i] + entries[i + 1..];
    }

    /** Gives up an entry whose body failed before it produced a disposer. */
    method Abandon() returns (kids: seq<EffectEntry>)
      requires Valid()
      modifies this
      ensures Valid() && Repr == old(Repr)
      ensures kids == old(children) && AllValid(kids, Repr - {this})
      ensures Trees(kids, Repr - {this}) == old(Tree()).children
      ensures Tree() == old(Tree()).(done := true, running := false, children := [])
    {
      kids := children;
      done, running, children := true, false, [];
      assert AllValid(kids, Repr - {this});
      assert Trees(kids, Repr - {this}) == old(Trees(children, Repr - {this}));
    }
  }

  /** `entries` without the first occurrence of `entry`. */
  function Removed(entries: seq<EffectEntry>, entry: EffectEntry): seq<EffectEntry> {
    if entries == [] then []
    else if entries[0] == entry then entries[1..]
    else [entries[0]] + Removed(entries[1..], entry)
  }

  /** Without the first occurrence, which is at `i`. */
  lemma {:induction false} RemovedAt(entries: seq<EffectEntry>, entry: EffectEntry, i: nat)
    requires i <= |entries| && entry !in entries[..i] && (i < |entries| ==> entries[i] == entry)
    ensures Removed(entries, entry) == if i == |entries| then entries else entries[..i] + entries[i + 1..]
  {
    if i > 0 {
      assert entries[0] in entries[..i] && entries[1..][..i - 1] == entries[..i][1..];
      RemovedAt(entries[1..], entry, i - 1);
    }
  }

  lemma {:induction false} RemovedValid(entries: seq<EffectEntry>, entry: EffectEntry, repr: set<EffectEntry>)
    requires AllValid(entries, repr)
    ensures AllValid(Removed(entries, entry), repr)
    ensures forall x :: x in Removed(entries, entry) ==> x in entries
  {
    if entries != [] {
      var rest := entries[1..];
      assert AllValid(rest, repr) by {
        assert forall i :: 0 <= i < |rest| ==> rest[i] == entries[i + 1];
      }
      RemovedValid(rest, entry, repr);
      if entries[0] != entry { FrontValid(entries, Removed(rest, entry), repr); }
    }
  }

  /** An entry apart from a valid list goes in front of what is left of it. */
  lemma FrontValid(entries: seq<EffectEntry>, less: seq<EffectEntry>, repr: set<EffectEntry>)
    requires entries != [] && AllValid(entries, repr) && AllValid(less, repr)
    requires forall x :: x in less ==> x in entries[1..]
    ensures AllValid([entries[0]] + less, repr)
  {
    forall k | 0 <= k < |less| ensures entries[0].Repr !! less[k].Repr {
      assert less[k] in entries[1..];
      var m :| 0 <= m < |entries[1..]| && entries[1..][m] == less[k];
      assert entries[m + 1] == less[k];
    }
    assert forall k :: 0 <= k < |less| ==> ([entries[0]] + less)[k + 1] == less[k];
  }

  ghost predicate AllValid(entries: seq<EffectEntry>, repr: set<EffectEntry>)
    reads repr
    decreases repr, 1
  {
    && (forall i :: 0 <= i < |entries| ==> entries[i] in repr && entries[i].Repr <= repr && entries[i].Valid())
    && (forall i, j :: 0 <= i < j < |entries| ==> entries[i].Repr !! entries[j].Repr)
  }

  ghost function Trees(entries: seq<EffectEntry>, repr: set<EffectEntry>): (forest: seq<Effect>)
    reads repr
    requires AllValid(entries, repr)
    ensures |forest| == |entries| && forall i :: 0 <= i < |entries| ==> forest[i] == entries[i].Tree()
    decreases repr, |entries| + 1
  {
    if entries == [] then [] else Trees(entries[..|entries| - 1], repr) + [entries[|entries| - 1].Tree()]
  }

  // ----- teardown -----

  /** `runDisposer`: the request is deferred while the body runs, otherwise the disposer runs once, and the
      nested effects after it. `ran` lists the disposers in the order they ran. */
  method RunDisposer(entry: EffectEntry) returns (ran: seq<nat>)
    requires entry.Valid()
    modifies entry.Repr
    ensures entry.Valid() && entry.Repr == old(entry.Repr)
    ensures forall e :: e in old(entry.Repr) ==> e.Repr == old(e.Repr)
    ensures ran == Teardown(old(entry.Tree()))
    ensures entry.Tree() == Released(old(entry.Tree()))
    ensures if old(entry.installed && !entry.done) then ran != [] && ran[0] == entry.id && entry.done else ran == []
    decreases entry.Repr, 0
  {
    ran := [];
    hide TeardownAll, Trees;
    var ready := entry.RequestDispose();
    if ready {
      var claimed, kids := entry.ClaimDispose();
      if claimed {
        ran := [entry.id];
        var more := UnwindChildren(kids, entry.Repr - {entry});
        ran := ran + more;
      }
    }
  }

  method RunAt(entries: seq<EffectEntry>, ghost repr: set<EffectEntry>, i: nat) returns (ran: seq<nat>)
    requires i < |entries| && AllValid(entries, repr)
    modifies entries[i].Repr
    ensures AllValid(entries, repr) && forall e :: e in repr ==> e.Repr == old(e.Repr)
    ensures ran == Teardown(old(Trees(entries, repr))[i])
    ensures Trees(entries, repr) == old(Trees(entries, repr))[i := Released(old(Trees(entries, repr))[i])]
    decreases entries[i].Repr, 1
  {
    ran := RunDisposer(entries[i]);
    forall k | 0 <= k < |entries| && k != i
      ensures entries[k].Valid() && entries[k].Repr == old(entries[k].Repr)
      ensures entries[k].Tree() == old(entries[k].Tree())
    {
      assert old(entries[k].Repr) !! old(entries[i].Repr);
      assert unchanged(old(entries[k].Repr));
    }
  }

  function ReleasedAll(forest: seq<Effect>): (r: seq<Effect>)
    ensures |r| == |forest| && forall i :: 0 <= i < |r| ==> r[i] == Released(forest[i])
  {
    if forest == [] then [] else ReleasedAll(forest[..|forest| - 1]) + [Released(forest[|forest| - 1])]
  }

  lemma Within(entries: seq<EffectEntry>, repr: set<EffectEntry>, i: nat)
    requires i < |entries| && AllValid(entries, repr)
    ensures entries[i] in repr && entries[i].Repr <= repr
  {}

  lemma TeardownStep(forest: seq<Effect>, i: nat)
    requires i < |forest|
    ensures TeardownAll(forest[..i + 1]) == Teardown(forest[i]) + TeardownAll(forest[..i])
  {
    assert forest[..i + 1][..i] == forest[..i];
  }

  lemma ReleasedStep(now: seq<Effect>, was: seq<Effect>, i: nat)
    requires i < |was| && now == was[..i + 1] + ReleasedAll(was)[i + 1..]
    ensures now[i] == was[i] && now[i := Released(was[i])] == was[..i] + ReleasedAll(was)[i..]
  {
    hide ReleasedAll, Released;
    var next, all := now[i := Released(was[i])], ReleasedAll(was);
    assert |now| == |was| && |all| == |was|;
    forall k | 0 <= k < |was| ensures next[k] == (was[..i] + all[i..])[k] {
      if k < i { assert now[k] == was[k]; }
      else if k > i { assert now[k] == all[i + 1..][k - i - 1] && (was[..i] + all[i..])[k] == all[k]; }
    }
  }

  /** `unwindChildren`: newest first. */
  method UnwindChildren(entries: seq<EffectEntry>, ghost repr: set<EffectEntry>) returns (ran: seq<nat>)
    requires AllValid(entries, repr)
    modifies repr
    ensures AllValid(entries, repr) && forall e :: e in repr ==> e.Repr == old(e.Repr)
    ensures ran == TeardownAll(old(Trees(entries, repr)))
    ensures Trees(entries, repr) == ReleasedAll(old(Trees(entries, repr)))
    decreases repr, 2
  {
    hide AllValid, Teardown, TeardownAll, Released, ReleasedAll, Trees;
    ran := [];
    ghost var was := Trees(entries, repr);
    var i := |entries|;
    assert was[..i] == was && ReleasedAll(was)[i..] == [];
    while i > 0
      invariant 0 <= i <= |entries|
      invariant AllValid(entries, repr) && forall e :: e in repr ==> e.Repr == old(e.Repr)
      invariant Trees(entries, repr) == was[..i] + ReleasedAll(was)[i..]
      invariant ran + TeardownAll(was[..i]) == TeardownAll(was)
    {
      i := i - 1;
      Within(entries, repr, i);
      TeardownStep(was, i);
      ReleasedStep(Trees(entries, repr), was, i);
      var more := RunAt(entries, repr, i);
      ran := ran + more;
    }
    assert TeardownAll(was[..0]) == [] && was[..0] == [] by { NothingToTear(was); }
    assert ReleasedAll(was)[0..] == ReleasedAll(was);
  }

  lemma NothingToTear(forest: seq<Effect>)
    ensures TeardownAll(forest[..0]) == []
  {}

  // ----- disposableList -----

  /** The entries in registration order: `items` by ascending handle up to `top`. */
  ghost function InOrder(items: map<nat, EffectEntry>, top: nat): seq<EffectEntry> {
    if top == 0 then []
    else InOrder(items, top - 1) + (if top in items then [items[top]] else [])
  }

  lemma {:induction false} InOrderAgrees(a: map<nat, EffectEntry>, b: map<nat, EffectEntry>, top: nat)
    requires forall h :: 1 <= h <= top ==> (h in a <==> h in b) && (h in a ==> a[h] == b[h])
    ensures InOrder(a, top) == InOrder(b, top)
  {
    if top > 0 { InOrderAgrees(a, b, top - 1); }
  }

  /** `after` is `before` without its element `k`. */
  ghost predicate Drops(before: seq<EffectEntry>, after: seq<EffectEntry>, k: nat) {
    k < |before| && after == before[..k] + before[k + 1..]
  }

  /** An ordered collection of effects with removal by handle and reverse-order teardown. */
  class DisposableList {
    var count: nat
    var items: map<nat, EffectEntry>

    ghost predicate Valid()
      reads this
    {
      forall h :: h in items ==> 1 <= h <= count
    }

    /** What is registered, oldest first. */
    ghost function Contents(): seq<EffectEntry>
      reads this
    {
      InOrder(items, count)
    }

    constructor ()
      ensures Valid() && Contents() == [] && items == map[]
    {
      count, items := 0, map[];
    }

    method Add(entry: EffectEntry) returns (handle: nat)
      requires Valid()
      modifies this
      ensures Valid() && Contents() == old(Contents()) + [entry]
      ensures handle !in old(items) && items == old(items)[handle := entry]
    {
      InOrderAgrees(items, items[count + 1 := entry], count);
      count := count + 1;
      handle := count;
      items := items[handle := entry];
    }

    /** The removal handle: reports whether the entry was still listed; the others keep their order. */
    method Remove(handle: nat) returns (present: bool)
      requires Valid()
      modifies this
      ensures Valid() && present == (handle in old(items)) && items == old(items) - {handle}
      ensures !present ==> Contents() == old(Contents())
      ensures present ==>
        exists k: nat :: Drops(old(Contents()), Contents(), k) && old(Contents())[k] == old(items)[handle]
    {
      present := handle in items;
      if present {
        ghost var k := InOrderWithout(items, count, handle);
        items := items - {handle};
        assert Drops(old(Contents()), Contents(), k);
      } else {
        assert items - {handle} == items;
      }
    }

    /** Without clearing, in registration order. */
    method Snapshot() returns (entries: seq<EffectEntry>)
      requires Valid()
      ensures entries == Contents()
    {
      entries := [];
      for handle := 0 to count
        invariant entries == InOrder(items, handle)
      {
        if handle + 1 in items { entries := entries + [items[handle + 1]]; }
      }
    }

    /** Empties the list and returns what it held, newest first. */
    method Clear() returns (entries: seq<EffectEntry>)
      requires Valid()
      modifies this
      ensures Valid() && Contents() == []
      ensures entries == Reversed(old(Contents()))
    {
      entries := Snapshot();
      entries := Reversed(entries);
      items := map[];
      InOrderEmpty(count);
    }
  }

  lemma {:induction false} InOrderEmpty(top: nat)
    ensures InOrder(map[], top) == []
  {
    if top > 0 { InOrderEmpty(top - 1); }
  }

  lemma {:induction false} InOrderWithout(items: map<nat, EffectEntry>, top: nat, handle: nat) returns (k: nat)
    requires handle in items && 1 <= handle <= top
    ensures Drops(InOrder(items, top), InOrder(items - {handle}, top), k)
    ensures InOrder(items, top)[k] == items[handle]
  {
    var before, after := InOrder(items, top - 1), InOrder(items - {handle}, top - 1);
    if top == handle {
      InOrderAgrees(items, items - {handle}, top - 1);
      k := |before|;
      assert InOrder(items, top) == before + [items[handle]];
      assert before + [] == before;
    } else {
      k := InOrderWithout(items, top - 1, handle);
      var more := if top in items then [items[top]] else [];
      assert InOrder(items, top) == before + more && InOrder(items - {handle}, top) == after + more;
      assert (before + more)[..k] == before[..k] && (before + more)[k + 1..] == before[k + 1..] + more;
    }
  }

  // ----- one generation -----

  /** A body: it registers nested effects through its own context, each running its body to the end,
      then it returns and its disposer is installed. `completed` lists the bodies as they return. */
  method RunBody(entry: EffectEntry, script: Script) returns (completed: seq<nat>)
    requires entry.Valid() && entry.Tree() == Effect(script.id, false, false, false, true, [])
    modifies entry.Repr
    ensures entry.Valid() && fresh(entry.Repr - old(entry.Repr))
    ensures entry.Tree() == Built(script)
    ensures completed == Completed(script)
    decreases script, 0
  {
    completed := [];
    var i := 0;
    while i < |script.nested|
      invariant 0 <= i <= |script.nested|
      invariant entry.Valid() && fresh(entry.Repr - old(entry.Repr))
      invariant entry.Tree() == Effect(script.id, false, false, false, true, BuiltAll(script.nested[..i]))
      invariant completed == CompletedAll(script.nested[..i])
    {
      assert script.nested[..i + 1][..i] == script.nested[..i];
      var more := RunNested(entry, script.nested[i]);
      completed := completed + more;
      i := i + 1;
    }
    assert script.nested[..i] == script.nested;
    entry.FinishBody();
    var now := entry.SetDispose();
    completed := completed + [script.id];
  }

  /** A nested registration is published under its owner before its body runs. */
  method RunNested(owner: EffectEntry, script: Script) returns (completed: seq<nat>)
    requires owner.Valid() && owner.running && !owner.done
    modifies owner.Repr
    ensures owner.Valid() && fresh(owner.Repr - old(owner.Repr))
    ensures owner.Tree() == old(owner.Tree()).(children := old(owner.Tree()).children + [Built(script)])
    ensures completed == Completed(script)
    decreases script, 2
  {
    hide AllValid, Trees, Built, Completed;
    var child := new EffectEntry(script.id);
    var ok := owner.Adopt(child);
    ghost var below := owner.Repr - {owner};
    completed := RunLast(child, owner.children, below, script);
    owner.Grow(below + child.Repr);
  }

  /** Runs the body of `last`, the youngest of some published effects. */
  method RunLast(last: EffectEntry, ghost entries: seq<EffectEntry>, ghost repr: set<EffectEntry>,
      script: Script) returns (completed: seq<nat>)
    requires AllValid(entries, repr) && entries != [] && entries[|entries| - 1] == last
    requires last.Tree() == Effect(script.id, false, false, false, true, [])
    modifies last.Repr
    ensures last.Valid() && fresh(last.Repr - old(last.Repr)) && AllValid(entries, repr + last.Repr)
    ensures Trees(entries, repr + last.Repr) == old(Trees(entries, repr))[|entries| - 1 := Built(script)]
    ensures completed == Completed(script)
    decreases script, 1
  {
    completed := RunBody(last, script);
    forall k | 0 <= k < |entries| - 1
      ensures entries[k].Valid() && entries[k].Repr == old(entries[k].Repr)
      ensures entries[k].Tree() == old(entries[k].Tree())
    {
      assert old(entries[k].Repr) !! old(last.Repr);
      assert unchanged(old(entries[k].Repr));
    }
  }

  /** A whole generation: the plugin's body registers its effects, each running its body to the end, and
      `unload` tears the cleared list down, newest first. The disposers run in exactly the reverse of the
      order in which the bodies completed. */
  method Generation(scripts: seq<Script>) returns (completed: seq<nat>, ran: seq<nat>)
    ensures completed == CompletedAll(scripts)
    ensures ran == Reversed(completed)
  {
    hide AllValid, Trees, TeardownAll, CompletedAll, BuiltAll, Reversed;
    var list := new DisposableList();
    ghost var repr: set<EffectEntry>;
    completed, repr := Populate(list, scripts);
    ghost var registered := list.Contents();
    var entries := list.Clear();
    ran := UnwindCleared(entries, registered, repr);
    TeardownReversesAll(scripts);
  }

  lemma Appended(entries: seq<EffectEntry>, repr: set<EffectEntry>, entry: EffectEntry)
    requires AllValid(entries, repr) && entry.Valid() && entry.Repr !! repr
    ensures AllValid(entries + [entry], repr + entry.Repr)
    ensures Trees(entries + [entry], repr + entry.Repr) == Trees(entries, repr) + [entry.Tree()]
  {}

  /** Registers one top-level effect: published in the list before its body runs. */
  method Register(list: DisposableList, ghost repr: set<EffectEntry>, script: Script) returns (completed: seq<nat>,
      ghost more: set<EffectEntry>)
    requires list.Valid() && AllValid(list.Contents(), repr)
    modifies list
    ensures list.Valid() && fresh(more) && AllValid(list.Contents(), repr + more)
    ensures Trees(list.Contents(), repr + more) == old(Trees(list.Contents(), repr)) + [Built(script)]
    ensures completed == Completed(script)
  {
    hide AllValid, Trees, Built, Completed;
    ghost var before := list.Contents();
    var entry := new EffectEntry(script.id);
    Appended(before, repr, entry);
    var handle := list.Add(entry);
    completed := RunLast(entry, before + [entry], repr + entry.Repr, script);
    more := entry.Repr;
    assert repr + {entry} + entry.Repr == repr + more;
  }

  method Populate(list: DisposableList, scripts: seq<Script>) returns (completed: seq<nat>,
      ghost repr: set<EffectEntry>)
    requires list.Valid() && list.Contents() == []
    modifies list
    ensures list.Valid() && AllValid(list.Contents(), repr) && fresh(repr)
    ensures Trees(list.Contents(), repr) == BuiltAll(scripts)
    ensures completed == CompletedAll(scripts)
  {
    completed, repr := [], {};
    assert Trees(list.Contents(), repr) == [];
    hide AllValid, Trees, Built, Completed;
    for i := 0 to |scripts|
      invariant list.Valid() && AllValid(list.Contents(), repr) && fresh(repr)
      invariant Trees(list.Contents(), repr) == BuiltAll(scripts[..i])
      invariant completed == CompletedAll(scripts[..i])
    {
      assert scripts[..i + 1][..i] == scripts[..i];
      var now, more := Register(list, repr, scripts[i]);
      repr := repr + more;
      completed := completed + now;
    }
    assert scripts[..|scripts|] == scripts;
  }

  /** From position `i` on, the entries are as they were. */
  ghost predicate Untouched(now: seq<Effect>, turned: seq<Effect>, i: nat) {
    |now| == |turned| && forall k :: i <= k < |now| ==> now[k] == turned[k]
  }

  method UnwindNext(entries: seq<EffectEntry>, ghost repr: set<EffectEntry>, ghost turned: seq<Effect>,
      i: nat) returns (ran: seq<nat>)
    requires i < |entries| && AllValid(entries, repr) && Untouched(Trees(entries, repr), turned, i)
    modifies repr
    ensures AllValid(entries, repr) && Untouched(Trees(entries, repr), turned, i + 1)
    ensures i < |turned| && ran == Teardown(turned[i])
  {
    Within(entries, repr, i);
    ran := RunAt(entries, repr, i);
  }

  lemma TornNext(was: seq<Effect>, turned: seq<Effect>, i: nat)
    requires turned == Reversed(was) && i < |was|
    ensures TeardownAll(was[..|was| - i]) == Teardown(turned[i]) + TeardownAll(was[..|was| - i - 1])
  {
    hide Teardown, TeardownAll;
    var k := |was| - i - 1;
    TeardownStep(was, k);
  }

  /** The loop of `unload` over what `Clear` returned. */
  method UnwindCleared(entries: seq<EffectEntry>, ghost registered: seq<EffectEntry>,
      ghost repr: set<EffectEntry>) returns (ran: seq<nat>)
    requires entries == Reversed(registered) && AllValid(registered, repr)
    modifies repr
    ensures ran == TeardownAll(old(Trees(registered, repr)))
  {
    hide AllValid, Teardown, TeardownAll, Released, Trees, Reversed, Untouched;
    ReversedTrees(registered, entries, repr);
    ghost var was := Trees(registered, repr);
    ghost var turned := Reversed(was);
    assert was[..|was|] == was;
    assert Untouched(Trees(entries, repr), turned, 0) by { UntouchedAll(turned); }
    ran := [];
    for i := 0 to |entries|
      invariant AllValid(entries, repr) && Untouched(Trees(entries, repr), turned, i)
      invariant ran + TeardownAll(was[..|was| - i]) == TeardownAll(was)
    {
      TornNext(was, turned, i);
      var more := UnwindNext(entries, repr, turned, i);
      ran := ran + more;
    }
    assert TeardownAll(was[..0]) == [] by { NothingToTear(was); }
  }

  lemma UntouchedAll(turned: seq<Effect>)
    ensures Untouched(turned, turned, 0)
  {}

  lemma ReversedTrees(registered: seq<EffectEntry>, entries: seq<EffectEntry>, repr: set<EffectEntry>)
    requires entries == Reversed(registered) && AllValid(registered, repr)
    ensures AllValid(entries, repr) && Trees(entries, repr) == Reversed(Trees(registered, repr))
  {
    var n := |registered|;
    assert |entries| == n;
    forall i | 0 <= i < n ensures entries[i] in repr && entries[i].Repr <= repr && entries[i].Valid() {
      assert entries[i] == registered[n - 1 - i];
    }
    forall i, j | 0 <= i < j < n ensures entries[i].Repr !! entries[j].Repr {
      assert registered[n - 1 - j].Repr !! registered[n - 1 - i].Repr;
    }
    var was := Trees(registered, repr);
    hide AllValid, Trees;
    forall i | 0 <= i < n ensures Trees(entries, repr)[i] == Reversed(was)[i] {
      assert entries[i] == registered[n - 1 - i];
    }
  }
}
