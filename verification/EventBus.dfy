/** The event bus (events.go): registration order, removal, scope filtering, and the sequential dispatch
    that stops at the first listener with something to say. */
module EventBus {
  import opened Options

  type Value = int

  /** What `nil` and `false` are among the values: neither bails a dispatch. */
  const NIL: Value := 0
  const FALSE: Value := 1

  datatype Outcome = Returned(v: Value) | Panicked

  class Listener {
    const name: string
    const prepend: bool
    const global: bool
    const once: bool
    const labels: map<string, string>
    var fired: bool
    /** The owner's effect list still reports it. */
    var listed: bool

    constructor (name: string, prepend: bool, global: bool, once: bool, labels: map<string, string>)
      ensures this.name == name && this.prepend == prepend && this.global == global && this.once == once
      ensures this.labels == labels && !fired && listed
    {
      this.name, this.prepend, this.global, this.once, this.labels := name, prepend, global, once, labels;
      fired, listed := false, true;
    }

    /** `isolateLabel` on the listener's context. */
    function LabelOf(scope: string): string {
      if scope in labels then labels[scope] else scope
    }

    /** `claim`: a once-listener is handed out once. */
    method Claim() returns (ok: bool)
      modifies this`fired
      ensures ok == (!once || !old(fired))
      ensures fired == (once || old(fired))
    {
      ok := !once || !fired;
      if once { fired := true; }
    }
  }

  /** A filter of the Scoped variants: the emitter's scope name and label. */
  datatype Scope = Scope(name: string, label_: string)

  predicate Passes(l: Listener, scope: Option<Scope>) {
    scope.None? || l.global || l.LabelOf(scope.value.name) == scope.value.label_
  }

  function Filtered(ls: seq<Listener>, scope: Option<Scope>): seq<Listener> {
    if ls == [] then []
    else Filtered(ls[..|ls| - 1], scope) + (if Passes(ls[|ls| - 1], scope) then [ls[|ls| - 1]] else [])
  }

  /** The members of `out` stand in `ls` at the strictly increasing positions `ps`. */
  predicate TakenAt(out: seq<Listener>, ls: seq<Listener>, ps: seq<nat>) {
    && |ps| == |out| && (forall i :: 0 <= i < |ps| ==> ps[i] < |ls| && out[i] == ls[ps[i]])
    && (forall i, j :: 0 <= i < j < |ps| ==> ps[i] < ps[j])
  }

  /** A selection is in registration order. */
  ghost predicate InOrder(out: seq<Listener>, ls: seq<Listener>) {
    exists ps :: TakenAt(out, ls, ps)
  }

  /** The positions whose listener passes. */
  function Positions(ls: seq<Listener>, scope: Option<Scope>): (ps: seq<nat>)
    ensures forall i :: 0 <= i < |ps| ==> ps[i] < |ls| && Passes(ls[ps[i]], scope)
    ensures forall i, j :: 0 <= i < j < |ps| ==> ps[i] < ps[j]
  {
    if ls == [] then []
    else Positions(ls[..|ls| - 1], scope) + (if Passes(ls[|ls| - 1], scope) then [|ls| - 1] else [])
  }

  lemma {:induction false} PositionOf(ls: seq<Listener>, scope: Option<Scope>, k: nat) returns (i: nat)
    requires k < |ls| && Passes(ls[k], scope)
    ensures i < |Positions(ls, scope)| && Positions(ls, scope)[i] == k
  {
    hide Passes;
    if k < |ls| - 1 { i := PositionOf(ls[..|ls| - 1], scope, k); } else { i := |Positions(ls[..|ls| - 1], scope)|; }
  }

  /** A selection takes exactly the positions whose listener passes, in order. */
  lemma {:induction false} FilteredInOrder(ls: seq<Listener>, scope: Option<Scope>)
    ensures TakenAt(Filtered(ls, scope), ls, Positions(ls, scope))
  {
    hide Passes;
    if ls != [] {
      FilteredInOrder(ls[..|ls| - 1], scope);
      assert forall i :: 0 <= i < |ls| - 1 ==> ls[..|ls| - 1][i] == ls[i];
    }
  }

  lemma FilteredMembers(ls: seq<Listener>, scope: Option<Scope>)
    ensures forall l :: l in Filtered(ls, scope) <==> l in ls && Passes(l, scope)
  {
    hide Passes;
    FilteredInOrder(ls, scope);
    var out, ps := Filtered(ls, scope), Positions(ls, scope);
    hide Filtered, Positions;
    forall l | l in ls && Passes(l, scope) ensures l in out {
      var k :| 0 <= k < |ls| && ls[k] == l;
      var i := PositionOf(ls, scope, k);
      assert out[i] == l;
    }
  }

  /** Without a scope it is the whole list. */
  lemma {:induction false} FilteredUnscoped(ls: seq<Listener>)
    ensures Filtered(ls, None) == ls
  {
    if ls != [] {
      FilteredUnscoped(ls[..|ls| - 1]);
      assert ls[..|ls| - 1] + [ls[|ls| - 1]] == ls;
    }
  }

  lemma FilteredDistinct(ls: seq<Listener>, scope: Option<Scope>)
    requires NoRepeats(ls)
    ensures NoRepeats(Filtered(ls, scope))
  {
    hide Passes;
    FilteredInOrder(ls, scope);
    hide Filtered, Positions;
  }

  /** `ls` without the first occurrence of `l`. */
  function Without(ls: seq<Listener>, l: Listener): (r: seq<Listener>)
    ensures forall x :: x in r ==> x in ls
    ensures forall x :: x in ls && x != l ==> x in r
    ensures l !in ls ==> r == ls
  {
    if ls == [] then [] else if ls[0] == l then ls[1..] else [ls[0]] + Without(ls[1..], l)
  }

  /** Without the first occurrence, which is at `i`. */
  lemma {:induction false} WithoutAt(ls: seq<Listener>, l: Listener, i: nat)
    requires i <= |ls| && l !in ls[..i] && (i < |ls| ==> ls[i] == l)
    ensures Without(ls, l) == if i == |ls| then ls else ls[..i] + ls[i + 1..]
  {
    if i == |ls| {
      assert ls[..i] == ls;
    } else if i > 0 {
      assert ls[0] in ls[..i];
      assert ls[1..][..i - 1] == ls[..i][1..];
      WithoutAt(ls[1..], l, i - 1);
    }
  }

  function Members(ls: seq<Listener>): (s: set<Listener>)
    ensures (forall l :: l in s ==> l in ls) && (forall l :: l in ls ==> l in s)
  {
    set l | l in ls
  }

  predicate NoRepeats(ls: seq<Listener>) {
    forall i, j :: 0 <= i < j < |ls| ==> ls[i] != ls[j]
  }

  lemma {:induction false} WithoutGone(ls: seq<Listener>, l: Listener)
    requires NoRepeats(ls)
    ensures l !in Without(ls, l) && NoRepeats(Without(ls, l))
  {
    if ls != [] && ls[0] == l {
      assert forall i :: 0 <= i < |ls[1..]| ==> ls[1..][i] == ls[i + 1];
    } else if ls != [] {
      assert NoRepeats(ls[1..]) && ls[0] !in ls[1..];
      WithoutGone(ls[1..], l);
    }
  }

  /** Whether the dispatch may run the listener's body, given who has fired before. */
  predicate MayRun(l: Listener, fired: set<Listener>) {
    !l.once || l !in fired
  }

  predicate Bails(l: Listener, fired: set<Listener>, body: Listener -> Outcome) {
    MayRun(l, fired) && body(l).Returned? && body(l).v != NIL && body(l).v != FALSE
  }

  class Bus {
    var hooks: map<string, seq<Listener>>

    /** Names without listeners are absent, and a listener is registered once under its own name. */
    ghost predicate Valid()
      reads this
    {
      forall n :: n in hooks ==> hooks[n] != [] && NoRepeats(hooks[n]) && forall l :: l in hooks[n] ==> l.name == n
    }

    function On(name: string): seq<Listener>
      reads this
    {
      if name in hooks then hooks[name] else []
    }

    ghost function FiredOn(name: string): (spent: set<Listener>)
      reads this, On(name)
      ensures (forall l :: l in spent ==> l in On(name) && l.fired)
      ensures (forall l :: l in On(name) && l.fired ==> l in spent)
    {
      set l | l in On(name) && l.fired
    }

    ghost function ListedOn(name: string): (held: set<Listener>)
      reads this, On(name)
      ensures (forall l :: l in held ==> l in On(name) && l.listed)
      ensures (forall l :: l in On(name) && l.listed ==> l in held)
    {
      set l | l in On(name) && l.listed
    }

    constructor ()
      ensures Valid() && hooks == map[]
    {
      hooks := map[];
    }

    method Add(l: Listener)
      requires Valid() && l !in On(l.name)
      modifies this
      ensures Valid()
      ensures On(l.name) == (if l.prepend then [l] + old(On(l.name)) else old(On(l.name)) + [l])
      ensures forall n :: n != l.name ==> On(n) == old(On(n))
    {
      if l.prepend {
        hooks := hooks[l.name := [l] + On(l.name)];
      } else {
        hooks := hooks[l.name := On(l.name) + [l]];
      }
    }

    method Remove(l: Listener)
      requires Valid()
      modifies this
      ensures Valid() && l !in On(l.name)
      ensures forall n :: On(n) == (if n == l.name then Without(old(On(n)), l) else old(On(n)))
    {
      WithoutGone(On(l.name), l);
      var ls := TakeOut(On(l.name), l);
      hide Without;
      hooks := if ls == [] then hooks - {l.name} else hooks[l.name := ls];
    }

    /** The loop of `remove`: the first occurrence goes. */
    static method TakeOut(ls: seq<Listener>, l: Listener) returns (r: seq<Listener>)
      ensures r == Without(ls, l)
    {
      hide Without;
      var i := 0;
      while i < |ls| && ls[i] != l
        invariant 0 <= i <= |ls| && l !in ls[..i]
      {
        assert ls[..i + 1] == ls[..i] + [ls[i]];
        i := i + 1;
      }
      WithoutAt(ls, l, i);
      r := if i == |ls| then ls else ls[..i] + ls[i + 1..];
    }

    /** `selectListeners` over a snapshot: those that pass, in registration order; everybody if there is no scope. */
    method Select(name: string, scope: Option<Scope>) returns (out: seq<Listener>)
      requires Valid()
      ensures out == Filtered(On(name), scope)
      ensures InOrder(out, On(name)) && (forall l :: l in out <==> l in On(name) && Passes(l, scope))
      ensures scope.None? ==> out == On(name)
      ensures forall l, n, tag :: scope == Some(Scope(n, tag)) && l in On(name) ==>
        (l in out <==> l.global || (n in l.labels && l.labels[n] == tag) || (n !in l.labels && n == tag))
    {
      FilteredInOrder(On(name), scope);
      FilteredMembers(On(name), scope);
      if scope.None? { FilteredUnscoped(On(name)); }
      assert InOrder(Filtered(On(name), scope), On(name));
      hide InOrder, Passes;
      var source := On(name);
      out := [];
      for i := 0 to |source|
        invariant out == Filtered(source[..i], scope)
      {
        assert source[..i + 1][..i] == source[..i];
        if Passes(source[i], scope) { out := out + [source[i]]; }
      }
      assert source[..|source|] == source;
    }

    /** `invoke`: a body that may not run counts as returning nil; a once-listener that ran leaves the bus and
        its owner's effect list. */
    method Invoke(l: Listener, body: Listener -> Outcome) returns (r: Outcome)
      requires Valid()
      modifies this, l`fired, l`listed
      ensures Valid() && l.fired == (l.once || old(l.fired))
      ensures l.listed == (old(l.listed) && (!l.once || old(l.fired)))
      ensures r == (if l.once && old(l.fired) then Returned(NIL) else body(l))
      ensures forall n ::
        On(n) == (if n == l.name && l.once && !old(l.fired) then Without(old(On(n)), l) else old(On(n)))
      ensures l.once && !old(l.fired) ==> l !in On(l.name)
    {
      var ok := l.Claim();
      if !ok { return Returned(NIL); }
      r := body(l);
      if l.once {
        // releaseOnce
        Remove(l);
        l.listed := false;
      }
    }

    /** `bailWith`: the first listener, in order, that may still run and returns something other than nil
        or false decides; listeners that panic are passed over. A once-listener this dispatch ran is spent,
        off the bus and off its owner's list; nobody else is touched. `reached` counts the listeners looked at. */
    method Bail(name: string, scope: Option<Scope>, body: Listener -> Outcome) returns (r: Option<Value>, reached: nat)
      requires Valid()
      modifies this, Members(On(name))`fired, Members(On(name))`listed
      ensures Valid()
      ensures Answers(old(On(name)), scope, old(FiredOn(name)), body, r)
      ensures r.Some? ==> r.value != NIL && r.value != FALSE
      ensures r.None? ==> forall l :: l in old(On(name)) && Passes(l, scope) && (l.once ==> !old(l.fired)) ==>
        body(l) in {Panicked, Returned(NIL), Returned(FALSE)}
      ensures var ls, spent := Filtered(old(On(name)), scope), old(FiredOn(name));
        && reached <= |ls| && Decided(ls, spent, body, r, reached) && (r.None? ==> reached == |ls|)
        && SpentFirst(name, ls, spent, reached)
            && KeptRest(name, old(On(name)), ls, spent, old(ListedOn(name)), reached)
    {
      hide Valid, Filtered, SpentFirst, KeptRest, NoRepeats, Decided, FiredOn, ListedOn, Members, InOrder, Answers;
      var ls := Select(name, scope);
      ghost var was, spent, held := On(name), FiredOn(name), ListedOn(name);
      Snapshot(name, scope);
      r, reached := Dispatch(name, ls, was, spent, held, body);
      DecidedAnswers(was, scope, spent, body, r, reached);
      AnswersMean(was, scope, spent, body, r);
    }

    /** What holds of a snapshot when it is taken. */
    lemma Snapshot(name: string, scope: Option<Scope>)
      requires Valid()
      ensures var was, ls := On(name), Filtered(On(name), scope);
        && NoRepeats(ls) && (forall k :: 0 <= k < |ls| ==> ls[k] in was && ls[k].name == name)
        && SpentFirst(name, ls, FiredOn(name), 0) && KeptRest(name, was, ls, FiredOn(name), ListedOn(name), 0)
        && Members(ls) <= Members(was)
    {
      hide Filtered, Passes, Positions;
      if name in hooks { FilteredDistinct(On(name), scope); }
      var ls, ps := Filtered(On(name), scope), Positions(On(name), scope);
      FilteredInOrder(On(name), scope);
      forall k | 0 <= k < |ls| ensures ls[k] in On(name) && ls[k].name == name {
        assert ls[k] == On(name)[ps[k]];
        assert name in hooks && ls[k] in hooks[name];
      }
    }

    /** The loop of `bailWith`. */
    method Dispatch(name: string, ls: seq<Listener>, ghost was: seq<Listener>, ghost spent: set<Listener>,
        ghost held: set<Listener>,
        body: Listener -> Outcome)
      returns (r: Option<Value>, reached: nat)
      requires Valid() && NoRepeats(ls) && (forall k :: 0 <= k < |ls| ==> ls[k] in was && ls[k].name == name)
      requires SpentFirst(name, ls, spent, 0) && KeptRest(name, was, ls, spent, held, 0)
      modifies this, Members(ls)`fired, Members(ls)`listed
      ensures Valid() && reached <= |ls| && Decided(ls, spent, body, r, reached)
      ensures (r.None? ==> reached == |ls|)
      ensures SpentFirst(name, ls, spent, reached) && KeptRest(name, was, ls, spent, held, reached)
    {
      hide Valid, Filtered, SpentFirst, KeptRest, NoRepeats, Decided;
      NothingDecided(ls, spent, body);
      r, reached := None, 0;
      while reached < |ls| && r.None?
        invariant Valid() && reached <= |ls|
        invariant Decided(ls, spent, body, r, reached)
        invariant SpentFirst(name, ls, spent, reached) && KeptRest(name, was, ls, spent, held, reached)
        decreases |ls| - reached
      {
        r := Next(name, ls[reached], ls, reached, was, spent, held, body);
        reached := reached + 1;
      }
    }

    /** The once-listeners among the first `n` that had not fired before have fired and are off both lists. */
    ghost predicate SpentFirst(name: string, ls: seq<Listener>, spent: set<Listener>, n: nat)
      requires n <= |ls|
      reads this, ls
    {
      forall i :: 0 <= i < n && ls[i].once && ls[i] !in spent ==> ls[i].fired && !ls[i].listed && ls[i] !in On(name)
    }

    /** Whoever is not among the first `n` is untouched. */
    ghost predicate KeptRest(name: string, was: seq<Listener>, ls: seq<Listener>, spent: set<Listener>,
        held: set<Listener>, n: nat)
      requires n <= |ls|
      reads this, was
    {
      forall l :: l in was && l !in ls[..n] ==> l.fired == (l in spent) && l.listed == (l in held) && l in On(name)
    }

    /** One turn of the dispatch. */
    method Next(name: string, l: Listener, ghost ls: seq<Listener>, ghost i: nat, ghost was: seq<Listener>,
        ghost spent: set<Listener>,
        ghost held: set<Listener>, body: Listener -> Outcome)
      returns (r: Option<Value>)
      requires Valid() && i < |ls| && ls[i] == l && NoRepeats(ls)
      requires (forall k :: 0 <= k < |ls| ==> ls[k] in was && ls[k].name == name)
      requires Decided(ls, spent, body, None, i) && SpentFirst(name, ls, spent, i)
      requires KeptRest(name, was, ls, spent, held, i)
      modifies this, l`fired, l`listed
      ensures Valid() && Decided(ls, spent, body, r, i + 1)
      ensures SpentFirst(name, ls, spent, i + 1) && KeptRest(name, was, ls, spent, held, i + 1)
    {
      hide Valid, Filtered;
      assert l !in ls[..i];
      assert ls[..i + 1] == ls[..i] + [l];
      StillThere(On(name), l);
      hide Without;
      var v := Invoke(l, body);
      r := if v.Returned? && v.v != NIL && v.v != FALSE then Some(v.v) else None;
    }
  }

  lemma NothingDecided(ls: seq<Listener>, spent: set<Listener>, body: Listener -> Outcome)
    ensures Decided(ls, spent, body, None, 0)
  {}

  /** The outcome of a dispatch that looked at the first `reached` listeners. */
  predicate Decided(ls: seq<Listener>, spent: set<Listener>, body: Listener -> Outcome, r: Option<Value>, reached: nat)
    requires reached <= |ls|
  {
    && (forall i :: 0 <= i < reached && (r.None? || i < reached - 1) ==> !Bails(ls[i], spent, body))
    && (r.Some? ==> reached > 0 && Bails(ls[reached - 1], spent, body) && r.value == body(ls[reached - 1]).v)
  }

  /** What a dispatch over the registered listeners answers: the value of the first one that passes the scope and
      bails, and nothing if none does. */
  ghost predicate Answers(was: seq<Listener>, scope: Option<Scope>, spent: set<Listener>, body: Listener -> Outcome,
      r: Option<Value>) {
    if r.None? then forall i :: 0 <= i < |was| && Passes(was[i], scope) ==> !Bails(was[i], spent, body)
    else exists k :: FirstToBail(was, scope, spent, body, k) && r.value == body(was[k]).v
  }

  predicate FirstToBail(was: seq<Listener>, scope: Option<Scope>, spent: set<Listener>, body: Listener -> Outcome,
      k: int) {
    && 0 <= k < |was| && Passes(was[k], scope) && Bails(was[k], spent, body)
    && (forall i :: 0 <= i < k && Passes(was[i], scope) ==> !Bails(was[i], spent, body))
  }

  /** Nil and false never decide; and with no answer, whoever may run panics or has nothing else to say. */
  lemma AnswersMean(was: seq<Listener>, scope: Option<Scope>, spent: set<Listener>, body: Listener -> Outcome,
      r: Option<Value>)
    requires Answers(was, scope, spent, body, r)
    ensures r.Some? ==> r.value != NIL && r.value != FALSE
    ensures r.None? ==> forall l :: l in was && Passes(l, scope) && (l.once ==> l !in spent) ==>
      body(l) in {Panicked, Returned(NIL), Returned(FALSE)}
  {
    hide Passes;
  }

  /** The decision over a selection is the answer over the registered listeners. */
  lemma DecidedAnswers(was: seq<Listener>, scope: Option<Scope>, spent: set<Listener>, body: Listener -> Outcome,
      r: Option<Value>, reached: nat)
    requires reached <= |Filtered(was, scope)| && Decided(Filtered(was, scope), spent, body, r, reached)
    requires r.None? ==> reached == |Filtered(was, scope)|
    ensures Answers(was, scope, spent, body, r)
  {
    hide Bails, Passes, Filtered, Positions;
    var ls, ps := Filtered(was, scope), Positions(was, scope);
    FilteredInOrder(was, scope);
    if r.Some? {
      var k := ps[reached - 1];
      forall i | 0 <= i < k && Passes(was[i], scope) ensures !Bails(was[i], spent, body) {
        var j := PositionOf(was, scope, i);
        assert j < reached - 1 && was[i] == ls[j];
      }
      assert FirstToBail(was, scope, spent, body, k);
    } else {
      forall i | 0 <= i < |was| && Passes(was[i], scope) ensures !Bails(was[i], spent, body) {
        var j := PositionOf(was, scope, i);
        assert was[i] == ls[j];
      }
    }
  }

  lemma StillThere(ls: seq<Listener>, l: Listener)
    ensures forall x :: x in Without(ls, l) ==> x in ls
    ensures forall x :: x in ls && x != l ==> x in Without(ls, l)
  {}
}
