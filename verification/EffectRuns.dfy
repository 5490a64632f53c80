/** Effects under concurrency (disposable.go and tryEffect, runDisposer and unload in fiber.go) as a step
    machine: any number of goroutines register effects, return from bodies, call handles and unload the
    fiber; one step executes one critical section of one of them. */
module EffectRuns {
  import opened Options

  /** An entry's shared once. */
  datatype Once = Idle | Busy | Complete

  /** `effectEntry`. The last three fields are history: how often the disposer ran, whether a teardown was
      requested, and whether the body panicked before it produced a disposer. */
  datatype Entry = Entry(
    owner: Option<nat>,
    running: bool,
    installed: bool,
    deferred: bool,
    done: bool,
    children: seq<nat>,
    once: Once,
    runs: nat,
    asked: bool,
    failed: bool)

  /** A fiber's effects: `list` is its disposable list in registration order; it accepts registrations
      unless it is unloading or disposed. */
  datatype Core = Core(entries: map<nat, Entry>, list: seq<nat>, accepts: bool, count: nat)

  /** Where an activation is. User code runs in Body and in Call; what it calls meanwhile is modelled as
      activations of their own. */
  datatype Frame =
    | Try(owner: Option<nat>)
    | Body(e: nat)
    | FinishBody(e: nat, panics: bool)
    | Detach(e: nat)
    | Abandon(e: nat)
    | Install(e: nat)
    | Handle(e: nat)
    | Remove(e: nat)
    | Request(e: nat)
    | Gate(e: nat)
    | Claim(e: nat)
    | Call(e: nat)
    | Unwind(todo: seq<nat>)
    | Finished(e: nat)
    | Close
    | Clear
    | Reopen

  /** A step is blocked, or replaces the frame by `push`, the last of which runs next. */
  datatype Out = Blocked | Ran(core: Core, push: seq<Frame>)

  datatype Sys = Sys(core: Core, pool: map<nat, seq<Frame>>, next: nat)

  function Without(s: seq<nat>, e: nat): seq<nat> {
    if s == [] then []
    else if s[0] == e then s[1..]
    else [s[0]] + Without(s[1..], e)
  }

  function Put(c: Core, e: nat, x: Entry): Core {
    c.(entries := c.entries[e := x])
  }

  /** Takes an entry off its owner's children or off the fiber's list. */
  function Unlink(c: Core, e: nat): Core
    requires e in c.entries
  {
    var owner := c.entries[e].owner;
    if owner.None? then c.(list := Without(c.list, e))
    else if owner.value in c.entries then
      Put(c, owner.value, c.entries[owner.value].(children := Without(c.entries[owner.value].children, e)))
    else c
  }

  function NewEntry(owner: Option<nat>): Entry {
    Entry(owner, true, false, false, false, [], Idle, 0, false, false)
  }

  /** `tryEffect` up to the body: the lifetimes are checked and the entry is published in one section. */
  function ExecTry(c: Core, owner: Option<nat>): Out {
    if !c.accepts then Ran(c, [])
    else if owner.None? then
      Ran(Put(c, c.count, NewEntry(None)).(list := c.list + [c.count], count := c.count + 1), [Body(c.count)])
    else if owner.value !in c.entries || c.entries[owner.value].done || !c.entries[owner.value].running then Ran(c, [])
    else
      var x := c.entries[owner.value];
      Ran(Put(Put(c, owner.value, x.(children := x.children + [c.count])), c.count,
          NewEntry(owner)).(count := c.count + 1),
          [Body(c.count)])
  }

  function ExecRelease(c: Core, fr: Frame): Out
    requires fr.Request? || fr.Gate? || fr.Claim? || fr.Call? || fr.Finished?
    requires fr.e in c.entries
  {
    var x := c.entries[fr.e];
    match fr
    case Request(e) =>
      if x.installed then Ran(Put(c, e, x.(asked := true)), [Gate(e)])
      else Ran(Put(c, e, x.(asked := true, deferred := x.deferred || !x.done)), [])
    case Gate(e) =>
      (match x.once
       case Idle => Ran(Put(c, e, x.(once := Busy)), [Claim(e)])
       case Busy => Blocked
       case Complete => Ran(c, []))
    case Claim(e) =>
      if x.done then Ran(c, [Finished(e)])
      else Ran(Put(c, e, x.(done := true, children := [])), [Finished(e), Unwind(x.children), Call(e)])
    case Call(e) => Ran(Put(c, e, x.(runs := x.runs + 1)), [])
    case Finished(e) => Ran(Put(c, e, x.(once := Complete)), [])
  }

  function ExecBody(c: Core, fr: Frame, ok: bool): Out
    requires fr.Body? || fr.FinishBody? || fr.Detach? || fr.Abandon? || fr.Install?
    requires fr.e in c.entries
  {
    var x := c.entries[fr.e];
    match fr
    case Body(e) => Ran(c, [FinishBody(e, !ok)])
    case FinishBody(e, panics) => Ran(Put(c, e, x.(running := false)), [if panics then Detach(e) else Install(e)])
    case Detach(e) => Ran(Unlink(c, e), [Abandon(e)])
    case Abandon(e) => Ran(Put(c, e, x.(done := true, running := false, failed := true, children := [])),
        [Unwind(x.children)])
    case Install(e) => Ran(Put(c, e, x.(installed := true)), if x.deferred && !x.done then [Request(e)] else [])
  }

  predicate HasEntry(fr: Frame) {
    !fr.Try? && !fr.Unwind? && !fr.Close? && !fr.Clear? && !fr.Reopen?
  }

  predicate FrameIn(c: Core, fr: Frame) {
    && (HasEntry(fr) ==> fr.e in c.entries)
    && (fr.Unwind? ==> forall k :: k in fr.todo ==> k in c.entries)
  }

  function Exec(c: Core, fr: Frame, ok: bool): Out
    requires FrameIn(c, fr)
  {
    match fr
    case Try(owner) => ExecTry(c, owner)
    case Body(_) => ExecBody(c, fr, ok)
    case FinishBody(_, _) => ExecBody(c, fr, ok)
    case Detach(_) => ExecBody(c, fr, ok)
    case Abandon(_) => ExecBody(c, fr, ok)
    case Install(_) => ExecBody(c, fr, ok)
    case Handle(e) => Ran(c, [Remove(e), Request(e)])
    case Remove(e) => Ran(Unlink(c, e), [])
    case Request(_) => ExecRelease(c, fr)
    case Gate(_) => ExecRelease(c, fr)
    case Claim(_) => ExecRelease(c, fr)
    case Call(_) => ExecRelease(c, fr)
    case Finished(_) => ExecRelease(c, fr)
    case Unwind(todo) =>
      if todo == [] then Ran(c, []) else Ran(c, [Unwind(todo[..|todo| - 1]), Request(todo[|todo| - 1])])
    case Close => Ran(c.(accepts := false), [Clear])
    case Clear => Ran(c.(list := []), [Reopen, Unwind(c.list)])
    case Reopen => Ran(c.(accepts := ok), [])
  }

  function Top(st: seq<Frame>): Frame
    requires st != []
  {
    st[|st| - 1]
  }

  function Replaced(st: seq<Frame>, push: seq<Frame>): seq<Frame>
    requires st != []
  {
    st[..|st| - 1] + push
  }

  ghost predicate Steps(s: Sys, t: nat, ok: bool, s': Sys) {
    && t in s.pool && s.pool[t] != [] && FrameIn(s.core, Top(s.pool[t]))
    && var out := Exec(s.core, Top(s.pool[t]), ok);
      && out.Ran?
      && s' == s.(core := out.core, pool := s.pool[t := Replaced(s.pool[t], out.push)])
  }

  /** What any goroutine may start at any time: a registration through any context, a call of a handle that
      was returned, an unload of the fiber. */
  predicate EntryPoint(c: Core, fr: Frame) {
    fr.Try? || fr.Close? || (fr.Handle? && fr.e in c.entries && c.entries[fr.e].installed)
  }

  ghost predicate Calls(s: Sys, fr: Frame, s': Sys) {
    EntryPoint(s.core, fr) && s' == s.(pool := s.pool[s.next := [fr]], next := s.next + 1)
  }

  ghost predicate Next(s: Sys, s': Sys) {
    (exists t, ok :: Steps(s, t, ok, s')) || (exists fr :: Calls(s, fr, s'))
  }

  predicate Init(s: Sys) {
    s == Sys(Core(map[], [], true, 0), map[], 0)
  }

  /** The `i`-th move of a run: a step of one activation, or a call. */
  ghost predicate Move(tr: seq<Sys>, i: int)
    requires 0 <= i < |tr| - 1
  {
    Next(tr[i], tr[i + 1])
  }

  ghost predicate Run(tr: seq<Sys>) {
    |tr| > 0 && Init(tr[0]) && forall i :: 0 <= i < |tr| - 1 ==> Move(tr, i)
  }

  /** Nothing is in flight. */
  predicate Quiet(s: Sys) {
    forall t :: t in s.pool ==> s.pool[t] == []
  }

  // ----- who is responsible for what -----

  /** The parts an activation can play for an entry: running its body up to the installation, holding its
      once, about to call its disposer, bound to request its teardown, bound to carry a request out, and
      giving it up. */
  datatype Role = BodyOf(e: nat) | TokenOf(e: nat) | CallOf(e: nat) | HoldOf(e: nat) | AskOf(e: nat) | DropOf(e: nat)

  predicate Plays(fr: Frame, role: Role) {
    match role
    case BodyOf(e) => (fr.Body? || fr.FinishBody? || fr.Detach? || fr.Abandon? || fr.Install?) && fr.e == e
    case TokenOf(e) => (fr.Claim? || fr.Finished?) && fr.e == e
    case CallOf(e) => fr.Call? && fr.e == e
    case HoldOf(e) => ((fr.Request? || fr.Gate? || fr.Claim?) && fr.e == e) || (fr.Unwind? && e in fr.todo)
    case AskOf(e) => (fr.Request? || fr.Gate? || fr.Claim?) && fr.e == e
    case DropOf(e) => fr.Abandon? && fr.e == e
  }

  ghost predicate PlayedIn(st: seq<Frame>, role: Role) {
    exists i :: 0 <= i < |st| && Plays(st[i], role)
  }

  ghost predicate Played(pool: map<nat, seq<Frame>>, role: Role) {
    exists t :: t in pool && PlayedIn(pool[t], role)
  }

  // ----- the invariant -----

  predicate EntryOk(c: Core, e: nat, x: Entry) {
    && e < c.count
    && (x.owner.Some? ==> x.owner.value < e && x.owner.value in c.entries)
    && (x.running ==> !x.installed && !x.done)
    && (x.failed ==> x.done && !x.installed)
    && (x.done && !x.failed ==> x.installed)
    && (x.done ==> x.children == [])
    && x.runs <= 1 && (x.runs > 0 ==> x.done && !x.failed)
    && (x.once != Idle ==> x.installed)
    && (x.once == Complete ==> x.done)
    && (x.once == Idle && x.installed ==> !x.done)
    && (x.asked && !x.installed && !x.done ==> x.deferred)
    && (forall k :: k in x.children ==> k in c.entries && c.entries[k].owner == Some(e))
  }

  predicate CoreOk(c: Core) {
    && (forall e :: e in c.entries ==> EntryOk(c, e, c.entries[e]))
    && (forall e :: e in c.list ==> e in c.entries)
  }

  /** What an activation relies on about its entry. */
  predicate Relies(fr: Frame, x: Entry) {
    match fr
    case Body(_) => x.running
    case FinishBody(_, _) => x.running
    case Detach(_) => !x.running && !x.installed && !x.done
    case Abandon(_) => !x.running && !x.installed && !x.done
    case Install(_) => !x.running && !x.installed && !x.done
    case Handle(_) => x.installed
    case Remove(_) => x.installed
    case Request(_) => true
    case Gate(_) => x.installed
    case Claim(_) => x.once == Busy && !x.done
    case Call(_) => x.done && !x.failed && x.runs == 0
    case Finished(_) => x.once == Busy && x.done
    case _ => true
  }

  /** How the frames of one stack belong together. */
  predicate Neighbours(st: seq<Frame>, i: nat)
    requires i < |st|
  {
    && (st[i].Call? ==> i >= 2 && st[i - 2] == Finished(st[i].e) && st[i - 1].Unwind?)
    && (st[i].Remove? && i < |st| - 1 ==>
          st[i + 1] in [Request(st[i].e), Gate(st[i].e), Claim(st[i].e), Finished(st[i].e)])
  }

  predicate FrameOk(c: Core, fr: Frame) {
    FrameIn(c, fr) && (HasEntry(fr) ==> Relies(fr, c.entries[fr.e]))
  }

  /** A handle removes its entry only after the whole teardown. */
  predicate TopOk(c: Core, st: seq<Frame>) {
    st != [] && Top(st).Remove? && Top(st).e in c.entries ==> c.entries[Top(st).e].once == Complete
  }

  predicate StackOk(c: Core, st: seq<Frame>) {
    TopOk(c, st) && forall i :: 0 <= i < |st| ==> FrameOk(c, st[i]) && Neighbours(st, i)
  }

  /** Only one activation runs an entry's body, and only one holds its once. */
  predicate Sole(role: Role) {
    role.BodyOf? || role.TokenOf?
  }

  ghost predicate Apart(a: seq<Frame>, b: seq<Frame>) {
    forall i, j, role :: 0 <= i < |a| && 0 <= j < |b| && Sole(role) && Plays(a[i], role) ==> !Plays(b[j], role)
  }

  ghost predicate ApartWithin(st: seq<Frame>) {
    forall i, j, role :: 0 <= i < |st| && 0 <= j < |st| && i != j && Sole(role) && Plays(st[i], role) ==>
        !Plays(st[j], role)
  }

  ghost predicate Distinct(pool: map<nat, seq<Frame>>) {
    && (forall t, u :: t in pool && u in pool && t != u ==> Apart(pool[t], pool[u]))
    && (forall t :: t in pool ==> ApartWithin(pool[t]))
  }

  /** Who still has to act on an entry. */
  ghost predicate Minded(c: Core, pool: map<nat, seq<Frame>>, e: nat, x: Entry) {
    && (!x.installed && !x.done ==> Played(pool, BodyOf(e)))
    && (x.once == Busy ==> Played(pool, TokenOf(e)))
    && (x.done && !x.failed && x.runs == 0 ==> Played(pool, CallOf(e)))
    && (x.asked && x.installed && !x.done ==> Played(pool, AskOf(e)))
    && (!x.done ==> Reached(c, pool, e, x))
  }

  /** No orphan: the entry is in the fiber's list, or a child of a live owner, or an activation is bound to
      request its teardown, or the request was deferred to its body, or its body is giving it up. */
  ghost predicate Reached(c: Core, pool: map<nat, seq<Frame>>, e: nat, x: Entry) {
    || e in c.list
    || (x.owner.Some? && x.owner.value in c.entries && e in c.entries[x.owner.value].children)
    || Played(pool, HoldOf(e))
    || (x.deferred && !x.installed)
    || Played(pool, DropOf(e))
  }

  ghost predicate Inv(s: Sys) {
    && CoreOk(s.core)
    && (forall t :: t in s.pool ==> t < s.next && StackOk(s.core, s.pool[t]))
    && Distinct(s.pool)
    && (forall e :: e in s.core.entries ==> Minded(s.core, s.pool, e, s.core.entries[e]))
  }

  // ----- what one step writes to an entry -----

  predicate Writes(fr: Frame, x: Entry, y: Entry, e: nat) {
    && y.owner == x.owner
    && (!Plays(fr, BodyOf(e)) ==> y.running == x.running && y.installed == x.installed && y.failed == x.failed)
    && (fr != FinishBody(e, true) && fr != FinishBody(e, false) && fr != Abandon(e) ==> y.running == x.running)
    && (y.running ==> x.running)
    && (x.installed ==> y.installed) && (x.installed != y.installed ==> fr == Install(e))
    && (x.failed ==> y.failed) && (x.failed != y.failed ==> fr == Abandon(e))
    && (x.done ==> y.done) && (x.done != y.done ==> fr == Claim(e) || fr == Abandon(e))
    && (x.once != y.once ==>
        (fr == Gate(e) && x.once == Idle && y.once == Busy) || (fr == Finished(e) && y.once == Complete))
    && (x.runs != y.runs ==> fr == Call(e) && y.runs == x.runs + 1)
    && (x.deferred ==> y.deferred)
    && (x.asked ==> y.asked) && (x.asked != y.asked ==> fr == Request(e))
  }

  predicate Kept(c: Core, c': Core, fr: Frame, e: nat) {
    e in c.entries ==> e in c'.entries && Writes(fr, c.entries[e], c'.entries[e], e)
  }

  lemma {:induction false} WithoutIn(s: seq<nat>, e: nat, k: nat)
    ensures k in Without(s, e) ==> k in s
    ensures k in s && k != e ==> k in Without(s, e)
  {
    if s != [] && s[0] != e { WithoutIn(s[1..], e, k); }
  }

  lemma KeptUnlink(c: Core, fr: Frame, x: nat, e: nat)
    ensures x in c.entries ==> Kept(c, Unlink(c, x), fr, e)
  {}

  lemma KeptRelease(c: Core, fr: Frame, e: nat)
    requires (fr.Request? || fr.Gate? || fr.Claim? || fr.Call? || fr.Finished?) && fr.e in c.entries
    requires ExecRelease(c, fr).Ran?
    ensures Kept(c, ExecRelease(c, fr).core, fr, e)
  {
    match fr
    case Request(_) => case Gate(_) => case Claim(_) => case Call(_) => case Finished(_) =>
  }

  lemma KeptBody(c: Core, fr: Frame, ok: bool, e: nat)
    ensures ((fr.Body? || fr.FinishBody? || fr.Detach? || fr.Abandon? || fr.Install?) && fr.e in c.entries) ==>
      Kept(c, ExecBody(c, fr, ok).core, fr, e)
  {
    if ((fr.Body? || fr.FinishBody? || fr.Detach? || fr.Abandon? || fr.Install?) && fr.e in c.entries) {
      match fr
      case Body(_) => case FinishBody(_, _) => case Detach(_) => KeptUnlink(c, fr, fr.e, e);
      case Abandon(_) => case Install(_) =>
    }
  }

  lemma StepKept(c: Core, fr: Frame, ok: bool, e: nat)
    ensures CoreOk(c) && FrameIn(c, fr) && Exec(c, fr, ok).Ran? ==> Kept(c, Exec(c, fr, ok).core, fr, e)
  {
    hide ExecRelease;
    if CoreOk(c) && FrameIn(c, fr) && Exec(c, fr, ok).Ran? {
      if e in c.entries { assert EntryOk(c, e, c.entries[e]); }
      hide CoreOk;
      match fr
      case Try(_) =>
      case Body(_) => KeptBody(c, fr, ok, e);
      case FinishBody(_, _) => KeptBody(c, fr, ok, e);
      case Detach(_) => KeptBody(c, fr, ok, e);
      case Abandon(_) => KeptBody(c, fr, ok, e);
      case Install(_) => KeptBody(c, fr, ok, e);
      case Handle(_) =>
      case Remove(x) => KeptUnlink(c, fr, x, e);
      case Request(_) => KeptRelease(c, fr, e);
      case Gate(_) => KeptRelease(c, fr, e);
      case Claim(_) => KeptRelease(c, fr, e);
      case Call(_) => KeptRelease(c, fr, e);
      case Finished(_) => KeptRelease(c, fr, e);
      case Unwind(_) =>
      case Close =>
      case Clear =>
      case Reopen =>
    }
  }

  // ----- frames that wait -----

  /** A frame the step does not run keeps what it relies on; `fr` is the frame that runs. */
  lemma WaitRelies(fr: Frame, w: Frame, x: Entry, y: Entry)
    requires HasEntry(w) && Writes(fr, x, y, w.e) && Relies(w, x)
    requires (fr == Claim(w.e) ==> x.installed) && (fr == Abandon(w.e) ==> !x.installed)
    requires (x.once != Idle ==> x.installed) && (x.done && !x.failed ==> x.installed)
    requires !(Plays(fr, BodyOf(w.e)) && Plays(w, BodyOf(w.e)))
    requires !(Plays(fr, TokenOf(w.e)) && Plays(w, TokenOf(w.e)))
    requires w.Call? ==> fr != w
    ensures Relies(w, y)
  {}

  lemma WaitStays(c: Core, c': Core, fr: Frame, w: Frame)
    requires CoreOk(c) && FrameOk(c, fr) && FrameOk(c, w)
    requires forall e :: e in c.entries ==> Kept(c, c', fr, e)
    requires forall role :: Sole(role) && Plays(fr, role) ==> !Plays(w, role)
    requires w.Call? ==> fr != w
    ensures FrameOk(c', w)
  {
    hide Writes;
    if HasEntry(w) {
      var x := c.entries[w.e];
      assert EntryOk(c, w.e, x) && Kept(c, c', fr, w.e);
      assert Sole(BodyOf(w.e)) && Sole(TokenOf(w.e));
      hide CoreOk;
      WaitRelies(fr, w, x, c'.entries[w.e]);
    } else if w.Unwind? {
      assert forall k :: k in w.todo ==> Kept(c, c', fr, k);
    }
  }

  // ----- frames a step leaves -----

  /** The pushed frames, which go on top of `below`. */
  lemma PushOk(c: Core, fr: Frame, ok: bool, j: nat)
    ensures CoreOk(c) && FrameOk(c, fr) && Exec(c, fr, ok).Ran? && j < |Exec(c, fr, ok).push| ==>
      FrameOk(Exec(c, fr, ok).core, Exec(c, fr, ok).push[j])
  {
    hide CoreOk, Unlink;
    if HasEntry(fr) { EntryKnown(c, fr.e); }
    match fr
    case Try(_) =>
    case Body(_) => case FinishBody(_, _) =>
    case Detach(e) => KeptUnlink(c, fr, e, e);
    case Abandon(_) => case Install(_) =>
    case Handle(_) => case Remove(_) => case Request(_) => case Gate(_) => case Claim(_) => case Call(_) =>
    case Finished(_) => case Unwind(_) => case Close =>
    case Clear => ListIn(c);
    case Reopen =>
  }

  lemma ListIn(c: Core)
    ensures CoreOk(c) ==> forall k :: k in c.list ==> k in c.entries
  {}

  // ----- the stacks -----

  lemma DistinctFrames(s: Sys, t: nat, u: nat, i: nat)
    requires Distinct(s.pool) && t in s.pool && u in s.pool && s.pool[t] != [] && i < |s.pool[u]|
    requires t != u || i < |s.pool[t]| - 1
    ensures forall role :: Sole(role) && Plays(Top(s.pool[t]), role) ==> !Plays(s.pool[u][i], role)
  {
    if t == u {
      assert ApartWithin(s.pool[t]);
    } else {
      assert Apart(s.pool[t], s.pool[u]);
    }
  }

  /** The call of a disposer sits on its own once, so it is unique. */
  lemma CallSole(s: Sys, t: nat, u: nat, i: nat)
    requires Inv(s) && t in s.pool && u in s.pool && s.pool[t] != [] && i < |s.pool[u]|
    requires (t != u || i < |s.pool[t]| - 1)
    requires s.pool[u][i].Call?
    ensures Top(s.pool[t]) != s.pool[u][i]
  {
    var n := |s.pool[t]|;
    assert StackOk(s.core, s.pool[t]) && StackOk(s.core, s.pool[u]);
    assert Neighbours(s.pool[t], n - 1) && Neighbours(s.pool[u], i);
    assert ApartWithin(s.pool[t]) && (t != u ==> Apart(s.pool[t], s.pool[u]));
    hide Inv, StackOk, Apart, ApartWithin;
    if Top(s.pool[t]) == s.pool[u][i] { CallsMeet(s.pool[t], s.pool[u], s.pool[u][i].e, i, t == u); }
  }

  lemma CallsMeet(a: seq<Frame>, b: seq<Frame>, e: nat, i: nat, same: bool)
    requires a != [] && i < |b| && Top(a) == Call(e) && b[i] == Call(e) && Neighbours(a, |a| - 1)
    requires Neighbours(b, i)
    requires if same then a == b && ApartWithin(a) else Apart(a, b)
    ensures same && i == |a| - 1
  {
    assert Sole(TokenOf(e)) && Plays(a[|a| - 3], TokenOf(e)) && Plays(b[i - 2], TokenOf(e));
  }

  lemma FrameStep(s: Sys, t: nat, ok: bool, s': Sys, u: nat, i: nat)
    ensures Inv(s) && Steps(s, t, ok, s') && u in s.pool && i < |s.pool[u]| && (t != u || i < |s.pool[t]| - 1) ==>
      FrameOk(s'.core, s.pool[u][i])
  {
    hide Exec, Kept, CoreOk;
    if Inv(s) && Steps(s, t, ok, s') && u in s.pool && i < |s.pool[u]| && (t != u || i < |s.pool[t]| - 1) {
      var c, fr := s.core, Top(s.pool[t]);
      assert StackOk(c, s.pool[t]) && StackOk(c, s.pool[u]);
      assert FrameOk(c, s.pool[t][|s.pool[t]| - 1]) && FrameOk(c, s.pool[u][i]);
      DistinctFrames(s, t, u, i);
      if s.pool[u][i].Call? { CallSole(s, t, u, i); }
      forall e | e in c.entries ensures Kept(c, s'.core, fr, e) { StepKept(c, fr, ok, e); }
      hide Inv, StackOk, FrameOk, Distinct, Kept, Steps, Exec;
      assert CoreOk(c) by { InvCore(s); }
      WaitStays(c, s'.core, fr, s.pool[u][i]);
    }
  }

  lemma InvCore(s: Sys)
    ensures Inv(s) ==> CoreOk(s.core)
  {}

  /** Where a stack that did not run stays in order. */
  lemma OtherStack(s: Sys, t: nat, ok: bool, s': Sys, u: nat)
    ensures Inv(s) && Steps(s, t, ok, s') && u in s.pool && u != t ==> StackOk(s'.core, s.pool[u])
  {
    hide Exec, CoreOk;
    if Inv(s) && Steps(s, t, ok, s') && u in s.pool && u != t {
      var st := s.pool[u];
      assert StackOk(s.core, st);
      forall i | 0 <= i < |st| ensures FrameOk(s'.core, st[i]) && Neighbours(st, i) { FrameStep(s, t, ok, s', u, i); }
      if st != [] && Top(st).Remove? {
        var e := Top(st).e;
        assert FrameOk(s.core, st[|st| - 1]);
        InvCore(s);
        StepKept(s.core, Top(s.pool[t]), ok, e);
        assert StackOk(s.core, s.pool[t]) && FrameOk(s.core, s.pool[t][|s.pool[t]| - 1]);
        assert Kept(s.core, s'.core, Top(s.pool[t]), e);
      }
    }
  }

  /** What the frames pushed on a stack have below and above them. */
  lemma RunningNeighbours(c: Core, st: seq<Frame>, ok: bool, i: nat)
    requires CoreOk(c) && st != [] && StackOk(c, st) && Exec(c, Top(st), ok).Ran?
    requires i < |Replaced(st, Exec(c, Top(st), ok).push)|
    ensures Neighbours(Replaced(st, Exec(c, Top(st), ok).push), i)
  {
    hide Exec;
    var fr, n := Top(st), |st|;
    var push := Exec(c, fr, ok).push;
    var st' := Replaced(st, push);
    assert FrameOk(c, st[n - 1]);
    if i < n - 1 { assert Neighbours(st, i) && st'[i] == st[i]; }
    if n >= 2 { assert Neighbours(st, n - 2); }
    hide CoreOk, StackOk, FrameOk, Unlink;
    if i < n - 1 {
      if i < n - 2 {
        assert st'[i + 1] == st[i + 1];
      } else if st[i].Remove? {
        assert fr in [Request(st[i].e), Gate(st[i].e), Claim(st[i].e), Finished(st[i].e)];
        PushedOnRemove(c, fr, ok);
        assert push != [] ==> st'[i + 1] == push[0];
      }
    } else {
      assert st'[i] == push[i - (n - 1)];
      PushNeighbours(c, fr, ok, i - (n - 1));
      if i > n - 1 { assert st'[i - 1] == push[i - n]; }
      if i > n { assert st'[i - 2] == push[i - n - 1]; }
      if i < |st'| - 1 { assert st'[i + 1] == push[i - n + 2]; }
    }
  }

  lemma PushedOnRemove(c: Core, fr: Frame, ok: bool)
    ensures ((fr.Request? || fr.Gate? || fr.Claim? || fr.Finished?) && FrameIn(c, fr) && Exec(c, fr, ok).Ran?) ==>
      var push := Exec(c, fr, ok).push;
      push != [] ==> push[0] in [Request(fr.e), Gate(fr.e), Claim(fr.e), Finished(fr.e)]
  {}

  lemma PushNeighbours(c: Core, fr: Frame, ok: bool, j: nat)
    ensures FrameIn(c, fr) && Exec(c, fr, ok).Ran? && j < |Exec(c, fr, ok).push| ==>
      Neighbours(Exec(c, fr, ok).push, j)
  {
    hide Unlink;
    match fr
    case Try(_) => case Body(_) => case FinishBody(_, _) => case Detach(e) => case Abandon(_) => case Install(_) =>
    case Handle(_) => case Remove(_) => case Request(_) => case Gate(_) => case Claim(_) => case Call(_) =>
    case Finished(_) => case Unwind(_) => case Close => case Clear => case Reopen =>
  }

  /** When the frame above a handle's removal is gone, the once is complete. */
  lemma RunningTop(c: Core, st: seq<Frame>, ok: bool)
    requires CoreOk(c) && st != [] && StackOk(c, st) && Exec(c, Top(st), ok).Ran?
    ensures TopOk(Exec(c, Top(st), ok).core, Replaced(st, Exec(c, Top(st), ok).push))
  {
    hide CoreOk, StackOk, Relies, Exec;
    var fr, n := Top(st), |st|;
    FramesOk(c, st);
    assert FrameOk(c, st[n - 1]);
    var push := Exec(c, fr, ok).push;
    var st' := Replaced(st, push);
    if push != [] {
      assert Top(st') == push[|push| - 1];
      PushNotRemove(c, fr, ok);
    } else if n >= 2 && st[n - 2].Remove? {
      assert Neighbours(st, n - 2) && Top(st') == st[n - 2];
      RunningLast(c, st[n - 2].e, fr, ok);
    }
  }

  lemma FramesOk(c: Core, st: seq<Frame>)
    ensures StackOk(c, st) ==> forall i :: 0 <= i < |st| ==> FrameOk(c, st[i]) && Neighbours(st, i)
  {
    hide FrameOk, Neighbours;
  }

  /** The frame above a removal that ends without another one has found or made the once complete. */
  lemma RunningLast(c: Core, e: nat, fr: Frame, ok: bool)
    requires CoreOk(c) && FrameOk(c, fr) && Exec(c, fr, ok).Ran? && Exec(c, fr, ok).push == []
    requires fr in [Request(e), Gate(e), Claim(e), Finished(e)] && FrameOk(c, Remove(e))
    ensures e in Exec(c, fr, ok).core.entries ==> Exec(c, fr, ok).core.entries[e].once == Complete
  {
    hide CoreOk, ExecTry;
  }

  lemma PushNotRemove(c: Core, fr: Frame, ok: bool)
    ensures FrameIn(c, fr) && Exec(c, fr, ok).Ran? && Exec(c, fr, ok).push != [] ==>
      !Top(Exec(c, fr, ok).push).Remove?
  {
    hide Unlink;
    match fr
    case Try(_) => case Body(_) => case FinishBody(_, _) => case Detach(e) => case Abandon(_) => case Install(_) =>
    case Handle(_) => case Remove(_) => case Request(_) => case Gate(_) => case Claim(_) => case Call(_) =>
    case Finished(_) => case Unwind(_) => case Close => case Clear => case Reopen =>
  }

  lemma OwnStack(s: Sys, t: nat, ok: bool, s': Sys)
    ensures Inv(s) && Steps(s, t, ok, s') ==> StackOk(s'.core, s'.pool[t])
  {
    hide Exec, CoreOk;
    if Inv(s) && Steps(s, t, ok, s') {
      var c, st, fr := s.core, s.pool[t], Top(s.pool[t]);
      assert StackOk(c, st) && FrameOk(c, st[|st| - 1]);
      InvCore(s);
      var push := Exec(c, fr, ok).push;
      forall i | 0 <= i < |s'.pool[t]| ensures FrameOk(s'.core, s'.pool[t][i]) && Neighbours(s'.pool[t], i) {
        RunningNeighbours(c, st, ok, i);
        if i < |st| - 1 {
          FrameStep(s, t, ok, s', t, i);
        } else {
          PushOk(c, fr, ok, i - (|st| - 1));
        }
      }
      RunningTop(c, st, ok);
    }
  }

  // ----- sole roles -----

  /** The sole roles of pushed frames: those of the frame that ran, the body of a new entry, or a once that
      was idle. */
  lemma PushRoles(c: Core, fr: Frame, ok: bool, j: nat, role: Role)
    ensures
      && CoreOk(c) && FrameOk(c, fr) && Exec(c, fr, ok).Ran? && j < |Exec(c, fr, ok).push| && Sole(role)
      && Plays(Exec(c, fr, ok).push[j], role)
      ==>
      && (Plays(fr, role) || role == BodyOf(c.count)
         || (role.TokenOf? && role.e in c.entries && c.entries[role.e].once == Idle))
      && (forall k :: 0 <= k < |Exec(c, fr, ok).push| && k != j ==> !Plays(Exec(c, fr, ok).push[k], role))
  {
    hide CoreOk, Unlink;
    match fr
    case Try(_) => case Body(_) => case FinishBody(_, _) => case Detach(e) => case Abandon(_) => case Install(_) =>
    case Handle(_) => case Remove(_) => case Request(_) => case Gate(_) => case Claim(_) => case Call(_) =>
    case Finished(_) => case Unwind(_) => case Close => case Clear => case Reopen =>
  }

  /** No frame plays the body of an entry yet to come, or holds a once that is idle. */
  lemma NotYet(c: Core, w: Frame, role: Role)
    requires CoreOk(c) && FrameOk(c, w)
    requires role == BodyOf(c.count) || (role.TokenOf? && role.e in c.entries && c.entries[role.e].once == Idle)
    ensures !Plays(w, role)
  {
    if HasEntry(w) { assert EntryOk(c, w.e, c.entries[w.e]); }
  }

  lemma PairApart(s: Sys, t: nat, ok: bool, s': Sys, u: nat, i: nat, j: nat, role: Role)
    requires Inv(s) && Steps(s, t, ok, s') && u in s.pool && i < |s.pool[u]|
    requires (t != u || i < |s.pool[t]| - 1)
    requires |s.pool[t]| - 1 <= j < |s'.pool[t]| && Sole(role)
    ensures !(Plays(s.pool[u][i], role) && Plays(s'.pool[t][j], role))
  {
    hide Exec, CoreOk;
    var c, fr := s.core, Top(s.pool[t]);
    if Plays(s'.pool[t][j], role) {
      assert StackOk(c, s.pool[t]) && StackOk(c, s.pool[u]);
      assert FrameOk(c, s.pool[t][|s.pool[t]| - 1]) && FrameOk(c, s.pool[u][i]);
      InvCore(s);
      PushRoles(c, fr, ok, j - (|s.pool[t]| - 1), role);
      DistinctFrames(s, t, u, i);
      if !Plays(fr, role) { NotYet(c, s.pool[u][i], role); }
    }
  }

  lemma StackKnown(s: Sys, t: nat)
    ensures Inv(s) && t in s.pool ==> StackOk(s.core, s.pool[t])
  {
    hide CoreOk, StackOk, Distinct, Minded;
  }

  lemma PushesApart(s: Sys, t: nat, ok: bool, s': Sys, i: nat, j: nat, role: Role)
    requires Inv(s) && Steps(s, t, ok, s') && Sole(role) && i != j
    requires |s.pool[t]| - 1 <= i < |s'.pool[t]| && |s.pool[t]| - 1 <= j < |s'.pool[t]|
    ensures !(Plays(s'.pool[t][i], role) && Plays(s'.pool[t][j], role))
  {
    hide Inv, CoreOk, StackOk, Exec;
    if Plays(s'.pool[t][j], role) {
      StackKnown(s, t);
      FramesOk(s.core, s.pool[t]);
      InvCore(s);
      PushRoles(s.core, Top(s.pool[t]), ok, j - (|s.pool[t]| - 1), role);
      assert s'.pool[t][i] == Exec(s.core, Top(s.pool[t]), ok).push[i - (|s.pool[t]| - 1)];
    }
  }

  lemma DistinctStep(s: Sys, t: nat, ok: bool, s': Sys)
    ensures Inv(s) && Steps(s, t, ok, s') ==> Distinct(s'.pool)
  {
    hide Exec, StackOk;
    if Inv(s) && Steps(s, t, ok, s') {
      var n := |s.pool[t]| - 1;
      assert s'.pool[t] == Replaced(s.pool[t], Exec(s.core, Top(s.pool[t]), ok).push);
      assert s'.pool.Keys == s.pool.Keys && forall u :: u in s.pool && u != t ==> s'.pool[u] == s.pool[u];
      assert Distinct(s.pool);
      forall u | u in s.pool && u != t ensures Apart(s'.pool[t], s'.pool[u]) && Apart(s'.pool[u], s'.pool[t]) {
        assert Apart(s.pool[t], s.pool[u]) && Apart(s.pool[u], s.pool[t]);
        forall i, j, role | 0 <= i < |s'.pool[t]| && 0 <= j < |s.pool[u]| && Sole(role)
          ensures !(Plays(s'.pool[t][i], role) && Plays(s.pool[u][j], role))
        {
          if i < n { assert s'.pool[t][i] == s.pool[t][i]; } else { PairApart(s, t, ok, s', u, j, i, role); }
        }
      }
      assert ApartWithin(s.pool[t]);
      forall i, j, role | 0 <= i < |s'.pool[t]| && 0 <= j < |s'.pool[t]| && i != j && Sole(role)
        ensures !(Plays(s'.pool[t][i], role) && Plays(s'.pool[t][j], role))
      {
        if i < n && j < n { assert s'.pool[t][i] == s.pool[t][i] && s'.pool[t][j] == s.pool[t][j]; }
        else if i < n { PairApart(s, t, ok, s', t, i, j, role); assert s'.pool[t][i] == s.pool[t][i]; }
        else if j < n { PairApart(s, t, ok, s', t, j, i, role); assert s'.pool[t][j] == s.pool[t][j]; }
        else { PushesApart(s, t, ok, s', i, j, role); }
      }
      hide Inv, Steps, Plays;
    }
  }

  // ----- the entries -----

  lemma UnlinkOk(c: Core, x: nat)
    ensures CoreOk(c) && x in c.entries ==>
      CoreOk(Unlink(c, x)) && Unlink(c, x).count == c.count && Unlink(c, x).entries.Keys == c.entries.Keys
  {
    if CoreOk(c) && x in c.entries {
      var c' := Unlink(c, x);
      assert EntryOk(c, x, c.entries[x]);
      forall e | e in c'.entries ensures EntryOk(c', e, c'.entries[e]) {
        assert EntryOk(c, e, c.entries[e]);
        forall k | k in c'.entries[e].children ensures k in c.entries[e].children {
          WithoutIn(c.entries[e].children, x, k);
        }
        assert c'.entries[e].done ==> c'.entries[e].children == [];
      }
      forall e | e in c'.list ensures e in c'.entries { WithoutIn(c.list, x, e); }
    }
  }

  /** Replacing one entry's record, same owner, no new children. */
  lemma PutOk(c: Core, e: nat, y: Entry)
    ensures CoreOk(c) && e in c.entries && y.owner == c.entries[e].owner && EntryOk(c, e, y) ==>
      CoreOk(Put(c, e, y))
  {
    if CoreOk(c) && e in c.entries && y.owner == c.entries[e].owner && EntryOk(c, e, y) {
      var c' := Put(c, e, y);
      forall d | d in c'.entries ensures EntryOk(c', d, c'.entries[d]) {
        if d != e { assert EntryOk(c, d, c.entries[d]); }
      }
    }
  }

  lemma CoreRelease(c: Core, fr: Frame)
    requires CoreOk(c) && (fr.Request? || fr.Gate? || fr.Claim? || fr.Call? || fr.Finished?) && FrameOk(c, fr)
    requires ExecRelease(c, fr).Ran?
    ensures CoreOk(ExecRelease(c, fr).core)
  {
    var e, x := fr.e, c.entries[fr.e];
    assert EntryOk(c, e, x);
    hide CoreOk;
    match fr
    case Request(_) => PutOk(c, e, ExecRelease(c, fr).core.entries[e]);
    case Gate(_) => if x.once == Idle { PutOk(c, e, x.(once := Busy)); }
    case Claim(_) => PutOk(c, e, x.(done := true, children := []));
    case Call(_) => PutOk(c, e, x.(runs := x.runs + 1));
    case Finished(_) => PutOk(c, e, x.(once := Complete));
  }

  lemma CoreBody(c: Core, fr: Frame, ok: bool)
    requires CoreOk(c) && (fr.Body? || fr.FinishBody? || fr.Detach? || fr.Abandon? || fr.Install?)
    requires FrameOk(c, fr)
    ensures CoreOk(ExecBody(c, fr, ok).core)
  {
    var e, x := fr.e, c.entries[fr.e];
    assert EntryOk(c, e, x);
    hide CoreOk, Unlink;
    match fr
    case Body(_) =>
    case FinishBody(_, _) => PutOk(c, e, x.(running := false));
    case Detach(_) => UnlinkOk(c, e);
    case Abandon(_) => PutOk(c, e, x.(done := true, running := false, failed := true, children := []));
    case Install(_) => PutOk(c, e, x.(installed := true));
  }

  lemma NextFresh(c: Core)
    ensures CoreOk(c) ==> forall e :: e in c.entries ==> e < c.count
  {
    if CoreOk(c) {
      forall e | e in c.entries ensures e < c.count { assert EntryOk(c, e, c.entries[e]); }
    }
  }

  lemma CoreTry(c: Core, owner: Option<nat>)
    ensures CoreOk(c) ==> CoreOk(ExecTry(c, owner).core)
  {
    if CoreOk(c) {
      var c' := ExecTry(c, owner).core;
      NextFresh(c);
      forall e | e in c'.entries ensures EntryOk(c', e, c'.entries[e]) {
        if e in c.entries { assert EntryOk(c, e, c.entries[e]); }
        if owner.Some? && owner.value in c.entries { assert EntryOk(c, owner.value, c.entries[owner.value]); }
      }
    }
  }

  lemma CoreStep(c: Core, fr: Frame, ok: bool)
    ensures CoreOk(c) && FrameOk(c, fr) && Exec(c, fr, ok).Ran? ==> CoreOk(Exec(c, fr, ok).core)
  {
    hide Unlink, ExecTry, ExecBody, ExecRelease, CoreOk;
    if CoreOk(c) && FrameOk(c, fr) && Exec(c, fr, ok).Ran? {
      match fr
      case Try(owner) => CoreTry(c, owner);
      case Body(_) => CoreBody(c, fr, ok);
      case FinishBody(_, _) => CoreBody(c, fr, ok);
      case Detach(_) => CoreBody(c, fr, ok);
      case Abandon(_) => CoreBody(c, fr, ok);
      case Install(_) => CoreBody(c, fr, ok);
      case Handle(_) =>
      case Remove(e) => UnlinkOk(c, e);
      case Request(_) => CoreRelease(c, fr);
      case Gate(_) => CoreRelease(c, fr);
      case Claim(_) => CoreRelease(c, fr);
      case Call(_) => CoreRelease(c, fr);
      case Finished(_) => CoreRelease(c, fr);
      case Unwind(_) =>
      case Close => SameEntries(c, c.(accepts := false));
      case Clear => SameEntries(c, c.(list := []));
      case Reopen => SameEntries(c, c.(accepts := ok));
    }
  }

  lemma SameEntries(c: Core, c': Core)
    ensures CoreOk(c) && c'.entries == c.entries && c'.count == c.count && (c'.list == c.list || c'.list == []) ==>
      CoreOk(c')
  {
    if CoreOk(c) && c'.entries == c.entries && c'.count == c.count && (c'.list == c.list || c'.list == []) {
      forall e | e in c'.entries ensures EntryOk(c', e, c'.entries[e]) { assert EntryOk(c, e, c.entries[e]); }
    }
  }

  // ----- nobody is forgotten -----

  lemma PlayedStep(s: Sys, t: nat, ok: bool, s': Sys, role: Role)
    ensures Steps(s, t, ok, s') && Played(s.pool, role) && !Plays(Top(s.pool[t]), role) ==> Played(s'.pool, role)
  {
    hide Exec, Plays;
    if Steps(s, t, ok, s') && Played(s.pool, role) && !Plays(Top(s.pool[t]), role) {
      var u :| u in s.pool && PlayedIn(s.pool[u], role);
      var i :| 0 <= i < |s.pool[u]| && Plays(s.pool[u][i], role);
      assert s'.pool[u][i] == s.pool[u][i];
      assert PlayedIn(s'.pool[u], role);
    }
  }

  lemma PushPlays(s: Sys, t: nat, ok: bool, s': Sys, role: Role, j: nat)
    requires Steps(s, t, ok, s') && j < |Exec(s.core, Top(s.pool[t]), ok).push|
    requires Plays(Exec(s.core, Top(s.pool[t]), ok).push[j], role)
    ensures Played(s'.pool, role)
  {
    hide Exec, Plays;
    var push := Exec(s.core, Top(s.pool[t]), ok).push;
    assert s'.pool[t][|s.pool[t]| - 1 + j] == push[j];
    assert PlayedIn(s'.pool[t], role);
  }

  /** The role is played after the step if it was before, or if a pushed frame takes it. */
  ghost predicate Passed(out: Out, role: Role)
    requires out.Ran?
  {
    exists j :: 0 <= j < |out.push| && Plays(out.push[j], role)
  }

  lemma RoleStep(s: Sys, t: nat, ok: bool, s': Sys, role: Role)
    requires Steps(s, t, ok, s')
    requires Passed(Exec(s.core, Top(s.pool[t]), ok), role) || (Played(s.pool, role) && !Plays(Top(s.pool[t]), role))
    ensures Played(s'.pool, role)
  {
    hide Exec;
    if Passed(Exec(s.core, Top(s.pool[t]), ok), role) {
      var j :| 0 <= j < |Exec(s.core, Top(s.pool[t]), ok).push|
          && Plays(Exec(s.core, Top(s.pool[t]), ok).push[j], role);
      PushPlays(s, t, ok, s', role, j);
    } else {
      PlayedStep(s, t, ok, s', role);
    }
  }

  /** What the running frame does for an entry it is responsible for. */
  lemma BodyPassed(c: Core, fr: Frame, ok: bool, e: nat)
    ensures CoreOk(c) && FrameOk(c, fr) && Plays(fr, BodyOf(e)) && Exec(c, fr, ok).Ran? ==>
      var out := Exec(c, fr, ok);
      e in out.core.entries && (out.core.entries[e].installed || out.core.entries[e].done || Passed(out, BodyOf(e)))
  {
    hide CoreOk, Unlink, Kept, ExecRelease, ExecTry;
    if CoreOk(c) && FrameOk(c, fr) && Plays(fr, BodyOf(e)) && Exec(c, fr, ok).Ran? {
      KeptBody(c, fr, ok, e);
      var out := Exec(c, fr, ok);
      match fr
      case Body(_) => assert Plays(out.push[0], BodyOf(e));
      case FinishBody(_, _) => assert Plays(out.push[0], BodyOf(e));
      case Detach(_) => assert Plays(out.push[0], BodyOf(e));
      case Abandon(_) =>
      case Install(_) =>
    }
  }

  lemma TokenPassed(c: Core, fr: Frame, ok: bool, e: nat)
    requires CoreOk(c) && FrameOk(c, fr) && Exec(c, fr, ok).Ran? && e in c.entries
    requires (Plays(fr, TokenOf(e)) || fr == Gate(e))
    ensures var out := Exec(c, fr, ok);
      e in out.core.entries && (out.core.entries[e].once != Busy || Passed(out, TokenOf(e)))
  {
    hide CoreOk, ExecTry;
    var out := Exec(c, fr, ok);
    match fr
    case Claim(_) => assert Plays(out.push[0], TokenOf(e));
    case Finished(_) =>
    case Gate(_) => if c.entries[e].once == Idle { assert Plays(out.push[0], TokenOf(e)); }
  }

  lemma CallPassed(c: Core, fr: Frame, ok: bool, e: nat)
    requires CoreOk(c) && FrameOk(c, fr) && Exec(c, fr, ok).Ran? && e in c.entries
    requires fr == Call(e) || fr == Claim(e) || fr == Abandon(e)
    ensures var out := Exec(c, fr, ok);
      e in out.core.entries && (out.core.entries[e].failed || out.core.entries[e].runs > 0 || Passed(out, CallOf(e)))
  {
    hide CoreOk, ExecTry;
    var out := Exec(c, fr, ok);
    match fr
    case Call(_) =>
    case Claim(_) => assert Plays(out.push[2], CallOf(e));
    case Abandon(_) =>
  }

  lemma AskPassed(c: Core, fr: Frame, ok: bool, e: nat)
    requires CoreOk(c) && FrameOk(c, fr) && Exec(c, fr, ok).Ran? && e in c.entries
    requires Plays(fr, AskOf(e)) || fr == Install(e)
    ensures var out := Exec(c, fr, ok);
      e in out.core.entries
          && (out.core.entries[e].done || !out.core.entries[e].installed || !out.core.entries[e].asked
              || Passed(out, AskOf(e)))
  {
    hide ExecTry;
    assert EntryOk(c, e, c.entries[e]);
    hide CoreOk;
    var out := Exec(c, fr, ok);
    match fr
    case Request(_) => if c.entries[e].installed { assert Plays(out.push[0], AskOf(e)); }
    case Gate(_) => if c.entries[e].once == Idle { assert Plays(out.push[0], AskOf(e)); }
    case Claim(_) =>
    case Install(_) => if c.entries[e].asked { assert Plays(out.push[0], AskOf(e)); }
  }

  /** The frame that ran was bound to request the entry's teardown, or is giving the entry up. */
  lemma HoldPassed(c: Core, fr: Frame, ok: bool, e: nat)
    requires CoreOk(c) && FrameOk(c, fr) && Exec(c, fr, ok).Ran? && e in c.entries && !c.entries[e].done
    requires Plays(fr, HoldOf(e)) || fr == Install(e) || fr == Abandon(e)
    ensures var out := Exec(c, fr, ok);
      && e in out.core.entries
      && (out.core.entries[e].done || Passed(out, HoldOf(e))
          || (out.core.entries[e].deferred && !out.core.entries[e].installed)
          || (fr == Install(e) && !c.entries[e].deferred))
  {
    hide ExecTry;
    assert EntryOk(c, e, c.entries[e]);
    hide CoreOk;
    var out := Exec(c, fr, ok);
    match fr
    case Request(_) => if c.entries[e].installed { assert Plays(out.push[0], HoldOf(e)); }
    case Gate(_) => if c.entries[e].once == Idle { assert Plays(out.push[0], HoldOf(e)); }
    case Claim(_) =>
    case Unwind(todo) =>
      if todo[|todo| - 1] == e {
        assert Plays(out.push[1], HoldOf(e));
      } else {
        assert e in todo[..|todo| - 1];
        assert Plays(out.push[0], HoldOf(e));
      }
    case Install(_) => if c.entries[e].deferred { assert Plays(out.push[0], HoldOf(e)); }
    case Abandon(_) =>
  }

  /** Where an entry was linked, it stays linked, or the step takes it over. */
  lemma LinkPassed(c: Core, fr: Frame, ok: bool, e: nat)
    requires CoreOk(c) && FrameOk(c, fr) && Exec(c, fr, ok).Ran? && e in c.entries && !c.entries[e].done
    requires fr != Remove(e)
    ensures var out := Exec(c, fr, ok);
      && (e in c.list ==> e in out.core.list || Passed(out, HoldOf(e)) || Passed(out, DropOf(e)))
      && (c.entries[e].owner.Some? && c.entries[e].owner.value in c.entries
          && e in c.entries[c.entries[e].owner.value].children ==>
            || (c.entries[e].owner.value in out.core.entries
                && e in out.core.entries[c.entries[e].owner.value].children)
            || Passed(out, HoldOf(e)) || Passed(out, DropOf(e)))
  {
    hide CoreOk, Unlink, Relies, ExecTry;
    OwnerOk(c, e);
    var out := Exec(c, fr, ok);
    match fr
    case Try(_) => TryKeeps(c, fr.owner, e);
    case Body(_) => case FinishBody(_, _) =>
    case Detach(x) => if x == e { assert Plays(out.push[0], DropOf(e)); } else { UnlinkKeeps(c, x, e); }
    case Abandon(x) => if e in c.entries[x].children { assert Plays(out.push[0], HoldOf(e)); }
    case Install(_) => case Handle(_) =>
    case Remove(x) => UnlinkKeeps(c, x, e);
    case Request(_) => case Gate(_) =>
    case Claim(x) =>
      EntryKnown(c, x);
      if e in c.entries[x].children { assert Plays(out.push[1], HoldOf(e)); }
    case Call(_) => case Finished(_) => case Unwind(_) => case Close =>
    case Clear => if e in c.list { assert Plays(out.push[1], HoldOf(e)); }
    case Reopen =>
  }

  lemma EntryKnown(c: Core, e: nat)
    ensures CoreOk(c) && e in c.entries ==> EntryOk(c, e, c.entries[e])
  {}

  lemma OwnerOk(c: Core, e: nat)
    ensures CoreOk(c) && e in c.entries ==>
      var o := c.entries[e].owner; o.Some? ==> o.value in c.entries && EntryOk(c, o.value, c.entries[o.value])
  {
    if CoreOk(c) && e in c.entries {
      assert EntryOk(c, e, c.entries[e]);
    }
  }

  /** A registration keeps every link. */
  lemma TryKeeps(c: Core, owner: Option<nat>, e: nat)
    ensures CoreOk(c) && e in c.entries ==>
      (e in c.list ==> e in ExecTry(c, owner).core.list)
      && (forall o :: o in c.entries ==>
          o in ExecTry(c, owner).core.entries && c.entries[o].children <= ExecTry(c, owner).core.entries[o].children)
  {
    if CoreOk(c) && e in c.entries {
      forall o | o in c.entries ensures o != c.count { assert EntryOk(c, o, c.entries[o]); }
    }
  }

  lemma UnlinkKeeps(c: Core, x: nat, e: nat)
    ensures x in c.entries && x != e ==>
      (e in c.list ==> e in Unlink(c, x).list)
      && (forall o :: o in c.entries ==>
          o in Unlink(c, x).entries && (e in c.entries[o].children ==> e in Unlink(c, x).entries[o].children))
  {
    if x in c.entries && x != e {
      WithoutIn(c.list, x, e);
      var owner := c.entries[x].owner;
      if owner.Some? && owner.value in c.entries { WithoutIn(c.entries[owner.value].children, x, e); }
    }
  }

  lemma ReachedStep(s: Sys, t: nat, ok: bool, s': Sys, e: nat)
    requires Inv(s) && Steps(s, t, ok, s') && e in s.core.entries && e in s'.core.entries
    requires !s.core.entries[e].done && Reached(s.core, s.pool, e, s.core.entries[e])
    ensures s'.core.entries[e].done || Reached(s'.core, s'.pool, e, s'.core.entries[e])
  {
    var c, st, fr := s.core, s.pool[t], Top(s.pool[t]);
    var out := Exec(c, fr, ok);
    InvCore(s);
    assert StackOk(c, st) && FrameOk(c, st[|st| - 1]);
    StepKept(c, fr, ok, e);
    assert EntryOk(c, e, c.entries[e]);
    assert fr != Remove(e);
    LinkPassed(c, fr, ok, e);
    if Plays(fr, HoldOf(e)) || fr == Install(e) || fr == Abandon(e) { HoldPassed(c, fr, ok, e); }
    hide Inv, CoreOk, FrameOk, StackOk, Exec, Plays, Passed, Played;
    if Passed(out, HoldOf(e)) { RoleStep(s, t, ok, s', HoldOf(e)); }
    if Passed(out, DropOf(e)) { RoleStep(s, t, ok, s', DropOf(e)); }
    if Played(s.pool, HoldOf(e)) && !Plays(fr, HoldOf(e)) { RoleStep(s, t, ok, s', HoldOf(e)); }
    if Played(s.pool, DropOf(e)) && !Plays(fr, DropOf(e)) { RoleStep(s, t, ok, s', DropOf(e)); }
    DropFrame(fr, e);
  }

  lemma DropFrame(fr: Frame, e: nat)
    ensures Plays(fr, DropOf(e)) <==> fr == Abandon(e)
  {}

  lemma MindedStep(s: Sys, t: nat, ok: bool, s': Sys, e: nat)
    ensures Inv(s) && Steps(s, t, ok, s') && e in s.core.entries ==>
      e in s'.core.entries && Minded(s'.core, s'.pool, e, s'.core.entries[e])
  {
    hide Inv, CoreOk, StackOk, Exec;
    if Inv(s) && Steps(s, t, ok, s') && e in s.core.entries {
      var c, st, fr := s.core, s.pool[t], Top(s.pool[t]);
      var x := c.entries[e];
      InvCore(s);
      StackKnown(s, t);
      FramesOk(c, st);
      EntryKnown(c, e);
      MindedKnown(s, e);
      assert FrameOk(c, st[|st| - 1]);
      StepKept(c, fr, ok, e);
      var y := s'.core.entries[e];
      if !y.done { ReachedStep(s, t, ok, s', e); }
      if Plays(fr, BodyOf(e)) { BodyPassed(c, fr, ok, e); }
      if Plays(fr, TokenOf(e)) || fr == Gate(e) { TokenPassed(c, fr, ok, e); }
      if fr == Call(e) || fr == Claim(e) || fr == Abandon(e) { CallPassed(c, fr, ok, e); }
      if Plays(fr, AskOf(e)) || fr == Install(e) { AskPassed(c, fr, ok, e); }
      assert Plays(fr, CallOf(e)) <==> fr == Call(e);
      assert fr == Request(e) ==> Plays(fr, AskOf(e));
      hide FrameOk, Exec, Plays, Passed, Played, Reached;
      if !y.installed && !y.done { RoleStep(s, t, ok, s', BodyOf(e)); }
      if y.once == Busy { RoleStep(s, t, ok, s', TokenOf(e)); }
      if y.done && !y.failed && y.runs == 0 { RoleStep(s, t, ok, s', CallOf(e)); }
      if y.asked && y.installed && !y.done { RoleStep(s, t, ok, s', AskOf(e)); }
    }
  }

  lemma MindedKnown(s: Sys, e: nat)
    ensures Inv(s) && e in s.core.entries ==> Minded(s.core, s.pool, e, s.core.entries[e])
  {
    hide CoreOk, StackOk, Distinct, Minded;
  }

  /** A new entry is linked, and its body is about to run. */
  lemma MindedNew(s: Sys, t: nat, ok: bool, s': Sys, e: nat)
    ensures Inv(s) && Steps(s, t, ok, s') && e !in s.core.entries && e in s'.core.entries ==>
      Minded(s'.core, s'.pool, e, s'.core.entries[e])
  {
    hide Exec, Inv;
    if Inv(s) && Steps(s, t, ok, s') && e !in s.core.entries && e in s'.core.entries {
      var c, fr := s.core, Top(s.pool[t]);
      NewOnlyByTry(c, fr, ok, e);
      var out := Exec(c, fr, ok);
      assert Plays(out.push[0], BodyOf(e));
      PushPlays(s, t, ok, s', BodyOf(e), 0);
    }
  }

  lemma NewOnlyByTry(c: Core, fr: Frame, ok: bool, e: nat)
    ensures FrameIn(c, fr) && Exec(c, fr, ok).Ran? && e !in c.entries && e in Exec(c, fr, ok).core.entries ==>
      && fr.Try? && e == c.count && Exec(c, fr, ok).push == [Body(e)]
      && Exec(c, fr, ok).core.entries[e] == NewEntry(fr.owner)
      && (if fr.owner.None? then e in Exec(c, fr, ok).core.list else
            fr.owner.value in Exec(c, fr, ok).core.entries
            && e in Exec(c, fr, ok).core.entries[fr.owner.value].children)
  {
    match fr
    case Try(_) => case Body(_) => case FinishBody(_, _) => case Detach(_) => case Abandon(_) => case Install(_) =>
    case Handle(_) => case Remove(_) => case Request(_) => case Gate(_) => case Claim(_) => case Call(_) =>
    case Finished(_) => case Unwind(_) => case Close => case Clear => case Reopen =>
  }

  lemma InvStep(s: Sys, t: nat, ok: bool, s': Sys)
    ensures Inv(s) && Steps(s, t, ok, s') ==> Inv(s')
  {
    hide Exec, CoreOk;
    if Inv(s) && Steps(s, t, ok, s') {
      assert StackOk(s.core, s.pool[t]) && FrameOk(s.core, s.pool[t][|s.pool[t]| - 1]);
      CoreStep(s.core, Top(s.pool[t]), ok);
      DistinctStep(s, t, ok, s');
      hide StackOk, FrameOk, CoreOk, Distinct, Minded, Exec;
      forall u | u in s'.pool ensures u < s'.next && StackOk(s'.core, s'.pool[u]) {
        if u == t { OwnStack(s, t, ok, s'); } else { OtherStack(s, t, ok, s', u); }
      }
      forall e | e in s'.core.entries ensures Minded(s'.core, s'.pool, e, s'.core.entries[e]) {
        if e in s.core.entries { MindedStep(s, t, ok, s', e); } else { MindedNew(s, t, ok, s', e); }
      }
    }
  }

  lemma InvCall(s: Sys, fr: Frame, s': Sys)
    ensures Inv(s) && Calls(s, fr, s') ==> Inv(s')
  {
    hide CoreOk;
    if Inv(s) && Calls(s, fr, s') {
      assert s.next !in s.pool;
      assert s'.pool[s.next] == [fr] && forall u :: u in s.pool ==> s'.pool[u] == s.pool[u];
      assert FrameOk(s.core, fr) && forall role :: Sole(role) ==> !Plays(fr, role);
      forall e | e in s.core.entries ensures Minded(s'.core, s'.pool, e, s'.core.entries[e]) {
        assert Minded(s.core, s.pool, e, s.core.entries[e]);
        forall role | Played(s.pool, role) ensures Played(s'.pool, role) {
          var u :| u in s.pool && PlayedIn(s.pool[u], role);
          assert PlayedIn(s'.pool[u], role);
        }
      }
      forall u, v | u in s'.pool && v in s'.pool && u != v ensures Apart(s'.pool[u], s'.pool[v]) {
        if u in s.pool && v in s.pool { assert Apart(s.pool[u], s.pool[v]); }
      }
      forall u | u in s'.pool ensures ApartWithin(s'.pool[u]) {
        if u in s.pool { assert ApartWithin(s.pool[u]); }
      }
      assert StackOk(s.core, [fr]);
    }
  }

  lemma {:induction false} InvRun(tr: seq<Sys>, i: nat)
    requires Run(tr) && i < |tr|
    ensures forall k :: 0 <= k <= i ==> Inv(tr[k])
  {
    hide Steps, StackOk;
    if i > 0 {
      InvRun(tr, i - 1);
      var s, s' := tr[i - 1], tr[i];
      assert Move(tr, i - 1);
      hide Inv, Run;
      if t, ok :| Steps(s, t, ok, s') {
        hide Steps;
        InvStep(s, t, ok, s');
      } else {
        var fr :| Calls(s, fr, s');
        hide Calls;
        InvCall(s, fr, s');
      }
    }
  }

  // ----- the theorems -----

  /** A disposer never runs before its body returned one, and at most once. */
  lemma RunsAtMostOnce(tr: seq<Sys>, i: nat)
    requires Run(tr) && i < |tr|
    ensures forall e :: e in tr[i].core.entries ==>
      var x := tr[i].core.entries[e]; x.runs <= 1 && (x.runs > 0 ==> x.installed && x.done && !x.running)
  {
    hide Run, StackOk;
    InvRun(tr, i);
    assert forall e :: e in tr[i].core.entries ==> EntryOk(tr[i].core, e, tr[i].core.entries[e]);
  }

  /** No effect is orphaned: an entry is done, or linked under a live owner or in the fiber's list, or held
      by an activation bound to tear it down, or its request waits for its body, which still runs. */
  lemma NoOrphan(tr: seq<Sys>, i: nat, e: nat)
    requires Run(tr) && i < |tr| && e in tr[i].core.entries && !tr[i].core.entries[e].done
    ensures var c, pool, x := tr[i].core, tr[i].pool, tr[i].core.entries[e];
      || e in c.list
      || (x.owner.Some? && x.owner.value in c.entries && e in c.entries[x.owner.value].children
          && !c.entries[x.owner.value].done)
      || Played(pool, HoldOf(e))
      || (x.deferred && !x.installed && Played(pool, BodyOf(e)))
      || Played(pool, DropOf(e))
  {
    hide Run, StackOk;
    InvRun(tr, i);
    var c, x := tr[i].core, tr[i].core.entries[e];
    assert Minded(c, tr[i].pool, e, x);
    if x.owner.Some? && x.owner.value in c.entries { assert EntryOk(c, x.owner.value, c.entries[x.owner.value]); }
  }

  /** Once nothing is in flight, a requested teardown of a body that returned has run exactly once. */
  lemma RequestedRan(tr: seq<Sys>, i: nat, e: nat)
    requires Run(tr) && i < |tr| && Quiet(tr[i]) && e in tr[i].core.entries && tr[i].core.entries[e].asked
    ensures var x := tr[i].core.entries[e]; x.done && (x.failed || x.runs == 1)
  {
    hide Run, StackOk;
    InvRun(tr, i);
    var s, x := tr[i], tr[i].core.entries[e];
    assert Minded(s.core, s.pool, e, x) && EntryOk(s.core, e, x);
    NothingPlayed(s);
  }

  lemma NothingPlayed(s: Sys)
    ensures Quiet(s) ==> forall role :: !Played(s.pool, role)
  {}

  /** A quiet fiber with an empty list has torn everything down: every entry ever registered is done, and
      every disposer that was ever produced has run exactly once. */
  lemma {:induction false} EmptyMeansDone(tr: seq<Sys>, i: nat, e: nat)
    requires Run(tr) && i < |tr| && Quiet(tr[i]) && tr[i].core.list == [] && e in tr[i].core.entries
    ensures var x := tr[i].core.entries[e]; x.done && (x.failed || x.runs == 1)
    decreases e
  {
    hide Run, StackOk;
    InvRun(tr, i);
    var s, x := tr[i], tr[i].core.entries[e];
    assert Minded(s.core, s.pool, e, x) && EntryOk(s.core, e, x);
    NothingPlayed(s);
    if !x.done {
      assert EntryOk(s.core, x.owner.value, s.core.entries[x.owner.value]);
      EmptyMeansDone(tr, i, x.owner.value);
    }
  }

  /** Both ways to an entry's teardown meet at its once: a handle that goes on to remove the entry finds the
      cleanup complete and its disposer not about to be called. */
  lemma HandlesWait(tr: seq<Sys>, i: nat)
    requires Run(tr) && i < |tr|
    ensures var s := tr[i];
      forall t, e :: t in s.pool && s.pool[t] != [] && Top(s.pool[t]) == Remove(e) ==>
        && e in s.core.entries && s.core.entries[e].done && s.core.entries[e].once == Complete
        && !Played(s.pool, CallOf(e)) && s.core.entries[e].runs == 1
  {
    hide Run;
    InvRun(tr, i);
    var s := tr[i];
    forall t, e | t in s.pool && s.pool[t] != [] && Top(s.pool[t]) == Remove(e)
      ensures e in s.core.entries && s.core.entries[e].done && s.core.entries[e].once == Complete
      ensures !Played(s.pool, CallOf(e)) && s.core.entries[e].runs == 1
    {
      assert StackOk(s.core, s.pool[t]) && FrameOk(s.core, s.pool[t][|s.pool[t]| - 1]);
      var x := s.core.entries[e];
      assert EntryOk(s.core, e, x) && Minded(s.core, s.pool, e, x);
      if Played(s.pool, CallOf(e)) { CallUnfinished(s, e); }
    }
  }

  /** While a disposer is about to be called, its once is taken. */
  lemma CallUnfinished(s: Sys, e: nat)
    ensures Inv(s) && Played(s.pool, CallOf(e)) ==> e in s.core.entries && s.core.entries[e].once == Busy
  {
    hide Inv;
    if Inv(s) && Played(s.pool, CallOf(e)) {
      var u :| u in s.pool && PlayedIn(s.pool[u], CallOf(e));
      var j :| 0 <= j < |s.pool[u]| && Plays(s.pool[u][j], CallOf(e));
      StackKnown(s, u);
      FramesOk(s.core, s.pool[u]);
      assert Neighbours(s.pool[u], j);
      assert FrameOk(s.core, s.pool[u][j - 2]);
    }
  }
}
