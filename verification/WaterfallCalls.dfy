/** Concurrent and saved calls of `next` (waterfallStep.call in events.go) as a step machine: any number of
    goroutines may call any step of a chain whose predecessor has started, any number of times. */
module WaterfallCalls {

  type Value = int

  /** A step of the chain. `runs` is history: how often its listener or final function was entered. */
  datatype Cell = Cell(started: bool, finished: bool, result: Value, runs: nat)

  /** One activation: calling a step, entering its listener after winning the call, waiting for the step's first
      caller, running the listener, waiting for the successor the step falls through to, settling, and handing a
      result back. */
  datatype Frame =
    | Enter(i: nat, v: Value)
    | Begin(i: nat, v: Value)
    | Wait(i: nat)
    | Running(i: nat, v: Value)
    | Through(i: nat)
    | Settle(i: nat, r: Value)
    | Answer(i: nat, r: Value)

  /** `answers` is history: every result a call of a step ever returned. */
  datatype Sys = Sys(cells: seq<Cell>, pool: map<nat, seq<Frame>>, next: nat, answers: seq<(nat, Value)>)

  /** How a body goes on: it returns a value, or it was skipped or panicked and the chain continues. */
  datatype Choice = Returns(v: Value) | FallsThrough

  datatype Out = Blocked | Ran(cells: seq<Cell>, push: seq<Frame>)

  function Exec(cells: seq<Cell>, fr: Frame, ch: Choice): Out
    requires fr.i < |cells|
  {
    var cell := cells[fr.i];
    match fr
    case Enter(i, v) =>
      if cell.finished then Ran(cells, [Answer(i, cell.result)])
      else if cell.started then Ran(cells, [Wait(i)])
      else Ran(cells[i := cell.(started := true)], [Begin(i, v)])
    case Begin(i, v) => Ran(cells[i := cell.(runs := cell.runs + 1)], [Running(i, v)])
    case Wait(i) => if cell.finished then Ran(cells, [Answer(i, cell.result)]) else Blocked
    case Running(i, v) =>
      if ch.Returns? then Ran(cells, [Settle(i, ch.v)])
      else if i + 1 < |cells| then Ran(cells, [Through(i), Enter(i + 1, v)])
      else Ran(cells, [Settle(i, 0)])
    case Through(_) => Blocked
    case Settle(i, r) => Ran(cells[i := cell.(finished := true, result := r)], [Answer(i, r)])
    case Answer(_, _) => Ran(cells, [])
  }

  function Top(st: seq<Frame>): Frame
    requires st != []
  {
    st[|st| - 1]
  }

  /** A result handed back goes to the step that fell through to its successor, if one waits for it. */
  function Popped(st: seq<Frame>): seq<Frame>
    requires st != [] && Top(st).Answer?
  {
    if |st| >= 2 && st[|st| - 2].Through? then st[..|st| - 2] + [Settle(st[|st| - 2].i, Top(st).r)]
    else st[..|st| - 1]
  }

  ghost predicate Steps(s: Sys, t: nat, ch: Choice, s': Sys) {
    && t in s.pool && s.pool[t] != [] && Top(s.pool[t]).i < |s.cells|
    && var out := Exec(s.cells, Top(s.pool[t]), ch);
      && out.Ran?
      && s' == s.(cells := out.cells,
                  pool := s.pool[t := if Top(s.pool[t]).Answer? then Popped(s.pool[t])
                      else s.pool[t][..|s.pool[t]| - 1] + out.push],
                  answers := if Top(s.pool[t]).Answer? then s.answers + [(Top(s.pool[t]).i, Top(s.pool[t]).r)]
                      else s.answers)
  }

  /** The first step is called once by the dispatch; a listener's `next` may be called by anyone it was
      given to, as soon as the listener runs. */
  ghost predicate Calls(s: Sys, fr: Frame, s': Sys) {
    && fr.Enter? && fr.i < |s.cells| && (fr.i > 0 ==> s.cells[fr.i - 1].started)
    && s' == s.(pool := s.pool[s.next := [fr]], next := s.next + 1)
  }

  ghost predicate Next(s: Sys, s': Sys) {
    (exists t, ch :: Steps(s, t, ch, s')) || (exists fr :: Calls(s, fr, s'))
  }

  predicate Init(s: Sys) {
    && s.pool == map[] && s.next == 0 && s.answers == []
    && forall i :: 0 <= i < |s.cells| ==> s.cells[i] == Cell(false, false, 0, 0)
  }

  /** The `i`-th move of a run: a step of one activation, or a call. */
  ghost predicate Move(tr: seq<Sys>, i: int)
    requires 0 <= i < |tr| - 1
  {
    Next(tr[i], tr[i + 1])
  }

  ghost predicate Run(tr: seq<Sys>) {
    |tr| > 0 && Init(tr[0]) && forall i :: 0 <= i < |tr| - 1 ==> Move(tr, i)
  }

  // ----- the invariant -----

  /** The activation owns the step: it is the step's first caller and has not settled it. */
  predicate Owns(fr: Frame, i: nat) {
    (fr.Begin? || fr.Running? || fr.Through? || fr.Settle?) && fr.i == i
  }

  predicate FrameOk(cells: seq<Cell>, fr: Frame) {
    && fr.i < |cells|
    && (Owns(fr, fr.i) ==> cells[fr.i].started && !cells[fr.i].finished)
    && (fr.Begin? ==> cells[fr.i].runs == 0)
    && (fr.Answer? ==> cells[fr.i].finished && cells[fr.i].result == fr.r)
  }

  predicate CellOk(cell: Cell) {
    && (cell.finished ==> cell.started)
    && cell.runs <= (if cell.started then 1 else 0)
  }

  ghost predicate Apart(a: seq<Frame>, b: seq<Frame>) {
    forall i, j, k :: 0 <= i < |a| && 0 <= j < |b| && Owns(a[i], k) ==> !Owns(b[j], k)
  }

  ghost predicate ApartWithin(st: seq<Frame>) {
    forall i, j, k :: 0 <= i < |st| && 0 <= j < |st| && i != j && Owns(st[i], k) ==> !Owns(st[j], k)
  }

  ghost predicate OwnedIn(st: seq<Frame>, k: nat) {
    exists j :: 0 <= j < |st| && Owns(st[j], k)
  }

  ghost predicate Owned(pool: map<nat, seq<Frame>>, k: nat) {
    exists t :: t in pool && OwnedIn(pool[t], k)
  }

  ghost predicate Answered(cells: seq<Cell>, a: (nat, Value)) {
    a.0 < |cells| && cells[a.0].finished && cells[a.0].result == a.1
  }

  ghost predicate Inv(s: Sys) {
    && (forall i :: 0 <= i < |s.cells| ==> CellOk(s.cells[i]))
    && (forall t :: t in s.pool ==> t < s.next && forall i :: 0 <= i < |s.pool[t]| ==> FrameOk(s.cells, s.pool[t][i]))
    && (forall t, u :: t in s.pool && u in s.pool && t != u ==> Apart(s.pool[t], s.pool[u]))
    && (forall t :: t in s.pool ==> ApartWithin(s.pool[t]))
    && (forall k :: 0 <= k < |s.answers| ==> Answered(s.cells, s.answers[k]))
    && (forall k :: 0 <= k < |s.cells| && s.cells[k].started && !s.cells[k].finished ==> Owned(s.pool, k))
  }

  /** The running frame changes its own cell only, and a settled cell never. */
  lemma CellsStep(cells: seq<Cell>, fr: Frame, ch: Choice, k: nat)
    requires FrameOk(cells, fr) && Exec(cells, fr, ch).Ran? && k < |cells| && CellOk(cells[k])
    ensures var now := Exec(cells, fr, ch).cells;
      && |now| == |cells| && CellOk(now[k])
      && (cells[k].started ==> now[k].started)
      && (cells[k].finished ==> now[k].finished && now[k].result == cells[k].result)
      && (now[k].finished && !cells[k].finished ==> Owns(fr, k))
  {}

  lemma WaitStays(cells: seq<Cell>, fr: Frame, ch: Choice, w: Frame)
    requires FrameOk(cells, fr) && FrameOk(cells, w) && Exec(cells, fr, ch).Ran? && CellOk(cells[w.i])
    requires forall k :: Owns(fr, k) ==> !Owns(w, k)
    ensures FrameOk(Exec(cells, fr, ch).cells, w)
  {
    CellsStep(cells, fr, ch, w.i);
  }

  /** Each frame of the new stack is an old one below the running frame, or comes from it. */
  lemma StackStep(s: Sys, t: nat, ch: Choice, s': Sys, i: nat)
    requires Inv(s) && Steps(s, t, ch, s') && i < |s'.pool[t]|
    ensures FrameOk(s'.cells, s'.pool[t][i])
    ensures forall k: nat :: Owns(s'.pool[t][i], k) ==>
      || (exists j :: 0 <= j < |s.pool[t]| && Owns(s.pool[t][j], k))
      || (k < |s.cells| && !s.cells[k].started)
  {
    var st, fr := s.pool[t], Top(s.pool[t]);
    assert FrameOk(s.cells, st[|st| - 1]) && CellOk(s.cells[fr.i]);
    assert ApartWithin(st);
    if i < |st| && s'.pool[t][i] == st[i] && i != |st| - 1 {
      assert FrameOk(s.cells, st[i]) && CellOk(s.cells[st[i].i]);
      WaitStays(s.cells, fr, ch, st[i]);
    } else if fr.Answer? {
      assert FrameOk(s.cells, st[|st| - 2]);
      assert Owns(st[|st| - 2], st[|st| - 2].i);
    } else {
      assert Owns(s'.pool[t][i], fr.i) && !fr.Enter? ==> Owns(st[|st| - 1], fr.i);
    }
  }

  lemma WithinStep(s: Sys, t: nat, ch: Choice, s': Sys)
    requires Inv(s) && Steps(s, t, ch, s')
    ensures ApartWithin(s'.pool[t])
  {
    var st, fr := s.pool[t], Top(s.pool[t]);
    assert ApartWithin(st) && FrameOk(s.cells, st[|st| - 1]);
    forall i, j, k | 0 <= i < |s'.pool[t]| && 0 <= j < |s'.pool[t]| && i < j
      ensures !(Owns(s'.pool[t][i], k) && Owns(s'.pool[t][j], k))
    {
      if i < |st| - 1 { assert FrameOk(s.cells, st[i]); }
      if fr.Answer? { WithinPopped(st, i, j, k); } else { WithinPushed(s.cells, st, ch, s'.pool[t], i, j, k); }
    }
  }

  lemma WithinPopped(st: seq<Frame>, i: nat, j: nat, k: nat)
    requires st != [] && Top(st).Answer? && ApartWithin(st) && i < j < |Popped(st)|
    ensures !(Owns(Popped(st)[i], k) && Owns(Popped(st)[j], k))
  {
    if |st| >= 2 { assert Owns(st[|st| - 2], k) ==> i < |st| - 2 ==> !Owns(st[i], k); }
  }

  lemma WithinPushed(cells: seq<Cell>, st: seq<Frame>, ch: Choice, st': seq<Frame>, i: nat, j: nat, k: nat)
    requires st != [] && Top(st).i < |cells| && Exec(cells, Top(st), ch).Ran?
    requires st' == st[..|st| - 1] + Exec(cells, Top(st), ch).push
    requires ApartWithin(st) && i < j < |st'| && (i < |st| - 1 ==> FrameOk(cells, st[i]))
    ensures !(Owns(st'[i], k) && Owns(st'[j], k))
  {
    assert i < |st| - 1 && Owns(st[i], k) ==> !Owns(st[|st| - 1], k);
  }

  lemma ApartStep(s: Sys, t: nat, ch: Choice, s': Sys, u: nat)
    requires Inv(s) && Steps(s, t, ch, s') && u in s.pool && u != t
    ensures Apart(s'.pool[t], s'.pool[u]) && Apart(s'.pool[u], s'.pool[t])
  {
    assert s'.pool[u] == s.pool[u];
    assert Apart(s.pool[t], s.pool[u]);
    forall i, j, k | 0 <= i < |s'.pool[t]| && 0 <= j < |s.pool[u]|
      ensures !(Owns(s'.pool[t][i], k) && Owns(s.pool[u][j], k))
    {
      StackStep(s, t, ch, s', i);
      assert FrameOk(s.cells, s.pool[u][j]);
    }
  }

  /** The running frame hands its step on until it settles it. */
  lemma OwnPassed(s: Sys, t: nat, ch: Choice, s': Sys, k: nat)
    requires Inv(s) && Steps(s, t, ch, s') && k < |s'.cells| && s'.cells[k].started && !s'.cells[k].finished
    requires OwnedIn(s.pool[t], k) || !s.cells[k].started
    ensures OwnedIn(s'.pool[t], k)
  {
    var st, st', fr, n := s.pool[t], s'.pool[t], Top(s.pool[t]), |s.pool[t]|;
    assert FrameOk(s.cells, st[n - 1]) && CellOk(s.cells[fr.i]);
    if s.cells[k].started {
      var j :| 0 <= j < n && Owns(st[j], k);
      if j == n - 1 { assert Owns(st'[n - 1], k); }
      else if fr.Answer? && j == n - 2 && st[j].Through? { assert Owns(st'[j], k); }
      else { assert st'[j] == st[j]; }
    } else {
      assert Owns(st'[n - 1], k);
    }
  }

  lemma OwnedStep(s: Sys, t: nat, ch: Choice, s': Sys, k: nat)
    requires Inv(s) && Steps(s, t, ch, s') && k < |s'.cells| && s'.cells[k].started && !s'.cells[k].finished
    ensures Owned(s'.pool, k)
  {
    var fr := Top(s.pool[t]);
    assert FrameOk(s.cells, s.pool[t][|s.pool[t]| - 1]) && CellOk(s.cells[k]);
    CellsStep(s.cells, fr, ch, k);
    if s.cells[k].started {
      var u :| u in s.pool && OwnedIn(s.pool[u], k);
      if u == t { OwnPassed(s, t, ch, s', k); } else { assert s'.pool[u] == s.pool[u]; }
    } else {
      OwnPassed(s, t, ch, s', k);
    }
  }

  lemma InvStep(s: Sys, t: nat, ch: Choice, s': Sys)
    requires Inv(s) && Steps(s, t, ch, s')
    ensures Inv(s')
  {
    var st, fr := s.pool[t], Top(s.pool[t]);
    assert FrameOk(s.cells, st[|st| - 1]) && CellOk(s.cells[fr.i]);
    forall k | 0 <= k < |s'.cells| ensures CellOk(s'.cells[k]) { CellsStep(s.cells, fr, ch, k); }
    forall u, i | u in s'.pool && 0 <= i < |s'.pool[u]| ensures FrameOk(s'.cells, s'.pool[u][i]) {
      if u == t {
        StackStep(s, t, ch, s', i);
      } else {
        assert Apart(st, s.pool[u]) && FrameOk(s.cells, s.pool[u][i]) && CellOk(s.cells[s.pool[u][i].i]);
        WaitStays(s.cells, fr, ch, s.pool[u][i]);
      }
    }
    WithinStep(s, t, ch, s');
    forall u, v | u in s'.pool && v in s'.pool && u != v ensures Apart(s'.pool[u], s'.pool[v]) {
      if u == t { ApartStep(s, t, ch, s', v); } else if v == t { ApartStep(s, t, ch, s', u); }
      else { assert Apart(s.pool[u], s.pool[v]); }
    }
    forall k | 0 <= k < |s'.answers| ensures Answered(s'.cells, s'.answers[k]) {
      if k < |s.answers| {
        assert s'.answers[k] == s.answers[k] && Answered(s.cells, s.answers[k]);
        CellsStep(s.cells, fr, ch, s.answers[k].0);
      }
    }
    forall k | 0 <= k < |s'.cells| && s'.cells[k].started && !s'.cells[k].finished ensures Owned(s'.pool, k) {
      OwnedStep(s, t, ch, s', k);
    }
  }

  lemma InvCall(s: Sys, fr: Frame, s': Sys)
    requires Inv(s) && Calls(s, fr, s')
    ensures Inv(s')
  {
    assert s.next !in s.pool && s'.pool[s.next] == [fr];
    forall k | 0 <= k < |s.cells| && s.cells[k].started && !s.cells[k].finished ensures Owned(s'.pool, k) {
      var u :| u in s.pool && OwnedIn(s.pool[u], k);
      assert s'.pool[u] == s.pool[u];
    }
    forall u, v | u in s'.pool && v in s'.pool && u != v ensures Apart(s'.pool[u], s'.pool[v]) {
      if u in s.pool && v in s.pool { assert Apart(s.pool[u], s.pool[v]); }
    }
    forall u | u in s'.pool ensures ApartWithin(s'.pool[u]) {
      if u in s.pool { assert ApartWithin(s.pool[u]); }
    }
  }

  lemma {:induction false} InvRun(tr: seq<Sys>, n: nat)
    requires Run(tr) && n < |tr|
    ensures forall k :: 0 <= k <= n ==> Inv(tr[k])
  {
    if n > 0 {
      InvRun(tr, n - 1);
      var s, s' := tr[n - 1], tr[n];
      assert Move(tr, n - 1);
      hide Inv, Run;
      if t, ch :| Steps(s, t, ch, s') {
        InvStep(s, t, ch, s');
      } else {
        var fr :| Calls(s, fr, s');
        InvCall(s, fr, s');
      }
    }
  }

  // ----- the theorems -----

  /** In every interleaving each listener and the final function are entered at most once. */
  lemma EnteredAtMostOnce(tr: seq<Sys>, n: nat, i: nat)
    requires Run(tr) && n < |tr| && i < |tr[n].cells|
    ensures tr[n].cells[i].runs <= 1
  {
    InvRun(tr, n);
    assert CellOk(tr[n].cells[i]);
  }

  /** All calls of one step that ever returned gave the same result, the one the step settled with. */
  lemma SameResult(tr: seq<Sys>, n: nat, a: nat, b: nat)
    requires Run(tr) && n < |tr| && a < |tr[n].answers| && b < |tr[n].answers|
    requires tr[n].answers[a].0 == tr[n].answers[b].0
    ensures tr[n].answers[a].1 == tr[n].answers[b].1
    ensures tr[n].answers[a].0 < |tr[n].cells| && tr[n].answers[a].1 == tr[n].cells[tr[n].answers[a].0].result
  {
    InvRun(tr, n);
    assert Answered(tr[n].cells, tr[n].answers[a]) && Answered(tr[n].cells, tr[n].answers[b]);
  }

  ghost predicate OwnsAt(pool: map<nat, seq<Frame>>, t: nat, i: nat, k: nat) {
    t in pool && i < |pool[t]| && Owns(pool[t][i], k)
  }

  /** A started step that has not settled has exactly one owner: no call waits for a result nobody is
      computing, and nobody else can settle it. */
  lemma ExactlyOneOwner(tr: seq<Sys>, n: nat, k: nat)
    requires Run(tr) && n < |tr| && k < |tr[n].cells| && tr[n].cells[k].started && !tr[n].cells[k].finished
    ensures exists t, i :: OwnsAt(tr[n].pool, t, i, k)
    ensures forall t, u, i, j :: OwnsAt(tr[n].pool, t, i, k) && OwnsAt(tr[n].pool, u, j, k) ==> t == u && i == j
  {
    InvRun(tr, n);
    var t :| t in tr[n].pool && OwnedIn(tr[n].pool[t], k);
    var i :| 0 <= i < |tr[n].pool[t]| && Owns(tr[n].pool[t][i], k);
    assert OwnsAt(tr[n].pool, t, i, k);
    var pool := tr[n].pool;
    assert forall a, b :: a in pool && b in pool && a != b ==> Apart(pool[a], pool[b]);
    assert forall a :: a in pool ==> ApartWithin(pool[a]);
  }
}
