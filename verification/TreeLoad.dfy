/** Loading a composed tree (loader/loader.go: Tree.Load, loadNodes): all or nothing, in depth-first order. */
module TreeLoad {
  import opened Options
  import opened Layers

  /** One plugin to load: where its entry is, under which injected names and context scopes, and whether it
      has children although it is not a group. */
  datatype Job = Job(at: Path, name: string, config: Option<Config>, deps: seq<string>, scope: seq<string>, stray: bool)

  /** What loading a plugin gave: a fiber, or an error, usually with the fiber that reported it. */
  datatype Outcome = Loaded | Failed(fiber: bool)

  datatype Event = Started(job: Job) | Broke(job: Job) | Disposed(at: Path)

  datatype Problem = UnknownPlugin(at: Path) | NeedsGroup(at: Path) | LoadError(at: Path)

  /** The scope a group opens. */
  function ScopeOf(d: Data): string {
    if d.title != "" then d.title else if d.id != "" then d.id else "group"
  }

  // ----- what is to be loaded -----

  /** The enabled entries that are no groups, under enabled groups, in depth-first order; each carries its
      ancestors' injects followed by its own. */
  function Jobs(nodes: seq<Tree>, at: Path, deps: seq<string>, scope: seq<string>): seq<Job>
    decreases nodes, 0
  {
    if nodes == [] then []
    else Jobs(nodes[..|nodes| - 1], at, deps, scope) + JobsOf(nodes[|nodes| - 1], at + [|nodes| - 1], deps, scope)
  }

  function JobsOf(t: Tree, at: Path, deps: seq<string>, scope: seq<string>): seq<Job>
    decreases t, 1
  {
    if t.data.disabled then []
    else if t.data.group then Jobs(t.kids, at, deps + t.data.inject, scope + [ScopeOf(t.data)])
    else [Job(at, t.data.name, t.data.config, deps + t.data.inject, scope, t.kids != [])]
  }

  /** The same, read off one path: every ancestor is an enabled group, the entry itself is enabled and none. */
  function JobAt(nodes: seq<Tree>, p: Path, at: Path, deps: seq<string>, scope: seq<string>): Option<Job>
    decreases p
  {
    if p == [] || p[0] >= |nodes| || nodes[p[0]].data.disabled then None
    else
      var d := nodes[p[0]].data;
      if |p| == 1 then
        if d.group then None else Some(Job(at + p, d.name, d.config, deps + d.inject, scope, nodes[p[0]].kids != []))
      else if d.group then JobAt(nodes[p[0]].kids, p[1..], at + [p[0]], deps + d.inject, scope + [ScopeOf(d)])
      else None
  }

  /** The node at `p` is enabled and no group, and every node on the way to it is an enabled group. */
  predicate Loads(nodes: seq<Tree>, p: Path) {
    && At(nodes, p).Some? && !At(nodes, p).value.data.group
    && forall k :: 0 < k <= |p| ==>
      At(nodes, p[..k]).Some? && !At(nodes, p[..k]).value.data.disabled
      && (k < |p| ==> At(nodes, p[..k]).value.data.group)
  }

  /** The injects of the nodes on the way to `p`, its own last. */
  function Injects(nodes: seq<Tree>, p: Path): seq<string>
    decreases p
  {
    if p == [] || p[0] >= |nodes| then [] else nodes[p[0]].data.inject + Injects(nodes[p[0]].kids, p[1..])
  }

  /** What a group is called: its title, or its id, or just a group. */
  predicate Called(d: Data, name: string) {
    name != "" && (name == d.title || (d.title == "" && (name == d.id || (d.id == "" && name == "group"))))
  }

  /** Which entries are loaded, and with what: under the injects of the groups around it and its own, in the scopes
      of those groups. */
  lemma {:induction false} JobAtMeans(nodes: seq<Tree>, p: Path, at: Path, deps: seq<string>, scope: seq<string>)
    ensures JobAt(nodes, p, at, deps, scope).Some? <==> Loads(nodes, p)
    ensures Loads(nodes, p) ==>
      var t, job := At(nodes, p).value, JobAt(nodes, p, at, deps, scope).value;
      && job == Job(at + p, t.data.name, t.data.config, deps + Injects(nodes, p), job.scope, t.kids != [])
      && |job.scope| == |scope| + |p| - 1 && job.scope[..|scope|] == scope
      && forall k :: 0 < k < |p| ==> Called(At(nodes, p[..k]).value.data, job.scope[|scope| + k - 1])
    decreases p
  {
    if p != [] && p[0] < |nodes| && |p| > 1 {
      var t := nodes[p[0]];
      JobAtMeans(t.kids, p[1..], at + [p[0]], deps + t.data.inject, scope + [ScopeOf(t.data)]);
      forall k | 0 < k <= |p| ensures At(nodes, p[..k]) == if k == 1 then Some(t) else At(t.kids, p[1..][..k - 1]) {
        assert p[..k][1..] == p[1..][..k - 1];
      }
      if Loads(nodes, p) {
        assert At(nodes, p[..1]) == Some(t) && !t.data.disabled && t.data.group;
        assert Loads(t.kids, p[1..]) by {
          forall k | 0 < k <= |p[1..]| ensures At(t.kids, p[1..][..k]) == At(nodes, p[..k + 1]) {}
        }
        var job := JobAt(nodes, p, at, deps, scope).value;
        assert job.scope[..|scope|] == job.scope[..|scope| + 1][..|scope|];
        assert job.scope[|scope|] == job.scope[..|scope| + 1][|scope|];
        assert at + [p[0]] + p[1..] == at + p;
      }
    } else if p != [] && p[0] < |nodes| {
      assert p[1..] == [] && p[..1] == p;
    }
  }

  lemma {:induction false} JobsHave(nodes: seq<Tree>, p: Path, at: Path, deps: seq<string>, scope: seq<string>)
    requires JobAt(nodes, p, at, deps, scope).Some?
    ensures JobAt(nodes, p, at, deps, scope).value in Jobs(nodes, at, deps, scope)
    decreases nodes
  {
    var k := |nodes| - 1;
    if p[0] < k {
      assert JobAt(nodes[..k], p, at, deps, scope) == JobAt(nodes, p, at, deps, scope);
      JobsHave(nodes[..k], p, at, deps, scope);
    } else {
      var d := nodes[k].data;
      if |p| == 1 { assert at + p == at + [k]; }
      else { JobsHave(nodes[k].kids, p[1..], at + [k], deps + d.inject, scope + [ScopeOf(d)]); }
    }
  }

  /** Depth-first order on paths. */
  predicate Before(a: Path, b: Path)
    decreases a
  {
    a != [] && b != [] && (a[0] < b[0] || (a[0] == b[0] && Before(a[1..], b[1..])))
  }

  lemma {:induction false} BeforeUnder(at: Path, a: Path, b: Path)
    requires Before(a, b)
    ensures Before(at + a, at + b)
  {
    if at == [] {
      assert at + a == a && at + b == b;
    } else {
      BeforeUnder(at[1..], a, b);
      assert (at + a)[1..] == at[1..] + a && (at + b)[1..] == at[1..] + b;
    }
  }

  /** Every job is read off the path it names. */
  lemma {:induction false} JobsAre(nodes: seq<Tree>, i: nat, at: Path, deps: seq<string>,
      scope: seq<string>) returns (p: Path)
    requires i < |Jobs(nodes, at, deps, scope)|
    ensures JobAt(nodes, p, at, deps, scope) == Some(Jobs(nodes, at, deps, scope)[i])
    ensures Jobs(nodes, at, deps, scope)[i].at == at + p
    decreases nodes
  {
    var k := |nodes| - 1;
    var front := Jobs(nodes[..k], at, deps, scope);
    if i < |front| {
      p := JobsAre(nodes[..k], i, at, deps, scope);
    } else {
      var d := nodes[k].data;
      if d.group {
        var q := JobsAre(nodes[k].kids, i - |front|, at + [k], deps + d.inject, scope + [ScopeOf(d)]);
        p := [k] + q;
        assert p[1..] == q && at + [k] + q == at + p;
      } else {
        p := [k];
      }
    }
  }

  lemma {:induction false} JobsOrdered(nodes: seq<Tree>, i: nat, j: nat, at: Path, deps: seq<string>,
      scope: seq<string>)
    requires i < j < |Jobs(nodes, at, deps, scope)|
    ensures Before(Jobs(nodes, at, deps, scope)[i].at, Jobs(nodes, at, deps, scope)[j].at)
    decreases nodes
  {
    var k := |nodes| - 1;
    var front := Jobs(nodes[..k], at, deps, scope);
    if j < |front| {
      JobsOrdered(nodes[..k], i, j, at, deps, scope);
    } else if i >= |front| {
      var d := nodes[k].data;
      JobsOrdered(nodes[k].kids, i - |front|, j - |front|, at + [k], deps + d.inject, scope + [ScopeOf(d)]);
    } else {
      var p := JobsAre(nodes[..k], i, at, deps, scope);
      var q := JobsAre(nodes, j, at, deps, scope);
      LastRoot(nodes, j, at, deps, scope, q);
      BeforeUnder(at, p, q);
    }
  }

  /** The jobs beyond those of the earlier siblings lie under the last one. */
  lemma LastRoot(nodes: seq<Tree>, j: nat, at: Path, deps: seq<string>, scope: seq<string>, q: Path)
    requires nodes != []
    requires |Jobs(nodes[..|nodes| - 1], at, deps, scope)| <= j < |Jobs(nodes, at, deps, scope)|
    requires q != [] && Jobs(nodes, at, deps, scope)[j].at == at + q
    ensures q[0] == |nodes| - 1
  {
    var k := |nodes| - 1;
    var i := j - |Jobs(nodes[..k], at, deps, scope)|;
    var d := nodes[k].data;
    var r: Path := [];
    if d.group { r := JobsAre(nodes[k].kids, i, at + [k], deps + d.inject, scope + [ScopeOf(d)]); }
    assert at + q == at + [k] + r;
    assert (at + q)[|at|] == k;
  }

  /** Exactly the enabled entries that are no groups under enabled groups are loaded, each once, in
      depth-first order. */
  lemma JobsExact(nodes: seq<Tree>)
    ensures forall p :: JobAt(nodes, p, [], [], []).Some? ==>
      JobAt(nodes, p, [], [], []).value in Jobs(nodes, [], [], [])
    ensures forall i :: 0 <= i < |Jobs(nodes, [], [], [])| ==>
      JobAt(nodes, Jobs(nodes, [], [], [])[i].at, [], [], []) == Some(Jobs(nodes, [], [], [])[i])
    ensures forall i, j :: 0 <= i < j < |Jobs(nodes, [], [], [])| ==>
      Before(Jobs(nodes, [], [], [])[i].at, Jobs(nodes, [], [], [])[j].at)
  {
    var jobs := Jobs(nodes, [], [], []);
    forall p | JobAt(nodes, p, [], [], []).Some? ensures JobAt(nodes, p, [], [], []).value in jobs {
      JobsHave(nodes, p, [], [], []);
    }
    forall i | 0 <= i < |jobs| ensures JobAt(nodes, jobs[i].at, [], [], []) == Some(jobs[i]) {
      var p := JobsAre(nodes, i, [], [], []);
      assert [] + p == p;
    }
    forall i, j | 0 <= i < j < |jobs| ensures Before(jobs[i].at, jobs[j].at) { JobsOrdered(nodes, i, j, [], [], []); }
  }

  // ----- loading -----

  /** What the loader knows: the registered plugin names, and what loading a plugin will give. */
  datatype Registry = Registry(names: set<string>, load: Job -> Outcome)

  function Verdict(r: Registry, job: Job): Option<Problem> {
    if job.name !in r.names then Some(UnknownPlugin(job.at))
    else if job.stray then Some(NeedsGroup(job.at))
    else if r.load(job).Failed? then Some(LoadError(job.at))
    else None
  }

  /** How many jobs load before the first that does not. */
  function Good(r: Registry, jobs: seq<Job>): (n: nat)
    ensures n <= |jobs| && (forall i :: 0 <= i < n ==> Verdict(r, jobs[i]).None?)
    ensures (n < |jobs| ==> Verdict(r, jobs[n]).Some?)
  {
    if jobs == [] || Verdict(r, jobs[0]).Some? then 0 else 1 + Good(r, jobs[1..])
  }

  lemma {:induction false} GoodConcat(r: Registry, a: seq<Job>, b: seq<Job>)
    ensures Good(r, a + b) == if Good(r, a) < |a| then Good(r, a) else |a| + Good(r, b)
  {
    if a == [] {
      assert a + b == b;
    } else if Verdict(r, a[0]).None? {
      GoodConcat(r, a[1..], b);
      assert (a + b)[1..] == a[1..] + b;
    }
  }

  function StartedAll(jobs: seq<Job>): (log: seq<Event>)
    ensures |log| == |jobs| && forall i :: 0 <= i < |jobs| ==> log[i] == Started(jobs[i])
  {
    if jobs == [] then [] else [Started(jobs[0])] + StartedAll(jobs[1..])
  }

  /** Newest first. */
  function DisposedAll(jobs: seq<Job>): (log: seq<Event>)
    ensures |log| == |jobs| && forall i :: 0 <= i < |jobs| ==> log[i] == Disposed(jobs[|jobs| - 1 - i].at)
  {
    if jobs == [] then [] else DisposedAll(jobs[1..]) + [Disposed(jobs[0].at)]
  }

  /** What the failing job leaves: its own fiber, if it has one, is disposed of at once. */
  function Breakage(r: Registry, job: Job): seq<Event> {
    if job.name !in r.names || job.stray || r.load(job).Loaded? then []
    else if r.load(job).fiber then [Broke(job), Disposed(job.at)]
    else [Broke(job)]
  }

  /** What loading a list of jobs does up to its end or its first failure. */
  function Progress(r: Registry, jobs: seq<Job>): seq<Event> {
    StartedAll(jobs[..Good(r, jobs)]) + Broken(r, jobs)
  }

  function Broken(r: Registry, jobs: seq<Job>): seq<Event> {
    if Good(r, jobs) < |jobs| then Breakage(r, jobs[Good(r, jobs)]) else []
  }

  function FirstProblem(r: Registry, jobs: seq<Job>): Option<Problem> {
    if Good(r, jobs) < |jobs| then Verdict(r, jobs[Good(r, jobs)]) else None
  }

  /** The jobs ran up to their end or their first failure, and the fibers grew by those that loaded. */
  predicate Ran(r: Registry, was: (seq<Event>, seq<Job>), jobs: seq<Job>, err: Option<Problem>,
      now: (seq<Event>, seq<Job>)) {
    && err == FirstProblem(r, jobs)
    && now.0 == was.0 + Progress(r, jobs)
    && now.1 == was.1 + jobs[..Good(r, jobs)]
  }

  lemma RanFromStart(r: Registry, jobs: seq<Job>, err: Option<Problem>, now: (seq<Event>, seq<Job>))
    requires Ran(r, ([], []), jobs, err, now)
    ensures var n := Good(r, jobs);
      && err == FirstProblem(r, jobs) && now.1 == jobs[..n]
      && (err.None? ==> n == |jobs| && now.0 == StartedAll(jobs) && now.1 == jobs)
      && (err.Some? ==> n < |jobs| && now.0 == StartedAll(jobs[..n]) + Breakage(r, jobs[n]))
  {
    assert jobs[..|jobs|] == jobs;
  }

  lemma StartedConcat(a: seq<Job>, b: seq<Job>)
    ensures StartedAll(a + b) == StartedAll(a) + StartedAll(b)
  {}

  /** Jobs after a failure change nothing. */
  lemma RanNoMore(r: Registry, was: (seq<Event>, seq<Job>), a: seq<Job>, b: seq<Job>, err: Option<Problem>,
      now: (seq<Event>, seq<Job>))
    requires Ran(r, was, a, err, now) && err.Some?
    ensures Ran(r, was, a + b, err, now)
  {
    GoodConcat(r, a, b);
    var n := Good(r, a);
    assert n < |a| && (a + b)[..n] == a[..n] && (a + b)[n] == a[n];
  }

  lemma GoodMore(r: Registry, a: seq<Job>, b: seq<Job>)
    requires Good(r, a) == |a|
    ensures (a + b)[..Good(r, a + b)] == a + b[..Good(r, b)] && a[..Good(r, a)] == a
    ensures Broken(r, a) == [] && Broken(r, a + b) == Broken(r, b)
    ensures FirstProblem(r, a + b) == FirstProblem(r, b)
  {
    GoodConcat(r, a, b);
  }

  lemma RanMore(r: Registry, was: (seq<Event>, seq<Job>), a: seq<Job>, mid: (seq<Event>, seq<Job>), b: seq<Job>,
      err: Option<Problem>, now: (seq<Event>, seq<Job>))
    requires Ran(r, was, a, None, mid) && Ran(r, mid, b, err, now)
    ensures Ran(r, was, a + b, err, now)
  {
    assert Good(r, a) == |a|;
    GoodMore(r, a, b);
    StartedConcat(a, b[..Good(r, b)]);
    hide Good, StartedAll, Broken, FirstProblem;
    assert Progress(r, a + b) == StartedAll(a) + StartedAll(b[..Good(r, b)]) + Broken(r, b);
    Assoc(was.0, StartedAll(a), StartedAll(b[..Good(r, b)]), Broken(r, b));
    Assoc(was.1, a, b[..Good(r, b)], []);
  }

  lemma Assoc<T>(a: seq<T>, b: seq<T>, c: seq<T>, d: seq<T>)
    ensures a + (b + []) + (c + d) == a + (b + c + d)
    ensures a + b + c == a + (b + c)
  {
    assert b + [] == b;
  }

  // ----- what a load leaves behind -----

  /** The loader gets as far as calling the plugin's load. */
  predicate Tried(r: Registry, job: Job) {
    job.name in r.names && !job.stray
  }

  /** The log of a load of which job `n` was the first to fail: the earlier ones started, the failing one was tried
      if it could be; then its own fiber, if it came with one, was disposed of, and after it every started one,
      newest first. */
  predicate RolledBack(r: Registry, jobs: seq<Job>, n: nat, log: seq<Event>) {
    && n < |jobs| && (forall i :: 0 <= i < n ==> Tried(r, jobs[i]) && r.load(jobs[i]).Loaded?)
    && (Tried(r, jobs[n]) ==> r.load(jobs[n]).Failed?)
    && var tried := if Tried(r, jobs[n]) then 1 else 0;
       var own := if Tried(r, jobs[n]) && r.load(jobs[n]) == Failed(true) then 1 else 0;
       && |log| == n + tried + own + n
       && (forall i :: 0 <= i < n ==> log[i] == Started(jobs[i]) && log[|log| - 1 - i] == Disposed(jobs[i].at))
       && (tried == 1 ==> log[n] == Broke(jobs[n]))
       && (own == 1 ==> log[n + 1] == Disposed(jobs[n].at))
  }

  /** The event leaves a fiber behind. */
  predicate Opens(r: Registry, e: Event) {
    match e
    case Started(_) => true
    case Broke(job) => r.load(job) == Failed(true)
    case Disposed(_) => false
  }

  /** Event `k` disposes of what event `i` left. */
  predicate Closes(r: Registry, log: seq<Event>, i: int, k: int) {
    0 <= i < k < |log| && Opens(r, log[i]) && log[k] == Disposed(log[i].job.at)
  }

  /** Nothing leaks: what an event leaves is disposed of exactly once and later, what was left last first, and
      nothing else is disposed of. */
  predicate NothingLeaks(r: Registry, log: seq<Event>) {
    && (forall i :: 0 <= i < |log| && Opens(r, log[i]) ==> exists k :: i < k < |log| && Closes(r, log, i, k))
    && (forall k :: 0 <= k < |log| && log[k].Disposed? ==> exists i :: 0 <= i < k && Closes(r, log, i, k))
    && (forall k, l :: 0 <= k < l < |log| && log[k].Disposed? ==> log[l].Disposed? && log[k] != log[l])
    && (forall i, k, j, l :: 0 <= i < j < |log| && 0 <= k < |log| && 0 <= l < |log| ==>
          (Closes(r, log, i, k) && Closes(r, log, j, l) ==> l < k))
  }

  /** The second half of the log takes back the first, read backwards. */
  predicate Mirrored(r: Registry, log: seq<Event>) {
    var last := |log| - 1;
    && (forall i :: 0 <= i < |log| && Opens(r, log[i]) ==> Closes(r, log, i, last - i))
    && (forall k :: 0 <= k < |log| && log[k].Disposed? ==> Closes(r, log, last - k, k))
    && (forall k, l :: 0 <= k < l < |log| && log[k].Disposed? ==> log[l].Disposed?)
    && (forall i, j :: 0 <= i < j < |log| && Opens(r, log[i]) && Opens(r, log[j]) ==> log[i].job.at != log[j].job.at)
  }

  lemma RollbackMirrors(r: Registry, jobs: seq<Job>, n: nat, log: seq<Event>)
    requires RolledBack(r, jobs, n, log)
    requires forall i, j :: 0 <= i < j < |jobs| ==> jobs[i].at != jobs[j].at
    ensures Mirrored(r, log)
  {
    var last := |log| - 1;
    forall k | n < k < |log| ensures log[k].Disposed? && Closes(r, log, last - k, k) {
      if last - k < n { assert log[last - (last - k)] == Disposed(jobs[last - k].at); }
    }
    if !Tried(r, jobs[n]) && n > 0 { assert log[last - (n - 1)] == Disposed(jobs[n - 1].at); }
    forall i | 0 <= i < |log| && Opens(r, log[i]) ensures Closes(r, log, i, last - i) && i <= n
        && log[i].job == jobs[i] {
      assert i <= n;
    }
  }

  lemma MirrorClosesAll(r: Registry, log: seq<Event>)
    requires Mirrored(r, log)
    ensures NothingLeaks(r, log)
  {
    hide Opens;
    var last := |log| - 1;
    forall k, l | 0 <= k < l < |log| && log[k].Disposed? ensures log[l].Disposed? && log[k] != log[l] {
      assert log[l].Disposed?;
      assert Closes(r, log, last - k, k) && Closes(r, log, last - l, l);
    }
    forall i, k | 0 <= i < |log| && 0 <= k < |log| && Closes(r, log, i, k) ensures k == last - i {
      assert Closes(r, log, last - k, k);
    }
  }

  /** The log that the loader's steps add up to. */
  lemma LogRolledBack(r: Registry, jobs: seq<Job>, log: seq<Event>)
    requires Good(r, jobs) < |jobs|
    requires var n := Good(r, jobs); log == StartedAll(jobs[..n]) + Breakage(r, jobs[n]) + DisposedAll(jobs[..n])
    ensures RolledBack(r, jobs, Good(r, jobs), log)
  {
    var n := Good(r, jobs);
    var a, b, c := StartedAll(jobs[..n]), Breakage(r, jobs[n]), DisposedAll(jobs[..n]);
    forall i | 0 <= i < n ensures log[i] == Started(jobs[i]) && log[|log| - 1 - i] == Disposed(jobs[i].at) {
      assert log[i] == a[i] && log[|log| - 1 - i] == c[n - 1 - i];
    }
  }

  lemma {:induction false} BeforeApart(a: Path, b: Path)
    requires Before(a, b)
    ensures a != b
  {
    if a[0] == b[0] { BeforeApart(a[1..], b[1..]); }
  }

  lemma JobsApart(nodes: seq<Tree>, jobs: seq<Job>)
    requires jobs == Jobs(nodes, [], [], [])
    ensures forall i, j :: 0 <= i < j < |jobs| ==> jobs[i].at != jobs[j].at
  {
    forall i, j | 0 <= i < j < |jobs| ensures jobs[i].at != jobs[j].at {
      JobsOrdered(nodes, i, j, [], [], []);
      BeforeApart(jobs[i].at, jobs[j].at);
    }
  }

  class Loader {
    const registry: Registry
    var log: seq<Event>
    var fibers: seq<Job>

    constructor (registry: Registry)
      ensures this.registry == registry && log == [] && fibers == []
    {
      this.registry := registry;
      log, fibers := [], [];
    }

    method LoadNodes(nodes: seq<Tree>, at: Path, inherited: seq<string>,
        scope: seq<string>) returns (err: Option<Problem>)
      modifies this
      ensures Ran(registry, old((log, fibers)), Jobs(nodes, at, inherited, scope), err, (log, fibers))
      decreases nodes, 0
    {
      ghost var was := (log, fibers);
      var i := 0;
      while i < |nodes|
        invariant 0 <= i <= |nodes|
        invariant Ran(registry, was, Jobs(nodes[..i], at, inherited, scope), None, (log, fibers))
      {
        ghost var before, mid := Jobs(nodes[..i], at, inherited, scope), (log, fibers);
        assert nodes[..i + 1][..i] == nodes[..i];
        err := LoadNode(nodes[i], at + [i], inherited, scope);
        RanMore(registry, was, before, mid, JobsOf(nodes[i], at + [i], inherited, scope), err, (log, fibers));
        if err.Some? {
          RestIgnored(registry, was, nodes, i + 1, at, inherited, scope, err, (log, fibers));
          return;
        }
        i := i + 1;
      }
      assert nodes[..i] == nodes;
      err := None;
    }

    method LoadNode(node: Tree, at: Path, inherited: seq<string>, scope: seq<string>) returns (err: Option<Problem>)
      modifies this
      ensures Ran(registry, old((log, fibers)), JobsOf(node, at, inherited, scope), err, (log, fibers))
      decreases node, 1
    {
      if node.data.disabled { return None; }
      var deps := inherited + node.data.inject;
      if node.data.group {
        err := LoadNodes(node.kids, at, deps, scope + [ScopeOf(node.data)]);
        return;
      }
      var job := Job(at, node.data.name, node.data.config, deps, scope, node.kids != []);
      assert JobsOf(node, at, inherited, scope) == [job];
      if node.data.name !in registry.names { return Some(UnknownPlugin(at)); }
      if node.kids != [] { return Some(NeedsGroup(at)); }
      match registry.load(job) {
        case Failed(fiber) =>
          log := log + [Broke(job)];
          if fiber { log := log + [Disposed(at)]; }
          return Some(LoadError(at));
        case Loaded =>
          log := log + [Started(job)];
          fibers := fibers + [job];
          assert Good(registry, [job]) == 1 && [job][..1] == [job];
      }
      err := None;
    }

    /** `Tree.Load`: on success it loaded exactly the tree's jobs, in order; on failure the failing fiber is
        disposed of and then every earlier one, newest first, and no fiber is left. */
    method Load(nodes: seq<Tree>) returns (err: Option<Problem>)
      requires log == [] && fibers == []
      modifies this
      ensures var jobs := Jobs(nodes, [], [], []);
        var n := Good(registry, jobs);
        && err == FirstProblem(registry, jobs)
        && (err.None? ==> n == |jobs| && log == StartedAll(jobs) && fibers == jobs)
        && (err.Some? ==>
            n < |jobs| && log == StartedAll(jobs[..n]) + Breakage(registry, jobs[n]) + DisposedAll(jobs[..n]))
      ensures err.Some? ==>
        NothingLeaks(registry, log) && exists n :: RolledBack(registry, Jobs(nodes, [], [], []), n, log)
    {
      hide Jobs, Good, FirstProblem, Ran, StartedAll, Breakage, RolledBack, NothingLeaks, Mirrored;
      ghost var jobs := Jobs(nodes, [], [], []);
      err := LoadNodes(nodes, [], [], []);
      RanFromStart(registry, jobs, err, (log, fibers));
      if err.Some? {
        ghost var progress := log;
        var i := |fibers|;
        assert fibers[i..] == [];
        while i > 0
          invariant 0 <= i <= |fibers|
          invariant fibers == jobs[..Good(registry, jobs)]
          invariant log == progress + DisposedAll(fibers[i..])
        {
          i := i - 1;
          log := log + [Disposed(fibers[i].at)];
          assert fibers[i..][1..] == fibers[i + 1..];
        }
        assert fibers[0..] == fibers;
        LogRolledBack(registry, jobs, log);
        JobsApart(nodes, jobs);
        RollbackMirrors(registry, jobs, Good(registry, jobs), log);
        MirrorClosesAll(registry, log);
      }
    }
  }

  /** After a failure the remaining siblings contribute nothing. */
  lemma {:induction false} RestIgnored(r: Registry, was: (seq<Event>, seq<Job>), nodes: seq<Tree>, i: nat, at: Path,
      deps: seq<string>,
                                       scope: seq<string>, err: Option<Problem>, now: (seq<Event>, seq<Job>))
    requires i <= |nodes| && Ran(r, was, Jobs(nodes[..i], at, deps, scope), err, now) && err.Some?
    ensures Ran(r, was, Jobs(nodes, at, deps, scope), err, now)
  {
    if i == |nodes| {
      assert nodes[..i] == nodes;
    } else {
      var front := nodes[..|nodes| - 1];
      assert front[..i] == nodes[..i];
      RestIgnored(r, was, front, i, at, deps, scope, err, now);
      RanNoMore(r, was, Jobs(front, at, deps, scope), JobsOf(nodes[|nodes| - 1], at + [|nodes| - 1], deps, scope), err,
          now);
    }
  }

  // ----- strict trees -----

  /** Only groups have children. */
  predicate NoStray(nodes: seq<Tree>) {
    forall i :: 0 <= i < |nodes| ==> (nodes[i].kids == [] || nodes[i].data.group) && NoStray(nodes[i].kids)
  }

  lemma {:induction false} StrictNoStray(s: State, nodes: seq<Tree>)
    requires CheckAll(s, true, nodes).Ok?
    ensures NoStray(nodes) && CheckAll(s, true, nodes).value == s
  {
    if nodes != [] {
      var k := |nodes| - 1;
      StrictNoStray(s, nodes[..k]);
      StrictNoStray(s, nodes[k].kids);
      forall i | 0 <= i < |nodes| ensures (nodes[i].kids == [] || nodes[i].data.group) && NoStray(nodes[i].kids) {
        if i < k { assert nodes[i] == nodes[..k][i]; }
      }
    }
  }

  lemma {:induction false} NoStrayJobs(nodes: seq<Tree>, i: nat, at: Path, deps: seq<string>, scope: seq<string>)
    requires NoStray(nodes) && i < |Jobs(nodes, at, deps, scope)|
    ensures !Jobs(nodes, at, deps, scope)[i].stray
    decreases nodes
  {
    var k := |nodes| - 1;
    var front := Jobs(nodes[..k], at, deps, scope);
    if i < |front| {
      NoStrayJobs(nodes[..k], i, at, deps, scope);
    } else if nodes[k].data.group {
      NoStrayJobs(nodes[k].kids, i - |front|, at + [k], deps + nodes[k].data.inject, scope + [ScopeOf(nodes[k].data)]);
    }
  }

  /** A tree that a strict composition returned never fails to load for children on an entry that is not a
      group. */
  lemma StrictTreesLoad(layers: seq<Layer>, r: Registry)
    requires Compose(layers, true).Ok?
    ensures var problem := FirstProblem(r, Jobs(Compose(layers, true).value.nodes, [], [], []));
      problem.Some? ==> !problem.value.NeedsGroup?
  {
    var s := ApplyLayers(layers, true).value;
    StrictNoStray(s, s.nodes);
    var jobs := Jobs(s.nodes, [], [], []);
    if Good(r, jobs) < |jobs| { NoStrayJobs(s.nodes, Good(r, jobs), [], [], []); }
  }
}
