/** What composing layers keeps (loader/loader.go): no layer removes or moves a node, and a created entry becomes
    exactly the nodes it declares. */
module Conservation {
  import opened Options
  import opened Layers
  import opened Composition

  // ----- nothing is removed or moved -----

  predicate Grew(a: Data, b: Data) {
    b.id == a.id && b.source == a.source && a.patched <= b.patched
  }

  /** Every node of `a` is still at its place in `b`, and new siblings come after old ones. */
  predicate Grown(a: seq<Tree>, b: seq<Tree>) {
    forall i :: 0 <= i < |a| ==> i < |b| && Grew(a[i].data, b[i].data) && Grown(a[i].kids, b[i].kids)
  }

  lemma {:induction false} GrownRefl(a: seq<Tree>)
    ensures Grown(a, a)
  {
    forall i | 0 <= i < |a| ensures Grown(a[i].kids, a[i].kids) { GrownRefl(a[i].kids); }
  }

  lemma {:induction false} GrownTrans(a: seq<Tree>, b: seq<Tree>, c: seq<Tree>)
    requires Grown(a, b) && Grown(b, c)
    ensures Grown(a, c)
    decreases a
  {
    forall i | 0 <= i < |a| ensures Grown(a[i].kids, c[i].kids) { GrownTrans(a[i].kids, b[i].kids, c[i].kids); }
  }

  lemma {:induction false} AppendGrown(nodes: seq<Tree>, p: Path, t: Tree)
    ensures Grown(nodes, AppendAt(nodes, p, t))
    decreases p
  {
    GrownRefl(nodes);
    if p != [] && p[0] < |nodes| { AppendGrown(nodes[p[0]].kids, p[1..], t); }
  }

  lemma {:induction false} MergeGrown(nodes: seq<Tree>, at: Path, p: Patch, source: string)
    ensures Grown(nodes, MergeAt(nodes, at, p, source))
    decreases at
  {
    GrownRefl(nodes);
    if |at| > 1 && at[0] < |nodes| { MergeGrown(nodes[at[0]].kids, at[1..], p, source); }
  }

  /** A path keeps naming the same node. */
  lemma {:induction false} GrownAt(a: seq<Tree>, b: seq<Tree>, p: Path)
    requires Grown(a, b) && At(a, p).Some?
    ensures At(b, p).Some? && Grew(At(a, p).value.data, At(b, p).value.data)
    ensures |At(a, p).value.kids| <= |At(b, p).value.kids|
    decreases p
  {
    if |p| > 1 { GrownAt(a[p[0]].kids, b[p[0]].kids, p[1..]); } else { GrownLonger(a[p[0]].kids, b[p[0]].kids); }
  }

  lemma GrownLonger(a: seq<Tree>, b: seq<Tree>)
    requires Grown(a, b)
    ensures |a| <= |b|
  {
    if a != [] { assert Grew(a[|a| - 1].data, b[|a| - 1].data); }
  }

  lemma AddRootGrown(s: State, strict: bool, source: string, entry: Option<Patch>)
    ensures AddRoot(s, strict, source, entry).Ok? ==> Grown(s.nodes, AddRoot(s, strict, source, entry).value.nodes)
  {
    GrownRefl(s.nodes);
    if entry.Some? && CreateNode(entry.value, source).Ok? {
      var t := CreateNode(entry.value, source).value;
      IndexNodeAdds(s.(nodes := s.nodes + [t]), strict, t, [|s.nodes|]);
      AppendGrown(s.nodes, [], t);
    }
  }

  lemma {:induction false} AddRootsGrown(s: State, strict: bool, source: string, entries: seq<Option<Patch>>)
    ensures AddRoots(s, strict, source, entries).Ok? ==>
      Grown(s.nodes, AddRoots(s, strict, source, entries).value.nodes)
  {
    GrownRefl(s.nodes);
    if entries != [] {
      var front := entries[..|entries| - 1];
      AddRootsGrown(s, strict, source, front);
      var mid := AddRoots(s, strict, source, front);
      if mid.Ok? {
        AddRootGrown(mid.value, strict, source, entries[|entries| - 1]);
        var end := AddRoots(s, strict, source, entries);
        if end.Ok? { GrownTrans(s.nodes, mid.value.nodes, end.value.nodes); }
      }
    }
  }

  lemma InsertOneGrown(s: State, strict: bool, source: string, target: Path, entry: Option<Patch>)
    ensures InsertOne(s, strict, source, target, entry).Ok? ==>
      Grown(s.nodes, InsertOne(s, strict, source, target, entry).value.0.nodes)
  {
    GrownRefl(s.nodes);
    if entry.Some? && CreateNode(entry.value, source).Ok? {
      var t := CreateNode(entry.value, source).value;
      IndexNodeAdds(s.(nodes := AppendAt(s.nodes, target, t)), strict, t, target + [|KidsAt(s.nodes, target)|]);
      AppendGrown(s.nodes, target, t);
    }
  }

  lemma {:induction false} InsertAllGrown(s: State, strict: bool, source: string, target: Path,
      entries: seq<Option<Patch>>)
    ensures InsertAll(s, strict, source, target, entries).Ok? ==>
      Grown(s.nodes, InsertAll(s, strict, source, target, entries).value.0.nodes)
  {
    GrownRefl(s.nodes);
    if entries != [] {
      var front := entries[..|entries| - 1];
      InsertAllGrown(s, strict, source, target, front);
      var mid := InsertAll(s, strict, source, target, front);
      if mid.Ok? {
        InsertOneGrown(mid.value.0, strict, source, target, entries[|entries| - 1]);
        var end := InsertAll(s, strict, source, target, entries);
        if end.Ok? { GrownTrans(s.nodes, mid.value.0.nodes, end.value.0.nodes); }
      }
    }
  }

  lemma {:induction false} ApplyPatchGrown(s: State, strict: bool, source: string, target: Path, entry: Option<Patch>)
    ensures ApplyPatch(s, strict, source, target, entry).Ok? ==>
      Grown(s.nodes, ApplyPatch(s, strict, source, target, entry).value.nodes)
    decreases entry, 1
  {
    GrownRefl(s.nodes);
    if entry.Some? {
      var p := entry.value;
      if p.insert != [] {
        InsertAllGrown(s, strict, source, target, p.insert);
      } else if p.id != "" && p.id in s.index {
        var at := s.index[p.id];
        var s' := s.(nodes := MergeAt(s.nodes, at, p, source), hits := s.hits + [Hit(at, source, p)]);
        MergeGrown(s.nodes, at, p, source);
        ApplyPatchesGrown(s', strict, source, at, p.plugins);
        var end := ApplyPatches(s', strict, source, at, p.plugins);
        if end.Ok? { GrownTrans(s.nodes, s'.nodes, end.value.nodes); }
      }
    }
  }

  lemma {:induction false} ApplyPatchesGrown(s: State, strict: bool, source: string, target: Path,
      entries: seq<Option<Patch>>)
    ensures ApplyPatches(s, strict, source, target, entries).Ok? ==>
      Grown(s.nodes, ApplyPatches(s, strict, source, target, entries).value.nodes)
    decreases entries, 0
  {
    GrownRefl(s.nodes);
    if entries != [] {
      var front := entries[..|entries| - 1];
      ApplyPatchesGrown(s, strict, source, target, front);
      var mid := ApplyPatches(s, strict, source, target, front);
      if mid.Ok? {
        ApplyPatchGrown(mid.value, strict, source, target, entries[|entries| - 1]);
        var end := ApplyPatches(s, strict, source, target, entries);
        if end.Ok? { GrownTrans(s.nodes, mid.value.nodes, end.value.nodes); }
      }
    }
  }

  lemma {:induction false} EntriesGrown(s: State, strict: bool, layer: Layer, entries: seq<Option<Patch>>)
    ensures ApplyEntries(s, strict, layer, entries).Ok? ==>
      Grown(s.nodes, ApplyEntries(s, strict, layer, entries).value.nodes)
  {
    GrownRefl(s.nodes);
    if entries != [] {
      var front, last := entries[..|entries| - 1], entries[|entries| - 1];
      EntriesGrown(s, strict, layer, front);
      var mid := ApplyEntries(s, strict, layer, front);
      if mid.Ok? {
        GrownRefl(mid.value.nodes);
        if layer.patch { ApplyPatchGrown(mid.value, strict, layer.title, [], last); }
        else if last.Some? {
          AddRootsGrown(mid.value, strict, layer.title, if last.value.insert == [] then [last] else last.value.insert);
        }
        var end := ApplyEntries(s, strict, layer, entries);
        if end.Ok? { GrownTrans(s.nodes, mid.value.nodes, end.value.nodes); }
      }
    }
  }

  /** No layer removes, moves or renames a node: every node is still at its place, with its id, its source
      and everything that patched it before, and children are only added after the ones it had. */
  lemma LayerKeepsNodes(s: State, strict: bool, layer: Layer)
    requires ApplyLayer(s, strict, layer).Ok?
    ensures forall p :: At(s.nodes, p).Some? ==>
      var now := At(ApplyLayer(s, strict, layer).value.nodes, p);
      now.Some? && Grew(At(s.nodes, p).value.data, now.value.data) && |At(s.nodes, p).value.kids| <= |now.value.kids|
  {
    EntriesGrown(s, strict, layer, layer.entries);
    forall p | At(s.nodes, p).Some?
      ensures var now := At(ApplyLayer(s, strict, layer).value.nodes, p);
        now.Some? && Grew(At(s.nodes, p).value.data, now.value.data) && |At(s.nodes, p).value.kids| <= |now.value.kids|
    {
      GrownAt(s.nodes, ApplyLayer(s, strict, layer).value.nodes, p);
    }
  }

  // ----- what is declared -----

  /** What the nodes of a forest hold. */
  function Nodes(nodes: seq<Tree>): multiset<Data>
    decreases nodes, 0
  {
    if nodes == [] then multiset{} else Nodes(nodes[..|nodes| - 1]) + NodesIn(nodes[|nodes| - 1])
  }

  function NodesIn(t: Tree): multiset<Data>
    decreases t, 1
  {
    multiset{t.data} + Nodes(t.kids)
  }

  /** The nodes an entry of layer `source` declares, each with the fields it is declared with. */
  function Declares(p: Patch, source: string): multiset<Data>
    decreases p, 1
  {
    multiset{Created(p, source)} + DeclaresKids(p.plugins, source)
  }

  function DeclaresKids(plugins: seq<Option<Patch>>, source: string): multiset<Data>
    decreases plugins, 0
  {
    if plugins == [] then multiset{}
        else DeclaresKids(plugins[..|plugins| - 1], source) + DeclaresKid(plugins[|plugins| - 1], source)
  }

  function DeclaresKid(entry: Option<Patch>, source: string): multiset<Data>
    decreases entry, 3
  {
    if entry.Some? && entry.value.insert != [] then DeclaresAll(entry.value.insert, source)
        else DeclaresOne(entry, source)
  }

  function DeclaresOne(entry: Option<Patch>, source: string): multiset<Data>
    decreases entry, 2
  {
    if entry.None? then multiset{} else Declares(entry.value, source)
  }

  function DeclaresAll(entries: seq<Option<Patch>>, source: string): multiset<Data>
    decreases entries, 0
  {
    if entries == [] then multiset{}
        else DeclaresAll(entries[..|entries| - 1], source) + DeclaresOne(entries[|entries| - 1], source)
  }

  /** The nodes an entry of a patch layer declares: the ones it inserts, at any depth. */
  function Inserts(entry: Option<Patch>, source: string): multiset<Data>
    decreases entry, 1
  {
    if entry.None? then multiset{}
    else if entry.value.insert != [] then DeclaresAll(entry.value.insert, source)
    else InsertsAll(entry.value.plugins, source)
  }

  function InsertsAll(entries: seq<Option<Patch>>, source: string): multiset<Data>
    decreases entries, 0
  {
    if entries == [] then multiset{}
        else InsertsAll(entries[..|entries| - 1], source) + Inserts(entries[|entries| - 1], source)
  }

  /** What an entry of a layer declares. */
  function DeclaredIn(layer: Layer, entry: Option<Patch>): multiset<Data> {
    if layer.patch then Inserts(entry, layer.title)
    else if entry.None? then multiset{}
    else DeclaresAll(BaseEntries(entry), layer.title)
  }

  /** The entries a base layer's entry stands for. */
  function BaseEntries(entry: Option<Patch>): seq<Option<Patch>> {
    if entry.Some? && entry.value.insert != [] then entry.value.insert else [entry]
  }

  function DeclaredAll(layer: Layer, entries: seq<Option<Patch>>): multiset<Data> {
    if entries == [] then multiset{}
        else DeclaredAll(layer, entries[..|entries| - 1]) + DeclaredIn(layer, entries[|entries| - 1])
  }

  /** Every entry the layers declare, with its layer. */
  function DeclaredBy(layers: seq<Layer>): multiset<Data> {
    if layers == [] then multiset{}
    else DeclaredBy(layers[..|layers| - 1]) + DeclaredAll(layers[|layers| - 1], layers[|layers| - 1].entries)
  }

  /** The declared nodes a warning accounts for. */
  function LostBy(w: Warning): multiset<Data> {
    match w
    case Skipped(source, entry) => Declares(entry, source)
    case Unmatched(source, patch) => InsertsAll(patch.plugins, source)
    case Repeated(_, _) => multiset{}
    case StrayKids(_) => multiset{}
  }

  function Lost(warnings: seq<Warning>): multiset<Data> {
    if warnings == [] then multiset{} else Lost(warnings[..|warnings| - 1]) + LostBy(warnings[|warnings| - 1])
  }

  lemma LostMore(warnings: seq<Warning>, w: Warning)
    ensures Lost(warnings + [w]) == Lost(warnings) + LostBy(w)
  {
    assert (warnings + [w])[..|warnings|] == warnings;
  }

  // ----- what creation and insertion add -----

  lemma {:induction false} NodesConcat(a: seq<Tree>, b: seq<Tree>)
    ensures Nodes(a + b) == Nodes(a) + Nodes(b)
  {
    if b == [] {
      assert a + b == a;
    } else {
      assert (a + b)[..|a + b| - 1] == a + b[..|b| - 1];
      NodesConcat(a, b[..|b| - 1]);
    }
  }

  lemma {:induction false} NodesUpdate(nodes: seq<Tree>, i: nat, t: Tree)
    requires i < |nodes|
    ensures Nodes(nodes[i := t]) + NodesIn(nodes[i]) == Nodes(nodes) + NodesIn(t)
  {
    var k := |nodes| - 1;
    if i == k {
      assert nodes[i := t][..k] == nodes[..k];
    } else {
      assert nodes[i := t][..k] == nodes[..k][i := t];
      NodesUpdate(nodes[..k], i, t);
      Beside(Nodes(nodes[i := t][..k]), NodesIn(nodes[k]), NodesIn(nodes[i]), Nodes(nodes[..k]), NodesIn(t));
    }
  }

  lemma Beside<T>(a: multiset<T>, b: multiset<T>, x: multiset<T>, n: multiset<T>, y: multiset<T>)
    requires a + x == n + y
    ensures a + b + x == n + b + y
  {
    assert a + b + x == (a + x) + b && n + b + y == (n + y) + b;
  }

  lemma Cancel<T>(r: multiset<T>, k: multiset<T>, n: multiset<T>, t: multiset<T>)
    requires r + k == n + (k + t)
    ensures r == n + t
  {
    assert (r + k) - k == r && (n + t + k) - k == n + t && n + (k + t) == n + t + k;
  }

  predicate Target(nodes: seq<Tree>, p: Path) {
    p == [] || At(nodes, p).Some?
  }

  lemma {:induction false} AppendNodes(nodes: seq<Tree>, p: Path, t: Tree)
    requires Target(nodes, p)
    ensures Nodes(AppendAt(nodes, p, t)) == Nodes(nodes) + NodesIn(t)
    decreases p
  {
    if p == [] {
      assert (nodes + [t])[..|nodes|] == nodes;
    } else {
      var kid := nodes[p[0]];
      AppendNodes(kid.kids, p[1..], t);
      NodesUpdate(nodes, p[0], kid.(kids := AppendAt(kid.kids, p[1..], t)));
      assert NodesIn(kid.(kids := AppendAt(kid.kids, p[1..], t))) == NodesIn(kid) + NodesIn(t);
      Cancel(Nodes(AppendAt(nodes, p, t)), NodesIn(kid), Nodes(nodes), NodesIn(t));
    }
  }

  /** The nodes an entry expands into are exactly the ones it declares, with its fields and its layer. */
  lemma {:induction false} CreateDeclares(p: Patch, source: string)
    ensures CreateNode(p, source).Ok? ==> NodesIn(CreateNode(p, source).value) == Declares(p, source)
    decreases p, 1
  {
    CreateKidsDeclare(p.plugins, source);
  }

  lemma {:induction false} CreateKidsDeclare(plugins: seq<Option<Patch>>, source: string)
    ensures CreateKids(plugins, source).Ok? ==>
      Nodes(CreateKids(plugins, source).value) == DeclaresKids(plugins, source)
    decreases plugins, 0
  {
    if plugins != [] {
      var front, last := plugins[..|plugins| - 1], plugins[|plugins| - 1];
      CreateKidsDeclare(front, source);
      CreateKidDeclares(last, source);
      if CreateKids(front, source).Ok? && CreateKid(last, source).Ok? {
        NodesConcat(CreateKids(front, source).value, CreateKid(last, source).value);
      }
    }
  }

  lemma {:induction false} CreateKidDeclares(entry: Option<Patch>, source: string)
    ensures CreateKid(entry, source).Ok? ==> Nodes(CreateKid(entry, source).value) == DeclaresKid(entry, source)
    decreases entry, 3
  {
    if entry.Some? && entry.value.insert != [] {
      CreateInsertedDeclare(entry.value.insert, source);
    } else {
      CreateOneDeclares(entry, source);
    }
  }

  lemma {:induction false} CreateOneDeclares(entry: Option<Patch>, source: string)
    ensures CreateOne(entry, source).Ok? ==> Nodes(CreateOne(entry, source).value) == DeclaresOne(entry, source)
    decreases entry, 2
  {
    if entry.Some? {
      CreateDeclares(entry.value, source);
      if CreateNode(entry.value, source).Ok? {
        assert [CreateNode(entry.value, source).value][..0] == [];
      }
    }
  }

  lemma {:induction false} CreateInsertedDeclare(entries: seq<Option<Patch>>, source: string)
    ensures CreateInserted(entries, source).Ok? ==>
      Nodes(CreateInserted(entries, source).value) == DeclaresAll(entries, source)
    decreases entries, 0
  {
    if entries != [] {
      var front, last := entries[..|entries| - 1], entries[|entries| - 1];
      CreateInsertedDeclare(front, source);
      CreateOneDeclares(last, source);
      if CreateInserted(front, source).Ok? && CreateOne(last, source).Ok? {
        NodesConcat(CreateInserted(front, source).value, CreateOne(last, source).value);
      }
    }
  }

  lemma {:induction false} IndexNodeLost(s: State, strict: bool, t: Tree, at: Path)
    ensures IndexNode(s, strict, t, at).Ok? ==> Lost(IndexNode(s, strict, t, at).value.warnings) == Lost(s.warnings)
    decreases t, 1
  {
    var id := t.data.id;
    hide Lost, Declares, InsertsAll;
    if id == "" { IndexAllLost(s, strict, t.kids, at); }
    else if id in s.index {
      LostMore(s.warnings, Repeated(t.data.source, id));
      IndexAllLost(s.(warnings := s.warnings + [Repeated(t.data.source, id)]), strict, t.kids, at);
    } else { IndexAllLost(s.(index := s.index[id := at]), strict, t.kids, at); }
  }

  lemma {:induction false} IndexAllLost(s: State, strict: bool, nodes: seq<Tree>, at: Path)
    ensures IndexAll(s, strict, nodes, at).Ok? ==>
      Lost(IndexAll(s, strict, nodes, at).value.warnings) == Lost(s.warnings)
    decreases nodes, 0
  {
    if nodes != [] {
      var k := |nodes| - 1;
      IndexAllLost(s, strict, nodes[..k], at);
      if IndexAll(s, strict, nodes[..k], at).Ok? {
        IndexNodeLost(IndexAll(s, strict, nodes[..k], at).value, strict, nodes[k], at + [k]);
      }
    }
  }

  /** `Find` returns a node of the forest with that id. */
  lemma {:induction false} FindValid(nodes: seq<Tree>, id: string)
    requires Find(nodes, id).Some?
    ensures At(nodes, Find(nodes, id).value).Some? && At(nodes, Find(nodes, id).value).value.data.id == id
    decreases nodes, 0
  {
    var k := |nodes| - 1;
    if Find(nodes[..k], id).Some? {
      FindValid(nodes[..k], id);
      GrownRefl(nodes[..k]);
      PrefixAt(nodes, k, Find(nodes[..k], id).value);
    } else if nodes[k].data.id != id {
      FindValid(nodes[k].kids, id);
      var p := Find(nodes[k].kids, id).value;
      assert ([k] + p)[1..] == p;
    }
  }

  lemma PrefixAt(nodes: seq<Tree>, k: nat, p: Path)
    requires k <= |nodes| && At(nodes[..k], p).Some?
    ensures At(nodes, p) == At(nodes[..k], p)
  {}

  lemma IndexedTarget(s: State, id: string)
    requires Indexed(s) && id in s.index
    ensures At(s.nodes, s.index[id]).Some? && At(s.nodes, s.index[id]).value.data.id == id
  {
    RebuiltFinds(s.nodes, id);
    FindValid(s.nodes, id);
  }

  lemma TargetKept(a: seq<Tree>, b: seq<Tree>, p: Path)
    requires Grown(a, b) && Target(a, p)
    ensures Target(b, p)
  {
    if p != [] { GrownAt(a, b, p); }
  }

  lemma {:induction false} CheckNodeLost(s: State, strict: bool, t: Tree)
    ensures CheckNode(s, strict, t).Ok? ==> Lost(CheckNode(s, strict, t).value.warnings) == Lost(s.warnings)
    decreases t, 1
  {
    LostMore(s.warnings, StrayKids(t.data));
    CheckAllLost(s, strict, t.kids);
    CheckAllLost(s.(warnings := s.warnings + [StrayKids(t.data)]), strict, t.kids);
  }

  lemma {:induction false} CheckAllLost(s: State, strict: bool, nodes: seq<Tree>)
    ensures CheckAll(s, strict, nodes).Ok? ==> Lost(CheckAll(s, strict, nodes).value.warnings) == Lost(s.warnings)
    decreases nodes, 0
  {
    if nodes != [] {
      var k := |nodes| - 1;
      CheckAllLost(s, strict, nodes[..k]);
      if CheckAll(s, strict, nodes[..k]).Ok? { CheckNodeLost(CheckAll(s, strict, nodes[..k]).value, strict, nodes[k]); }
    }
  }
}
