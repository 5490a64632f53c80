/** Composing layers (loader/loader.go): the id index agrees with depth-first search, and strict mode refines
    warning mode. */
module Composition {
  import opened Options
  import opened Layers

  // ----- the index agrees with depth-first search -----

  function Entry(index: map<string, Path>, id: string): Option<Path> {
    if id in index then Some(index[id]) else None
  }

  /** The index adds exactly the ids of the subtree that were not there, each at its first node. */
  predicate Adds(index: map<string, Path>, now: map<string, Path>, id: string, found: Option<Path>, at: Path) {
    Entry(now, id) == if id in index then Some(index[id]) else if id != "" && found.Some? then Some(at + found.value)
        else None
  }

  lemma {:induction false} AddTreeFinds(index: map<string, Path>, t: Tree, at: Path, id: string)
    ensures Adds(index, AddTree(index, t, at), id, FindIn(t, id), at)
    decreases t, 1
  {
    var own := if t.data.id != "" && t.data.id !in index then index[t.data.id := at] else index;
    AddAllFinds(own, t.kids, at, id);
    assert at + [] == at;
  }

  lemma {:induction false} AddAllFinds(index: map<string, Path>, nodes: seq<Tree>, at: Path, id: string)
    ensures Adds(index, AddAll(index, nodes, at), id, Find(nodes, id), at)
    decreases nodes, 0
  {
    if nodes != [] {
      var k := |nodes| - 1;
      AddAllFinds(index, nodes[..k], at, id);
      AddTreeFinds(AddAll(index, nodes[..k], at), nodes[k], at + [k], id);
      var within := FindIn(nodes[k], id);
      if within.Some? { assert at + ([k] + within.value) == at + [k] + within.value; }
    }
  }

  /** A rebuilt index holds exactly the non-empty ids of the forest, each at the node `Find` returns. */
  lemma RebuiltFinds(nodes: seq<Tree>, id: string)
    ensures id in Rebuilt(nodes) <==> id != "" && Find(nodes, id).Some?
    ensures id in Rebuilt(nodes) ==> Find(nodes, id) == Some(Rebuilt(nodes)[id])
  {
    AddAllFinds(map[], nodes, [], id);
    if Find(nodes, id).Some? { assert [] + Find(nodes, id).value == Find(nodes, id).value; }
  }

  predicate Indexed(s: State) {
    s.index == Rebuilt(s.nodes)
  }

  lemma {:induction false} IndexNodeAdds(s: State, strict: bool, t: Tree, at: Path)
    ensures IndexNode(s, strict, t, at).Ok? ==>
      IndexNode(s, strict, t, at).value == s.(index := AddTree(s.index, t, at),
          warnings := IndexNode(s, strict, t, at).value.warnings)
    decreases t, 1
  {
    var own := if t.data.id != "" && t.data.id !in s.index then s.(index := s.index[t.data.id := at])
               else if t.data.id != "" then s.(warnings := s.warnings + [Repeated(t.data.source, t.data.id)]) else s;
    IndexAllAdds(own, strict, t.kids, at);
  }

  lemma {:induction false} IndexAllAdds(s: State, strict: bool, nodes: seq<Tree>, at: Path)
    ensures IndexAll(s, strict, nodes, at).Ok? ==>
      IndexAll(s, strict, nodes, at).value == s.(index := AddAll(s.index, nodes, at),
          warnings := IndexAll(s, strict, nodes, at).value.warnings)
    decreases nodes, 0
  {
    if nodes != [] {
      var k := |nodes| - 1;
      IndexAllAdds(s, strict, nodes[..k], at);
      if IndexAll(s, strict, nodes[..k], at).Ok? {
        IndexNodeAdds(IndexAll(s, strict, nodes[..k], at).value, strict, nodes[k], at + [k]);
      }
    }
  }

  lemma AddRootIndexed(s: State, strict: bool, source: string, entry: Option<Patch>)
    requires Indexed(s)
    ensures AddRoot(s, strict, source, entry).Ok? ==> Indexed(AddRoot(s, strict, source, entry).value)
  {
    if entry.Some? && CreateNode(entry.value, source).Ok? {
      var t := CreateNode(entry.value, source).value;
      IndexNodeAdds(s.(nodes := s.nodes + [t]), strict, t, [|s.nodes|]);
      assert (s.nodes + [t])[..|s.nodes|] == s.nodes;
      assert [] + [|s.nodes|] == [|s.nodes|];
    }
  }

  lemma {:induction false} AddRootsIndexed(s: State, strict: bool, source: string, entries: seq<Option<Patch>>)
    requires Indexed(s)
    ensures AddRoots(s, strict, source, entries).Ok? ==> Indexed(AddRoots(s, strict, source, entries).value)
  {
    if entries != [] {
      var front := entries[..|entries| - 1];
      AddRootsIndexed(s, strict, source, front);
      if AddRoots(s, strict, source, front).Ok? {
        AddRootIndexed(AddRoots(s, strict, source, front).value, strict, source, entries[|entries| - 1]);
      }
    }
  }

  /** Forests with the same ids in the same places. */
  predicate SameIds(a: seq<Tree>, b: seq<Tree>) {
    |a| == |b| && forall i :: 0 <= i < |a| ==> a[i].data.id == b[i].data.id && SameIds(a[i].kids, b[i].kids)
  }

  lemma {:induction false} SameIdsRefl(a: seq<Tree>)
    ensures SameIds(a, a)
  {
    forall i | 0 <= i < |a| ensures SameIds(a[i].kids, a[i].kids) { SameIdsRefl(a[i].kids); }
  }

  lemma {:induction false} SameIndex(index: map<string, Path>, a: seq<Tree>, b: seq<Tree>, at: Path)
    requires SameIds(a, b)
    ensures AddAll(index, a, at) == AddAll(index, b, at)
    decreases a
  {
    if a != [] {
      var k := |a| - 1;
      SameIndex(index, a[..k], b[..k], at);
      var before, x, y := AddAll(index, a[..k], at), a[k], b[k];
      SameIndex(if x.data.id != "" && x.data.id !in before then before[x.data.id := at + [k]]
          else before, x.kids, y.kids, at + [k]);
    }
  }

  lemma {:induction false} MergeSameIds(nodes: seq<Tree>, at: Path, p: Patch, source: string)
    ensures SameIds(nodes, MergeAt(nodes, at, p, source))
    decreases at
  {
    SameIdsRefl(nodes);
    if |at| > 1 && at[0] < |nodes| { MergeSameIds(nodes[at[0]].kids, at[1..], p, source); }
  }

  lemma {:induction false} InsertAllIndexed(s: State, strict: bool, source: string, target: Path,
      entries: seq<Option<Patch>>)
    ensures var r := InsertAll(s, strict, source, target, entries);
      r.Ok? && !r.value.1 ==> r.value.0.nodes == s.nodes && r.value.0.index == s.index
  {
    if entries != [] { InsertAllIndexed(s, strict, source, target, entries[..|entries| - 1]); }
  }

  lemma {:induction false} ApplyPatchIndexed(s: State, strict: bool, source: string, target: Path, entry: Option<Patch>)
    requires Indexed(s)
    ensures ApplyPatch(s, strict, source, target, entry).Ok? ==>
      Indexed(ApplyPatch(s, strict, source, target, entry).value)
    decreases entry, 1
  {
    if entry.Some? {
      var p := entry.value;
      if p.insert != [] {
        InsertAllIndexed(s, strict, source, target, p.insert);
      } else if p.id != "" && p.id in s.index {
        var at := s.index[p.id];
        MergeSameIds(s.nodes, at, p, source);
        SameIndex(map[], s.nodes, MergeAt(s.nodes, at, p, source), []);
        ApplyPatchesIndexed(s.(nodes := MergeAt(s.nodes, at, p, source), hits := s.hits + [Hit(at, source, p)]), strict,
            source, at, p.plugins);
      }
    }
  }

  lemma {:induction false} ApplyPatchesIndexed(s: State, strict: bool, source: string, target: Path,
      entries: seq<Option<Patch>>)
    requires Indexed(s)
    ensures ApplyPatches(s, strict, source, target, entries).Ok? ==>
      Indexed(ApplyPatches(s, strict, source, target, entries).value)
    decreases entries, 0
  {
    if entries != [] {
      var front := entries[..|entries| - 1];
      ApplyPatchesIndexed(s, strict, source, target, front);
      if ApplyPatches(s, strict, source, target, front).Ok? {
        ApplyPatchIndexed(ApplyPatches(s, strict, source, target, front).value, strict, source, target,
            entries[|entries| - 1]);
      }
    }
  }

  /** After every applied entry of every layer the index agrees with depth-first search. */
  lemma EntryIndexed(s: State, strict: bool, layer: Layer, entry: Option<Patch>)
    requires Indexed(s)
    ensures ApplyEntry(s, strict, layer, entry).Ok? ==> Indexed(ApplyEntry(s, strict, layer, entry).value)
  {
    if layer.patch { ApplyPatchIndexed(s, strict, layer.title, [], entry); }
    else if entry.Some? {
      AddRootsIndexed(s, strict, layer.title, if entry.value.insert == [] then [entry] else entry.value.insert);
    }
  }

  lemma {:induction false} EntriesIndexed(s: State, strict: bool, layer: Layer, entries: seq<Option<Patch>>)
    requires Indexed(s)
    ensures ApplyEntries(s, strict, layer, entries).Ok? ==> Indexed(ApplyEntries(s, strict, layer, entries).value)
  {
    if entries != [] {
      var front := entries[..|entries| - 1];
      EntriesIndexed(s, strict, layer, front);
      if ApplyEntries(s, strict, layer, front).Ok? {
        EntryIndexed(ApplyEntries(s, strict, layer, front).value, strict, layer, entries[|entries| - 1]);
      }
    }
  }

  lemma {:induction false} LayersIndexed(layers: seq<Layer>, strict: bool)
    ensures ApplyLayers(layers, strict).Ok? ==> Indexed(ApplyLayers(layers, strict).value)
  {
    if layers != [] {
      var front, last := layers[..|layers| - 1], layers[|layers| - 1];
      LayersIndexed(front, strict);
      if ApplyLayers(front, strict).Ok? {
        EntriesIndexed(ApplyLayers(front, strict).value, strict, last, last.entries);
      }
    }
  }

  lemma {:induction false} CheckNodeKeeps(s: State, strict: bool, t: Tree)
    ensures CheckNode(s, strict, t).Ok? ==>
      CheckNode(s, strict, t).value == s.(warnings := CheckNode(s, strict, t).value.warnings)
    decreases t, 1
  {
    CheckAllKeeps(s, strict, t.kids);
    CheckAllKeeps(s.(warnings := s.warnings + [StrayKids(t.data)]), strict, t.kids);
  }

  lemma {:induction false} CheckAllKeeps(s: State, strict: bool, nodes: seq<Tree>)
    ensures CheckAll(s, strict, nodes).Ok? ==>
      CheckAll(s, strict, nodes).value == s.(warnings := CheckAll(s, strict, nodes).value.warnings)
    decreases nodes, 0
  {
    if nodes != [] {
      var k := |nodes| - 1;
      CheckAllKeeps(s, strict, nodes[..k]);
      if CheckAll(s, strict, nodes[..k]).Ok? {
        CheckNodeKeeps(CheckAll(s, strict, nodes[..k]).value, strict, nodes[k]);
      }
    }
  }

  /** The index of a composed tree: its domain is exactly the non-empty ids of the forest, and each id leads
      to the very node `Find` returns. */
  lemma IndexIsFind(layers: seq<Layer>, strict: bool, id: string)
    requires Compose(layers, strict).Ok?
    ensures var s := Compose(layers, strict).value;
      && (id in s.index <==> id != "" && Find(s.nodes, id).Some?)
      && (id in s.index ==> Find(s.nodes, id) == Some(s.index[id]))
  {
    LayersIndexed(layers, strict);
    var s := ApplyLayers(layers, strict).value;
    CheckAllKeeps(s, strict, s.nodes);
    RebuiltFinds(s.nodes, id);
  }

  // ----- strict mode refines warning mode -----

  /** The strict run succeeds exactly if the other one succeeds without a new warning, with the same state. */
  ghost predicate Refines(strict: Result<State>, loose: Result<State>, s: State) {
    forall r :: (strict == Ok(r) <==> loose == Ok(r) && r.warnings == s.warnings)
        && (loose == Ok(r) ==> s.warnings <= r.warnings)
  }

  lemma {:induction false} IndexNodeStrict(s: State, t: Tree, at: Path)
    ensures Refines(IndexNode(s, true, t, at), IndexNode(s, false, t, at), s)
    decreases t, 1
  {
    var id := t.data.id;
    if id == "" { IndexAllStrict(s, t.kids, at); }
    else if id in s.index { IndexAllStrict(s.(warnings := s.warnings + [Repeated(t.data.source, id)]), t.kids, at); }
    else { IndexAllStrict(s.(index := s.index[id := at]), t.kids, at); }
  }

  lemma {:induction false} IndexAllStrict(s: State, nodes: seq<Tree>, at: Path)
    ensures Refines(IndexAll(s, true, nodes, at), IndexAll(s, false, nodes, at), s)
    decreases nodes, 0
  {
    if nodes != [] {
      var k := |nodes| - 1;
      IndexAllStrict(s, nodes[..k], at);
      var mid := IndexAll(s, false, nodes[..k], at);
      if mid.Ok? { IndexNodeStrict(mid.value, nodes[k], at + [k]); }
    }
  }

  lemma AddRootStrict(s: State, source: string, entry: Option<Patch>)
    ensures Refines(AddRoot(s, true, source, entry), AddRoot(s, false, source, entry), s)
  {
    if entry.Some? && CreateNode(entry.value, source).Ok? {
      var t := CreateNode(entry.value, source).value;
      IndexNodeStrict(s.(nodes := s.nodes + [t]), t, [|s.nodes|]);
    }
  }

  lemma {:induction false} AddRootsStrict(s: State, source: string, entries: seq<Option<Patch>>)
    ensures Refines(AddRoots(s, true, source, entries), AddRoots(s, false, source, entries), s)
  {
    if entries != [] {
      var front := entries[..|entries| - 1];
      AddRootsStrict(s, source, front);
      var mid := AddRoots(s, false, source, front);
      if mid.Ok? { AddRootStrict(mid.value, source, entries[|entries| - 1]); }
    }
  }

  ghost predicate RefinesPair(strict: Result<(State, bool)>, loose: Result<(State, bool)>, s: State) {
    forall r :: (strict == Ok(r) <==> loose == Ok(r) && r.0.warnings == s.warnings)
        && (loose == Ok(r) ==> s.warnings <= r.0.warnings)
  }

  lemma InsertOneStrict(s: State, source: string, target: Path, entry: Option<Patch>)
    ensures RefinesPair(InsertOne(s, true, source, target, entry), InsertOne(s, false, source, target, entry), s)
  {
    if entry.Some? && !(entry.value.id != "" && entry.value.id in s.index) && CreateNode(entry.value, source).Ok? {
      var t := CreateNode(entry.value, source).value;
      IndexNodeStrict(s.(nodes := AppendAt(s.nodes, target, t)), t, target + [|KidsAt(s.nodes, target)|]);
    }
  }

  lemma {:induction false} InsertAllStrict(s: State, source: string, target: Path, entries: seq<Option<Patch>>)
    ensures RefinesPair(InsertAll(s, true, source, target, entries), InsertAll(s, false, source, target, entries), s)
  {
    if entries != [] {
      var front := entries[..|entries| - 1];
      InsertAllStrict(s, source, target, front);
      var mid := InsertAll(s, false, source, target, front);
      if mid.Ok? { InsertOneStrict(mid.value.0, source, target, entries[|entries| - 1]); }
    }
  }

  lemma {:induction false} ApplyPatchStrict(s: State, source: string, target: Path, entry: Option<Patch>)
    ensures Refines(ApplyPatch(s, true, source, target, entry), ApplyPatch(s, false, source, target, entry), s)
    decreases entry, 1
  {
    if entry.Some? {
      var p := entry.value;
      if p.insert != [] {
        InsertAllStrict(s, source, target, p.insert);
      } else if p.id != "" && p.id in s.index {
        var at := s.index[p.id];
        ApplyPatchesStrict(s.(nodes := MergeAt(s.nodes, at, p, source), hits := s.hits + [Hit(at, source, p)]), source,
            at, p.plugins);
      }
    }
  }

  lemma {:induction false} ApplyPatchesStrict(s: State, source: string, target: Path, entries: seq<Option<Patch>>)
    ensures Refines(ApplyPatches(s, true, source, target, entries), ApplyPatches(s, false, source, target, entries), s)
    decreases entries, 0
  {
    if entries != [] {
      var front := entries[..|entries| - 1];
      ApplyPatchesStrict(s, source, target, front);
      var mid := ApplyPatches(s, false, source, target, front);
      if mid.Ok? { ApplyPatchStrict(mid.value, source, target, entries[|entries| - 1]); }
    }
  }

  lemma {:induction false} ApplyEntriesStrict(s: State, layer: Layer, entries: seq<Option<Patch>>)
    ensures Refines(ApplyEntries(s, true, layer, entries), ApplyEntries(s, false, layer, entries), s)
  {
    if entries != [] {
      var front, last := entries[..|entries| - 1], entries[|entries| - 1];
      ApplyEntriesStrict(s, layer, front);
      var mid := ApplyEntries(s, false, layer, front);
      if mid.Ok? {
        if layer.patch { ApplyPatchStrict(mid.value, layer.title, [], last); }
        else if last.Some? {
          AddRootsStrict(mid.value, layer.title, if last.value.insert == [] then [last] else last.value.insert);
        }
      }
    }
  }

  lemma {:induction false} ApplyLayersStrict(layers: seq<Layer>)
    ensures Refines(ApplyLayers(layers, true), ApplyLayers(layers, false), EMPTY)
  {
    if layers != [] {
      var front, last := layers[..|layers| - 1], layers[|layers| - 1];
      ApplyLayersStrict(front);
      var mid := ApplyLayers(front, false);
      if mid.Ok? { ApplyEntriesStrict(mid.value, last, last.entries); }
    }
  }

  lemma {:induction false} CheckNodeStrict(s: State, t: Tree)
    ensures Refines(CheckNode(s, true, t), CheckNode(s, false, t), s)
    decreases t, 1
  {
    CheckAllStrict(s, t.kids);
    CheckAllStrict(s.(warnings := s.warnings + [StrayKids(t.data)]), t.kids);
  }

  lemma {:induction false} CheckAllStrict(s: State, nodes: seq<Tree>)
    ensures Refines(CheckAll(s, true, nodes), CheckAll(s, false, nodes), s)
    decreases nodes, 0
  {
    if nodes != [] {
      var k := |nodes| - 1;
      CheckAllStrict(s, nodes[..k]);
      var mid := CheckAll(s, false, nodes[..k]);
      if mid.Ok? { CheckNodeStrict(mid.value, nodes[k]); }
    }
  }

  /** For all layers, strict composition succeeds exactly if the other one succeeds with no warnings, and then
      both give the same tree and index. */
  lemma StrictRefines(layers: seq<Layer>)
    ensures Compose(layers, true).Ok? <==> Compose(layers, false).Ok? && Compose(layers, false).value.warnings == []
    ensures Compose(layers, true).Ok? ==> Compose(layers, true) == Compose(layers, false)
  {
    ApplyLayersStrict(layers);
    var mid := ApplyLayers(layers, false);
    if mid.Ok? { CheckAllStrict(mid.value, mid.value.nodes); }
  }
}
