/** Where the nodes of a composed tree come from (loader/loader.go): each was declared by one entry of one layer,
    and holds what that entry says, overridden by the patches that hit the node, in order. */
module Provenance {
  import opened Options
  import opened Layers
  import opened Composition
  import opened Conservation

  // ----- replaying hits -----

  /** The hits on one node, replayed in order. */
  function Replay(d: Data, hits: seq<Hit>, at: Path): Data {
    if hits == [] then d
    else
      var before, last := Replay(d, hits[..|hits| - 1], at), hits[|hits| - 1];
      if last.at == at then Merge(before, last.patch, last.source) else before
  }

  lemma ReplayMore(d: Data, hits: seq<Hit>, h: Hit, at: Path)
    ensures Replay(d, hits + [h], at) == if h.at == at then Merge(Replay(d, hits, at), h.patch, h.source)
      else Replay(d, hits, at)
  {
    assert (hits + [h])[..|hits|] == hits;
  }

  lemma {:induction false} ReplayMisses(d: Data, hits: seq<Hit>, at: Path)
    requires forall i :: 0 <= i < |hits| ==> hits[i].at != at
    ensures Replay(d, hits, at) == d
  {
    if hits != [] { ReplayMisses(d, hits[..|hits| - 1], at); }
  }

  /** Every hit is on a node that carries the id of its patch. */
  predicate HitsAddress(nodes: seq<Tree>, hits: seq<Hit>) {
    forall i :: 0 <= i < |hits| ==>
        At(nodes, hits[i].at).Some? && At(nodes, hits[i].at).value.data.id == hits[i].patch.id
  }

  // ----- the forest as it was created -----

  /** `born` has the nodes of the state in the same places, as they were created; replaying the hits on them
      gives what they hold now. */
  ghost predicate Tracked(s: State, born: seq<Tree>) {
    && SameIds(born, s.nodes) && HitsAddress(s.nodes, s.hits)
    && forall p :: At(s.nodes, p).Some? ==>
         At(born, p).Some? && At(s.nodes, p).value.data == Replay(At(born, p).value.data, s.hits, p)
  }

  /** What was born is still there. */
  ghost predicate Extends(born: seq<Tree>, born': seq<Tree>) {
    forall p :: At(born, p).Some? ==> At(born', p).Some? && At(born', p).value.data == At(born, p).value.data
  }

  /** On the way from `s` to `s'` exactly the declared nodes were born, except those a new warning accounts for. */
  ghost predicate Follows(s: State, born: seq<Tree>, s': State, born': seq<Tree>, declared: multiset<Data>) {
    && Tracked(s', born') && Extends(born, born') && s.hits <= s'.hits
    && Nodes(born') + Lost(s'.warnings) == Nodes(born) + Lost(s.warnings) + declared
  }

  /** The same for what a step of the composer returns: an error promises nothing. */
  ghost predicate Tracks(s: State, born: seq<Tree>, r: Result<State>, born': seq<Tree>, declared: multiset<Data>) {
    forall s' :: r == Ok(s') ==> Follows(s, born, s', born', declared)
  }

  /** And for what an insertion returns. */
  ghost predicate TracksPair(s: State, born: seq<Tree>, r: Result<(State, bool)>, born': seq<Tree>,
      declared: multiset<Data>) {
    forall s' :: r.Ok? && r.value.0 == s' ==> Follows(s, born, s', born', declared)
  }

  lemma FollowsRefl(s: State, born: seq<Tree>)
    requires Tracked(s, born)
    ensures Follows(s, born, s, born, multiset{})
  {}

  lemma FollowsTrans(a: State, x: seq<Tree>, b: State, y: seq<Tree>, d: multiset<Data>, c: State, z: seq<Tree>,
      e: multiset<Data>)
    requires Follows(a, x, b, y, d) && Follows(b, y, c, z, e)
    ensures Follows(a, x, c, z, d + e)
  {
    hide Tracked, Replay;
    assert Nodes(y) + Lost(b.warnings) + e == Nodes(x) + Lost(a.warnings) + (d + e);
  }

  lemma {:induction false} AppendData(nodes: seq<Tree>, target: Path, t: Tree, p: Path)
    requires At(nodes, p).Some?
    ensures At(AppendAt(nodes, target, t), p).Some?
    ensures At(AppendAt(nodes, target, t), p).value.data == At(nodes, p).value.data
    decreases target
  {
    if target != [] && target[0] < |nodes| && |p| > 1 && p[0] == target[0] {
      AppendData(nodes[p[0]].kids, target[1..], t, p[1..]);
    }
  }

  lemma {:induction false} AppendNew(a: seq<Tree>, b: seq<Tree>, target: Path, t: Tree, p: Path)
    requires SameIds(a, b) && At(a, p).None? && At(AppendAt(a, target, t), p).Some?
    ensures At(AppendAt(b, target, t), p).Some?
    ensures At(AppendAt(b, target, t), p).value.data == At(AppendAt(a, target, t), p).value.data
    decreases target
  {
    if target != [] && target[0] < |a| && |p| > 1 && p[0] == target[0] {
      AppendNew(a[p[0]].kids, b[p[0]].kids, target[1..], t, p[1..]);
    }
  }

  lemma {:induction false} AppendSameIds(a: seq<Tree>, b: seq<Tree>, target: Path, t: Tree)
    requires SameIds(a, b)
    ensures SameIds(AppendAt(a, target, t), AppendAt(b, target, t))
    decreases target
  {
    SameIdsRefl([t]);
    if target != [] && target[0] < |a| { AppendSameIds(a[target[0]].kids, b[target[0]].kids, target[1..], t); }
  }

  lemma {:induction false} SameIdsTrans(a: seq<Tree>, b: seq<Tree>, c: seq<Tree>)
    requires SameIds(a, b) && SameIds(b, c)
    ensures SameIds(a, c)
    decreases a
  {
    forall i | 0 <= i < |a| ensures SameIds(a[i].kids, c[i].kids) { SameIdsTrans(a[i].kids, b[i].kids, c[i].kids); }
  }

  lemma {:induction false} SameIdsAt(a: seq<Tree>, b: seq<Tree>, p: Path)
    requires SameIds(a, b)
    ensures At(a, p).Some? <==> At(b, p).Some?
    ensures At(a, p).Some? ==> At(a, p).value.data.id == At(b, p).value.data.id
    decreases p
  {
    if |p| > 1 && p[0] < |a| { SameIdsAt(a[p[0]].kids, b[p[0]].kids, p[1..]); }
  }

  /** A created tree joins both forests. */
  lemma Joins(s: State, born: seq<Tree>, s': State, target: Path, t: Tree)
    requires Tracked(s, born) && Target(s.nodes, target)
    requires s'.nodes == AppendAt(s.nodes, target, t) && s'.hits == s.hits && Lost(s'.warnings) == Lost(s.warnings)
    ensures Follows(s, born, s', AppendAt(born, target, t), NodesIn(t))
  {
    hide Replay, Lost, Nodes, NodesIn, SameIds;
    var born' := AppendAt(born, target, t);
    AppendSameIds(born, s.nodes, target, t);
    if target != [] { SameIdsAt(born, s.nodes, target); }
    AppendNodes(born, target, t);
    forall i | 0 <= i < |s.hits|
      ensures At(s'.nodes, s.hits[i].at).Some? && At(s'.nodes, s.hits[i].at).value.data.id == s.hits[i].patch.id
    {
      AppendData(s.nodes, target, t, s.hits[i].at);
    }
    forall p | At(born, p).Some? ensures At(born', p).Some? && At(born', p).value.data == At(born, p).value.data {
      AppendData(born, target, t, p);
    }
    forall p | At(s'.nodes, p).Some?
      ensures At(born', p).Some? && At(s'.nodes, p).value.data == Replay(At(born', p).value.data, s.hits, p)
    {
      JoinsAt(s, born, target, t, p);
    }
  }

  lemma JoinsAt(s: State, born: seq<Tree>, target: Path, t: Tree, p: Path)
    requires Tracked(s, born) && At(AppendAt(s.nodes, target, t), p).Some?
    ensures At(AppendAt(born, target, t), p).Some?
    ensures At(AppendAt(s.nodes, target, t), p).value.data == Replay(At(AppendAt(born, target, t), p).value.data,
      s.hits, p)
  {
    hide Replay, SameIds;
    if At(s.nodes, p).Some? {
      AppendData(s.nodes, target, t, p);
      AppendData(born, target, t, p);
    } else {
      assert SameIds(s.nodes, born) by { SameIdsSym(born, s.nodes); }
      AppendNew(s.nodes, born, target, t, p);
      ReplayMisses(At(AppendAt(born, target, t), p).value.data, s.hits, p);
    }
  }

  lemma {:induction false} SameIdsSym(a: seq<Tree>, b: seq<Tree>)
    requires SameIds(a, b)
    ensures SameIds(b, a)
    decreases a
  {
    forall i | 0 <= i < |a| ensures SameIds(b[i].kids, a[i].kids) { SameIdsSym(a[i].kids, b[i].kids); }
  }

  lemma {:induction false} MergeData(nodes: seq<Tree>, at: Path, patch: Patch, source: string, p: Path)
    requires At(nodes, p).Some?
    ensures At(MergeAt(nodes, at, patch, source), p).Some?
    ensures At(MergeAt(nodes, at, patch, source), p).value.data
      == if p == at then Merge(At(nodes, p).value.data, patch, source) else At(nodes, p).value.data
    decreases at
  {
    if at != [] && at[0] < |nodes| && |at| > 1 && |p| > 1 && p[0] == at[0] {
      MergeData(nodes[p[0]].kids, at[1..], patch, source, p[1..]);
      assert p == [p[0]] + p[1..] && at == [at[0]] + at[1..];
    }
  }

  /** One hit. */
  lemma Hits(s: State, born: seq<Tree>, at: Path, patch: Patch, source: string)
    requires Tracked(s, born) && At(s.nodes, at).Some? && At(s.nodes, at).value.data.id == patch.id
    ensures var s' := s.(nodes := MergeAt(s.nodes, at, patch, source), hits := s.hits + [Hit(at, source, patch)]);
      Follows(s, born, s', born, multiset{})
  {
    hide Replay, Lost, Nodes, SameIds;
    var h := Hit(at, source, patch);
    var s' := s.(nodes := MergeAt(s.nodes, at, patch, source), hits := s.hits + [h]);
    MergeSameIds(s.nodes, at, patch, source);
    SameIdsTrans(born, s.nodes, s'.nodes);
    forall i | 0 <= i < |s'.hits|
      ensures At(s'.nodes, s'.hits[i].at).Some? && At(s'.nodes, s'.hits[i].at).value.data.id == s'.hits[i].patch.id
    {
      MergeData(s.nodes, at, patch, source, s'.hits[i].at);
    }
    forall p | At(s'.nodes, p).Some?
      ensures At(born, p).Some? && At(s'.nodes, p).value.data == Replay(At(born, p).value.data, s'.hits, p)
    {
      SameIdsAt(s.nodes, s'.nodes, p);
      MergeData(s.nodes, at, patch, source, p);
      ReplayMore(At(born, p).value.data, s.hits, h, p);
    }
  }

  // ----- what the composer does -----

  lemma AddRootTracked(s: State, born: seq<Tree>, strict: bool, source: string,
      entry: Option<Patch>) returns (born': seq<Tree>)
    requires Tracked(s, born)
    ensures Tracks(s, born, AddRoot(s, strict, source, entry), born', DeclaresOne(entry, source))
  {
    hide Tracked, Follows;
    born' := born;
    FollowsRefl(s, born);
    if entry.Some? && CreateNode(entry.value, source).Ok? {
      var t := CreateNode(entry.value, source).value;
      var mid := s.(nodes := s.nodes + [t]);
      CreateDeclares(entry.value, source);
      IndexNodeAdds(mid, strict, t, [|s.nodes|]);
      IndexNodeLost(mid, strict, t, [|s.nodes|]);
      var r := AddRoot(s, strict, source, entry);
      if r.Ok? {
        born' := AppendAt(born, [], t);
        Joins(s, born, r.value, [], t);
      }
    }
  }

  lemma {:induction false} AddRootsTracked(s: State, born: seq<Tree>, strict: bool, source: string,
      entries: seq<Option<Patch>>)
    returns (born': seq<Tree>)
    requires Tracked(s, born)
    ensures Tracks(s, born, AddRoots(s, strict, source, entries), born', DeclaresAll(entries, source))
  {
    hide Tracked, Follows;
    born' := born;
    FollowsRefl(s, born);
    if entries != [] {
      var front, last := entries[..|entries| - 1], entries[|entries| - 1];
      var mid := AddRootsTracked(s, born, strict, source, front);
      var m, r := AddRoots(s, strict, source, front), AddRoots(s, strict, source, entries);
      if r.Ok? {
        FollowsKnown(s, born, m.value, mid, DeclaresAll(front, source));
        born' := AddRootTracked(m.value, mid, strict, source, last);
        FollowsTrans(s, born, m.value, mid, DeclaresAll(front, source), r.value, born', DeclaresOne(last, source));
      }
    }
  }

  lemma FollowsKnown(s: State, born: seq<Tree>, s': State, born': seq<Tree>, declared: multiset<Data>)
    requires Follows(s, born, s', born', declared)
    ensures Tracked(s', born')
  {}

  lemma Warns(s: State, born: seq<Tree>, w: Warning)
    requires Tracked(s, born)
    ensures Follows(s, born, s.(warnings := s.warnings + [w]), born, LostBy(w))
  {
    LostMore(s.warnings, w);
  }

  lemma InsertOneTracked(s: State, born: seq<Tree>, strict: bool, source: string, target: Path, entry: Option<Patch>)
    returns (born': seq<Tree>)
    requires Tracked(s, born) && Target(s.nodes, target)
    ensures TracksPair(s, born, InsertOne(s, strict, source, target, entry), born', DeclaresOne(entry, source))
  {
    hide Tracked, Follows;
    born' := born;
    FollowsRefl(s, born);
    if entry.Some? {
      if entry.value.id != "" && entry.value.id in s.index {
        Warns(s, born, Skipped(source, entry.value));
      } else if CreateNode(entry.value, source).Ok? {
        var t := CreateNode(entry.value, source).value;
        var mid, at := s.(nodes := AppendAt(s.nodes, target, t)), target + [|KidsAt(s.nodes, target)|];
        CreateDeclares(entry.value, source);
        IndexNodeAdds(mid, strict, t, at);
        IndexNodeLost(mid, strict, t, at);
        var r := InsertOne(s, strict, source, target, entry);
        if r.Ok? {
          born' := AppendAt(born, target, t);
          Joins(s, born, r.value.0, target, t);
        }
      }
    }
  }

  lemma {:induction false} InsertAllTracked(s: State, born: seq<Tree>, strict: bool, source: string, target: Path,
      entries: seq<Option<Patch>>)
    returns (born': seq<Tree>)
    requires Tracked(s, born) && Target(s.nodes, target)
    ensures TracksPair(s, born, InsertAll(s, strict, source, target, entries), born', DeclaresAll(entries, source))
  {
    hide Tracked, Follows;
    born' := born;
    FollowsRefl(s, born);
    if entries != [] {
      var front, last := entries[..|entries| - 1], entries[|entries| - 1];
      var mid := InsertAllTracked(s, born, strict, source, target, front);
      var m, r := InsertAll(s, strict, source, target, front), InsertAll(s, strict, source, target, entries);
      if r.Ok? {
        FollowsKnown(s, born, m.value.0, mid, DeclaresAll(front, source));
        InsertAllGrown(s, strict, source, target, front);
        TargetKept(s.nodes, m.value.0.nodes, target);
        born' := InsertOneTracked(m.value.0, mid, strict, source, target, last);
        FollowsTrans(s, born, m.value.0, mid, DeclaresAll(front, source), r.value.0, born', DeclaresOne(last, source));
      }
    }
  }

  lemma Reindexes(s: State, born: seq<Tree>, s': State, born': seq<Tree>, declared: multiset<Data>, any: bool)
    requires Follows(s, born, s', born', declared)
    ensures Follows(s, born, Reindexed(s', any), born', declared)
  {
    hide Replay, SameIds;
  }

  lemma {:induction false} ApplyPatchTracked(s: State, born: seq<Tree>, strict: bool, source: string, target: Path,
      entry: Option<Patch>)
    returns (born': seq<Tree>)
    requires Tracked(s, born) && Target(s.nodes, target) && Indexed(s)
    ensures Tracks(s, born, ApplyPatch(s, strict, source, target, entry), born', Inserts(entry, source))
    decreases entry, 1
  {
    hide Tracked, Follows, Reindexed;
    born' := born;
    FollowsRefl(s, born);
    if entry.Some? {
      var p := entry.value;
      if p.insert != [] {
        born' := InsertAllTracked(s, born, strict, source, target, p.insert);
        var r := InsertAll(s, strict, source, target, p.insert);
        if r.Ok? { Reindexes(s, born, r.value.0, born', DeclaresAll(p.insert, source), r.value.1); }
      } else if p.id != "" && p.id in s.index {
        var at := s.index[p.id];
        var s' := s.(nodes := MergeAt(s.nodes, at, p, source), hits := s.hits + [Hit(at, source, p)]);
        IndexedTarget(s, p.id);
        Hits(s, born, at, p, source);
        FollowsKnown(s, born, s', born, multiset{});
        MergeSameIds(s.nodes, at, p, source);
        SameIndex(map[], s.nodes, s'.nodes, []);
        MergeGrown(s.nodes, at, p, source);
        TargetKept(s.nodes, s'.nodes, at);
        born' := ApplyPatchesTracked(s', born, strict, source, at, p.plugins);
        var r := ApplyPatches(s', strict, source, at, p.plugins);
        if r.Ok? {
          FollowsTrans(s, born, s', born, multiset{}, r.value, born', InsertsAll(p.plugins, source));
          assert multiset{} + InsertsAll(p.plugins, source) == InsertsAll(p.plugins, source);
        }
      } else if p.id != "" {
        Warns(s, born, Unmatched(source, p));
      }
    }
  }

  lemma {:induction false} ApplyPatchesTracked(s: State, born: seq<Tree>, strict: bool, source: string, target: Path,
      entries: seq<Option<Patch>>)
    returns (born': seq<Tree>)
    requires Tracked(s, born) && Target(s.nodes, target) && Indexed(s)
    ensures Tracks(s, born, ApplyPatches(s, strict, source, target, entries), born', InsertsAll(entries, source))
    decreases entries, 0
  {
    hide Tracked, Follows;
    born' := born;
    FollowsRefl(s, born);
    if entries != [] {
      var front, last := entries[..|entries| - 1], entries[|entries| - 1];
      var mid := ApplyPatchesTracked(s, born, strict, source, target, front);
      var m, r := ApplyPatches(s, strict, source, target, front), ApplyPatches(s, strict, source, target, entries);
      if r.Ok? {
        FollowsKnown(s, born, m.value, mid, InsertsAll(front, source));
        ApplyPatchesGrown(s, strict, source, target, front);
        ApplyPatchesIndexed(s, strict, source, target, front);
        TargetKept(s.nodes, m.value.nodes, target);
        born' := ApplyPatchTracked(m.value, mid, strict, source, target, last);
        FollowsTrans(s, born, m.value, mid, InsertsAll(front, source), r.value, born', Inserts(last, source));
      }
    }
  }

  lemma {:induction false} EntriesTracked(s: State, born: seq<Tree>, strict: bool, layer: Layer,
      entries: seq<Option<Patch>>)
    returns (born': seq<Tree>)
    requires Tracked(s, born) && Indexed(s)
    ensures Tracks(s, born, ApplyEntries(s, strict, layer, entries), born', DeclaredAll(layer, entries))
  {
    hide Tracked, Follows;
    born' := born;
    FollowsRefl(s, born);
    if entries != [] {
      var front, last := entries[..|entries| - 1], entries[|entries| - 1];
      var mid := EntriesTracked(s, born, strict, layer, front);
      var m, r := ApplyEntries(s, strict, layer, front), ApplyEntries(s, strict, layer, entries);
      if r.Ok? {
        FollowsKnown(s, born, m.value, mid, DeclaredAll(layer, front));
        EntriesIndexed(s, strict, layer, front);
        FollowsRefl(m.value, mid);
        born' := mid;
        if layer.patch { born' := ApplyPatchTracked(m.value, mid, strict, layer.title, [], last); }
        else if last.Some? { born' := AddRootsTracked(m.value, mid, strict, layer.title, BaseEntries(last)); }
        FollowsTrans(s, born, m.value, mid, DeclaredAll(layer, front), r.value, born', DeclaredIn(layer, last));
      }
    }
  }

  lemma {:induction false} LayersTracked(layers: seq<Layer>, strict: bool) returns (born: seq<Tree>)
    ensures Tracks(EMPTY, [], ApplyLayers(layers, strict), born, DeclaredBy(layers))
  {
    hide Follows;
    born := [];
    FollowsRefl(EMPTY, []);
    if layers != [] {
      var front, last := layers[..|layers| - 1], layers[|layers| - 1];
      var mid := LayersTracked(front, strict);
      LayersIndexed(front, strict);
      var m, r := ApplyLayers(front, strict), ApplyLayers(layers, strict);
      if r.Ok? {
        FollowsKnown(EMPTY, [], m.value, mid, DeclaredBy(front));
        born := EntriesTracked(m.value, mid, strict, last, last.entries);
        FollowsTrans(EMPTY, [], m.value, mid, DeclaredBy(front), r.value, born, DeclaredAll(last, last.entries));
      }
    }
  }

  /** Composition loses nothing and makes nothing up. There is a forest of nodes as they were declared, node for
      node in the places of the composed one: together with what skipped and unmatched entries would have
      declared, it holds exactly what the layers declare, each entry with its fields and its layer; and what a
      composed node holds now is what it was declared with, overridden by the patches that hit it. */
  lemma NothingLost(layers: seq<Layer>, strict: bool) returns (born: seq<Tree>)
    requires Compose(layers, strict).Ok?
    ensures var s := Compose(layers, strict).value;
      && Nodes(born) + Lost(s.warnings) == DeclaredBy(layers)
      && SameIds(born, s.nodes)
      && forall p :: At(s.nodes, p).Some? ==>
           At(born, p).Some? && At(s.nodes, p).value.data == Replay(At(born, p).value.data, s.hits, p)
  {
    born := LayersTracked(layers, strict);
    var s := ApplyLayers(layers, strict).value;
    CheckAllKeeps(s, strict, s.nodes);
    CheckAllLost(s, strict, s.nodes);
    assert Lost(EMPTY.warnings) == multiset{} && Nodes([]) == multiset{};
  }
}
