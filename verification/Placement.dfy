/** Where a new node goes (loader/loader.go): the children of every node, and the roots, can be read off the layers
    in order. An insertion extends the children of the node that the patch around it addresses, and the roots only
    at the top of a layer. */
module Placement {
  import opened Options
  import opened Layers
  import opened Composition
  import opened Conservation
  import opened LastWriter

  // ----- the children of a node -----

  /** Who a node is, whatever patches make of it. */
  datatype Tag = Tag(id: string, source: string)

  function TagOf(t: Tree): Tag {
    Tag(t.data.id, t.data.source)
  }

  function Tags(nodes: seq<Tree>): (tags: seq<Tag>)
    ensures |tags| == |nodes| && forall i :: 0 <= i < |nodes| ==> tags[i] == TagOf(nodes[i])
  {
    if nodes == [] then [] else Tags(nodes[..|nodes| - 1]) + [TagOf(nodes[|nodes| - 1])]
  }

  lemma TagsSame(a: seq<Tree>, b: seq<Tree>)
    requires |a| == |b| && forall i :: 0 <= i < |a| ==> TagOf(a[i]) == TagOf(b[i])
    ensures Tags(a) == Tags(b)
  {}

  lemma {:induction false} AppendedKids(nodes: seq<Tree>, target: Path, t: Tree, q: Path)
    requires Target(nodes, target) && Target(nodes, q)
    ensures Tags(KidsAt(AppendAt(nodes, target, t), q)) ==
      Tags(KidsAt(nodes, q)) + (if q == target then [TagOf(t)] else [])
    decreases target
  {
    var now := AppendAt(nodes, target, t);
    if target != [] && q != [] && target[0] == q[0] {
      assert target[0] < |nodes|;
      AppendedKids(nodes[q[0]].kids, target[1..], t, q[1..]);
      assert q == target <==> q[1..] == target[1..];
    } else if q == [] {
      if target == [] { assert now[..|nodes|] == nodes; } else { TagsSame(nodes, now); }
    }
  }

  lemma {:induction false} MergedKids(nodes: seq<Tree>, at: Path, p: Patch, source: string, q: Path)
    ensures Tags(KidsAt(MergeAt(nodes, at, p, source), q)) == Tags(KidsAt(nodes, q))
    decreases at
  {
    if at != [] && at[0] < |nodes| {
      if q == [] { TagsSame(nodes, MergeAt(nodes, at, p, source)); }
      else if q[0] == at[0] && |at| > 1 { MergedKids(nodes[at[0]].kids, at[1..], p, source, q[1..]); }
    }
  }

  // ----- reading the layers -----

  /** The inserted entries that go in: an entry whose own id is taken is skipped. */
  function Entering(known: set<string>, source: string, entries: seq<Option<Patch>>): seq<Tag> {
    if entries == [] then []
    else
      var front, last := entries[..|entries| - 1], entries[|entries| - 1];
      Entering(known, source, front) +
      (if last.Some? && (last.value.id == "" || last.value.id !in KnownAll(known, source, front))
       then [Tag(last.value.id, source)] else [])
  }

  /** What an entry inserts below the node `x`, or as roots if `x` is None: `under` is the id of the patch around
      the entry, None at the top of a layer. */
  function Placed(x: Option<string>, under: Option<string>, known: set<string>, source: string,
      entry: Option<Patch>): seq<Tag>
    decreases entry, 1
  {
    if entry.None? then []
    else if entry.value.insert != [] then if under == x then Entering(known, source, entry.value.insert) else []
    else if entry.value.id !in known then []
    else PlacedAll(x, Some(entry.value.id), known, source, entry.value.plugins)
  }

  function PlacedAll(x: Option<string>, under: Option<string>, known: set<string>, source: string,
      entries: seq<Option<Patch>>): seq<Tag>
    decreases entries, 0
  {
    if entries == [] then []
    else
      var front := entries[..|entries| - 1];
      PlacedAll(x, under, known, source, front) +
      Placed(x, under, KnownPatches(known, source, front), source, entries[|entries| - 1])
  }

  /** The ids an entry and the patches nested in it address. */
  function Patches(entry: Option<Patch>): set<string>
    decreases entry, 1
  {
    if entry.None? || entry.value.insert != [] then {} else {entry.value.id} + PatchesAll(entry.value.plugins)
  }

  function PatchesAll(entries: seq<Option<Patch>>): set<string>
    decreases entries, 0
  {
    if entries == [] then {} else PatchesAll(entries[..|entries| - 1]) + Patches(entries[|entries| - 1])
  }

  /** What an entry of a layer adds below `x`. */
  function PlacedIn(x: Option<string>, known: set<string>, layer: Layer, entries: seq<Option<Patch>>): seq<Tag> {
    if entries == [] then []
    else
      var front, last := entries[..|entries| - 1], entries[|entries| - 1];
      PlacedIn(x, known, layer, front) +
      (if layer.patch then Placed(x, None, KnownEntries(known, layer, front), layer.title, last)
       else if x.None? && last.Some? then Rooted(layer.title, BaseEntries(last)) else [])
  }

  /** Base entries become roots, one each. */
  function Rooted(source: string, entries: seq<Option<Patch>>): seq<Tag> {
    if entries == [] then []
    else
      Rooted(source, entries[..|entries| - 1]) +
      (if entries[|entries| - 1].Some? then [Tag(entries[|entries| - 1].value.id, source)] else [])
  }

  /** What the layers of `rest`, applied after `front`, add below `x`, in order. */
  function PlacedBy(x: Option<string>, front: seq<Layer>, rest: seq<Layer>): seq<Tag> {
    if rest == [] then []
    else
      var before, last := rest[..|rest| - 1], rest[|rest| - 1];
      PlacedBy(x, front, before) + PlacedIn(x, KnownBy(front + before), last, last.entries)
  }

  // ----- where an insertion goes -----

  lemma InsertOneLands(s: State, strict: bool, source: string, target: Path, entry: Option<Patch>, q: Path)
    requires Keyed(s) && Target(s.nodes, target) && Target(s.nodes, q)
    requires InsertOne(s, strict, source, target, entry).Ok?
    ensures var s' := InsertOne(s, strict, source, target, entry).value.0;
      Tags(KidsAt(s'.nodes, q)) == Tags(KidsAt(s.nodes, q)) +
        (if q == target && entry.Some? && (entry.value.id == "" || entry.value.id !in s.index)
         then [Tag(entry.value.id, source)] else [])
  {
    if entry.Some? && !(entry.value.id != "" && entry.value.id in s.index) {
      var t := CreateNode(entry.value, source).value;
      IndexNodeAdds(s.(nodes := AppendAt(s.nodes, target, t)), strict, t, target + [|KidsAt(s.nodes, target)|]);
      AppendedKids(s.nodes, target, t, q);
    }
  }

  lemma {:induction false} InsertAllLands(s: State, strict: bool, source: string, target: Path,
      entries: seq<Option<Patch>>, q: Path)
    requires Keyed(s) && Target(s.nodes, target) && Target(s.nodes, q)
    requires InsertAll(s, strict, source, target, entries).Ok?
    ensures var s' := InsertAll(s, strict, source, target, entries).value.0;
      Tags(KidsAt(s'.nodes, q)) == Tags(KidsAt(s.nodes, q)) +
        (if q == target then Entering(s.index.Keys, source, entries) else [])
  {
    hide Keyed, Heard, KnownOne, Tags, InsertOne;
    if entries != [] {
      var front, last := entries[..|entries| - 1], entries[|entries| - 1];
      InsertAllLands(s, strict, source, target, front, q);
      var m := InsertAll(s, strict, source, target, front).value.0;
      InsertAllHear(s, strict, source, target, front, "");
      assert Hears(s, m, "", KnownAll(s.index.Keys, source, front), []);
      InsertAllGrown(s, strict, source, target, front);
      TargetKept(s.nodes, m.nodes, target);
      TargetKept(s.nodes, m.nodes, q);
      InsertOneLands(m, strict, source, target, last, q);
    }
  }

  /** `p` is the node the marker stands for. */
  predicate Is(nodes: seq<Tree>, p: Path, x: Option<string>) {
    if x.None? then p == [] else Carries(nodes, p, x.value)
  }

  /** Patches that address `x` can only mean `p`. */
  ghost predicate Means(end: seq<Tree>, x: Option<string>, p: Path, addressed: set<string>) {
    x.Some? && x.value in addressed ==> forall r :: Carries(end, r, x.value) ==> r == p
  }

  /** One entry of a patch layer adds below the node `p`, which `x` stands for, exactly what the layer says, and
      elsewhere its share: for every `x` that no two nodes of the outcome `end` carry. */
  lemma {:induction false} PatchLands(s: State, strict: bool, source: string, target: Path, under: Option<string>,
      entry: Option<Patch>, x: Option<string>, p: Path, end: seq<Tree>)
    requires Indexed(s) && Target(s.nodes, target) && Is(s.nodes, p, x) && (under == x <==> target == p)
    requires ApplyPatch(s, strict, source, target, entry).Ok?
    requires Grown(ApplyPatch(s, strict, source, target, entry).value.nodes, end)
    requires Means(end, x, p, Patches(entry))
    ensures Tags(KidsAt(ApplyPatch(s, strict, source, target, entry).value.nodes, p)) ==
      Tags(KidsAt(s.nodes, p)) + Placed(x, under, s.index.Keys, source, entry)
    decreases entry, 1
  {
    hide Tags, Indexed, Keyed, AddAll, Nodes, IdsIn;
    IndexedKeyed(s);
    if entry.Some? {
      var patch := entry.value;
      if patch.insert != [] {
        InsertAllLands(s, strict, source, target, patch.insert, p);
      } else if patch.id in s.index {
        var at := s.index[patch.id];
        var s' := s.(nodes := MergeAt(s.nodes, at, patch, source), hits := s.hits + [Hit(at, source, patch)]);
        var now := ApplyPatch(s, strict, source, target, entry).value;
        HitKeeps(s, strict, source, patch);
        MergedKids(s.nodes, at, patch, source, p);
        IsKept(s.nodes, s'.nodes, p, x);
        ApplyPatchesGrown(s', strict, source, at, patch.plugins);
        GrownTrans(s'.nodes, now.nodes, end);
        if x == Some(patch.id) { CarriesOn(s'.nodes, end, at, patch.id); }
        PatchesLand(s', strict, source, at, Some(patch.id), patch.plugins, x, p, end);
      }
    }
  }

  lemma {:induction false} PatchesLand(s: State, strict: bool, source: string, target: Path, under: Option<string>,
      entries: seq<Option<Patch>>, x: Option<string>, p: Path, end: seq<Tree>)
    requires Indexed(s) && Target(s.nodes, target) && Is(s.nodes, p, x) && (under == x <==> target == p)
    requires ApplyPatches(s, strict, source, target, entries).Ok?
    requires Grown(ApplyPatches(s, strict, source, target, entries).value.nodes, end)
    requires Means(end, x, p, PatchesAll(entries))
    ensures Tags(KidsAt(ApplyPatches(s, strict, source, target, entries).value.nodes, p)) ==
      Tags(KidsAt(s.nodes, p)) + PlacedAll(x, under, s.index.Keys, source, entries)
    decreases entries, 0
  {
    hide Tags, Indexed, Keyed, AddAll, Nodes, IdsIn;
    IndexedKeyed(s);
    if entries != [] {
      var front, last := entries[..|entries| - 1], entries[|entries| - 1];
      var m := ApplyPatches(s, strict, source, target, front).value;
      var now := ApplyPatches(s, strict, source, target, entries).value;
      ApplyPatchesGrown(s, strict, source, target, front);
      ApplyPatchesIndexed(s, strict, source, target, front);
      ApplyPatchGrown(m, strict, source, target, last);
      GrownTrans(m.nodes, now.nodes, end);
      TargetKept(s.nodes, m.nodes, target);
      IsKept(s.nodes, m.nodes, p, x);
      ApplyPatchesHear(s, strict, source, target, front, "");
      assert Hears(s, m, "", KnownPatches(s.index.Keys, source, front), AddressedAll("", s.index.Keys, source, front));
      PatchesLand(s, strict, source, target, under, front, x, p, end);
      PatchLands(m, strict, source, target, under, last, x, p, end);
    }
  }

  /** A hit changes neither the ids nor the index. */
  lemma HitKeeps(s: State, strict: bool, source: string, patch: Patch)
    requires Indexed(s) && patch.id in s.index
    ensures var at := s.index[patch.id];
      var s' := s.(nodes := MergeAt(s.nodes, at, patch, source), hits := s.hits + [Hit(at, source, patch)]);
      && Indexed(s') && Target(s'.nodes, at) && at != [] && Carries(s.nodes, at, patch.id)
      && Carries(s'.nodes, at, patch.id) && Grown(s.nodes, s'.nodes)
  {
    var at := s.index[patch.id];
    IndexedTarget(s, patch.id);
    MergeSameIds(s.nodes, at, patch, source);
    SameIndex(map[], s.nodes, MergeAt(s.nodes, at, patch, source), []);
    MergeGrown(s.nodes, at, patch, source);
    GrownAt(s.nodes, MergeAt(s.nodes, at, patch, source), at);
  }

  lemma IsKept(a: seq<Tree>, b: seq<Tree>, p: Path, x: Option<string>)
    requires Grown(a, b) && Is(a, p, x)
    ensures Is(b, p, x)
  {
    if x.Some? { GrownAt(a, b, p); }
  }

  lemma CarriesOn(a: seq<Tree>, b: seq<Tree>, p: Path, id: string)
    requires Grown(a, b) && Carries(a, p, id)
    ensures Carries(b, p, id)
  {
    GrownAt(a, b, p);
  }

  lemma {:induction false} NothingPlaced(x: Option<string>, under: Option<string>, known: set<string>, source: string,
      entry: Option<Patch>)
    requires under != x && (x.Some? ==> x.value !in Patches(entry))
    ensures Placed(x, under, known, source, entry) == []
    decreases entry, 1
  {
    if entry.Some? && entry.value.insert == [] && entry.value.id in known {
      NothingPlacedAll(x, Some(entry.value.id), known, source, entry.value.plugins);
    }
  }

  lemma {:induction false} NothingPlacedAll(x: Option<string>, under: Option<string>, known: set<string>,
      source: string, entries: seq<Option<Patch>>)
    requires under != x && (x.Some? ==> x.value !in PatchesAll(entries))
    ensures PlacedAll(x, under, known, source, entries) == []
    decreases entries, 0
  {
    if entries != [] {
      NothingPlacedAll(x, under, known, source, entries[..|entries| - 1]);
      NothingPlaced(x, under, KnownPatches(known, source, entries[..|entries| - 1]), source, entries[|entries| - 1]);
    }
  }

  // ----- one entry of a patch layer -----

  /** A patch leaves the roots alone and adds children only to nodes that it or a patch nested in it addresses; what
      is inserted directly below it goes, in order, after the children of the node it addresses. */
  lemma PatchPlaces(s: State, strict: bool, source: string, patch: Patch)
    requires Indexed(s) && patch.insert == [] && patch.id in s.index
    requires ApplyPatch(s, strict, source, [], Some(patch)).Ok?
    ensures var at, now := s.index[patch.id], ApplyPatch(s, strict, source, [], Some(patch)).value.nodes;
      && Tags(now) == Tags(s.nodes)
      && (forall q :: At(s.nodes, q).Some? && At(s.nodes, q).value.data.id !in Patches(Some(patch)) ==>
            Tags(KidsAt(now, q)) == Tags(KidsAt(s.nodes, q)))
      && (patch.id !in PatchesAll(patch.plugins) ==>
            Tags(KidsAt(now, at)) == Tags(KidsAt(s.nodes, at)) + Inserted(s.index.Keys, source, patch.plugins))
  {
    hide Tags, Indexed, AddAll;
    var now := ApplyPatch(s, strict, source, [], Some(patch)).value.nodes;
    GrownRefl(now);
    PatchLands(s, strict, source, [], None, Some(patch), None, [], now);
    NothingPlacedAll(None, Some(patch.id), s.index.Keys, source, patch.plugins);
    forall q | At(s.nodes, q).Some? && At(s.nodes, q).value.data.id !in Patches(Some(patch))
      ensures Tags(KidsAt(now, q)) == Tags(KidsAt(s.nodes, q))
    {
      var x := Some(At(s.nodes, q).value.data.id);
      PatchLands(s, strict, source, [], None, Some(patch), x, q, now);
      NothingPlaced(x, None, s.index.Keys, source, Some(patch));
    }
    if patch.id !in PatchesAll(patch.plugins) { OwnInsertions(s, strict, source, patch); }
  }

  /** The entries that a patch's `plugins` insert directly, in order. */
  function Inserted(known: set<string>, source: string, entries: seq<Option<Patch>>): seq<Tag> {
    if entries == [] then []
    else
      var front, last := entries[..|entries| - 1], entries[|entries| - 1];
      Inserted(known, source, front) +
      (if last.Some? && last.value.insert != []
       then Entering(KnownPatches(known, source, front), source, last.value.insert) else [])
  }

  lemma {:induction false} DirectlyPlaced(id: string, known: set<string>, source: string, entries: seq<Option<Patch>>)
    requires id !in PatchesAll(entries)
    ensures PlacedAll(Some(id), Some(id), known, source, entries) == Inserted(known, source, entries)
  {
    if entries != [] {
      var front, last := entries[..|entries| - 1], entries[|entries| - 1];
      DirectlyPlaced(id, known, source, front);
      if last.Some? && last.value.insert == [] {
        NothingPlacedAll(Some(id), Some(last.value.id), KnownPatches(known, source, front), source, last.value.plugins);
      }
    }
  }

  lemma OwnInsertions(s: State, strict: bool, source: string, patch: Patch)
    requires Indexed(s) && patch.insert == [] && patch.id in s.index && patch.id !in PatchesAll(patch.plugins)
    requires ApplyPatch(s, strict, source, [], Some(patch)).Ok?
    ensures var at, now := s.index[patch.id], ApplyPatch(s, strict, source, [], Some(patch)).value.nodes;
      Tags(KidsAt(now, at)) == Tags(KidsAt(s.nodes, at)) + Inserted(s.index.Keys, source, patch.plugins)
  {
    hide Tags, Indexed, AddAll;
    var at, now := s.index[patch.id], ApplyPatch(s, strict, source, [], Some(patch)).value.nodes;
    var s' := s.(nodes := MergeAt(s.nodes, at, patch, source), hits := s.hits + [Hit(at, source, patch)]);
    HitKeeps(s, strict, source, patch);
    MergedKids(s.nodes, at, patch, source, at);
    GrownRefl(now);
    PatchesLand(s', strict, source, at, Some(patch.id), patch.plugins, Some(patch.id), at, now);
    DirectlyPlaced(patch.id, s.index.Keys, source, patch.plugins);
  }

  /** An insertion at the top of a layer appends the entries that go in as roots, in order, and adds no child to any
      node that was there. */
  lemma InsertPlaces(s: State, strict: bool, source: string, patch: Patch)
    requires Indexed(s) && patch.insert != [] && ApplyPatch(s, strict, source, [], Some(patch)).Ok?
    ensures var now := ApplyPatch(s, strict, source, [], Some(patch)).value.nodes;
      && Tags(now) == Tags(s.nodes) + Entering(s.index.Keys, source, patch.insert)
      && forall q :: At(s.nodes, q).Some? ==> Tags(KidsAt(now, q)) == Tags(KidsAt(s.nodes, q))
  {
    hide Tags, Indexed, AddAll;
    IndexedKeyed(s);
    InsertAllLands(s, strict, source, [], patch.insert, []);
    forall q | At(s.nodes, q).Some?
      ensures Tags(KidsAt(ApplyPatch(s, strict, source, [], Some(patch)).value.nodes, q)) == Tags(KidsAt(s.nodes, q))
    {
      InsertAllLands(s, strict, source, [], patch.insert, q);
    }
  }

  // ----- whole compositions -----

  lemma {:induction false} AddRootsLand(s: State, strict: bool, source: string, entries: seq<Option<Patch>>, p: Path)
    requires AddRoots(s, strict, source, entries).Ok? && Target(s.nodes, p)
    ensures Tags(KidsAt(AddRoots(s, strict, source, entries).value.nodes, p)) ==
      Tags(KidsAt(s.nodes, p)) + (if p == [] then Rooted(source, entries) else [])
  {
    hide Tags;
    if entries != [] {
      var front, last := entries[..|entries| - 1], entries[|entries| - 1];
      AddRootsLand(s, strict, source, front, p);
      var m := AddRoots(s, strict, source, front).value;
      AddRootsGrown(s, strict, source, front);
      TargetKept(s.nodes, m.nodes, p);
      if last.Some? {
        var t := CreateNode(last.value, source).value;
        IndexNodeAdds(m.(nodes := m.nodes + [t]), strict, t, [|m.nodes|]);
        AppendedKids(m.nodes, [], t, p);
      }
    }
  }

  /** One entry of a layer. */
  lemma EntryLands(m: State, strict: bool, layer: Layer, last: Option<Patch>, x: Option<string>, p: Path,
      end: seq<Tree>)
    requires Indexed(m) && Is(m.nodes, p, x) && ApplyEntry(m, strict, layer, last).Ok?
    requires Grown(ApplyEntry(m, strict, layer, last).value.nodes, end)
    requires x.Some? ==> forall r :: Carries(end, r, x.value) ==> r == p
    ensures Grown(m.nodes, end)
    ensures Tags(KidsAt(ApplyEntry(m, strict, layer, last).value.nodes, p)) ==
      Tags(KidsAt(m.nodes, p)) +
      (if layer.patch then Placed(x, None, m.index.Keys, layer.title, last)
       else if x.None? && last.Some? then Rooted(layer.title, BaseEntries(last)) else [])
  {
    hide Tags, Indexed, AddAll, IdsIn, Placed, AddRoots, Rooted, ApplyPatch;
    var now := ApplyEntry(m, strict, layer, last).value;
    if layer.patch {
      ApplyPatchGrown(m, strict, layer.title, [], last);
      PatchLands(m, strict, layer.title, [], None, last, x, p, end);
    } else if last.Some? {
      AddRootsGrown(m, strict, layer.title, BaseEntries(last));
      AddRootsLand(m, strict, layer.title, BaseEntries(last), p);
    } else {
      GrownRefl(m.nodes);
    }
    GrownTrans(m.nodes, now.nodes, end);
  }

  lemma {:induction false} EntriesLand(s: State, strict: bool, layer: Layer, entries: seq<Option<Patch>>,
      x: Option<string>, p: Path, end: seq<Tree>)
    requires Indexed(s) && Is(s.nodes, p, x) && ApplyEntries(s, strict, layer, entries).Ok?
    requires Grown(ApplyEntries(s, strict, layer, entries).value.nodes, end)
    requires x.Some? ==> forall r :: Carries(end, r, x.value) ==> r == p
    ensures Tags(KidsAt(ApplyEntries(s, strict, layer, entries).value.nodes, p)) ==
      Tags(KidsAt(s.nodes, p)) + PlacedIn(x, s.index.Keys, layer, entries)
  {
    hide Tags, Indexed, Keyed, IdsIn, ApplyEntry, Placed, Rooted, KnownEntries, Grown, Heard, Is, Carries;
    IndexedKeyed(s);
    if entries != [] {
      var front, last := entries[..|entries| - 1], entries[|entries| - 1];
      var m := ApplyEntries(s, strict, layer, front).value;
      EntriesGrown(s, strict, layer, front);
      EntriesIndexed(s, strict, layer, front);
      IsKept(s.nodes, m.nodes, p, x);
      EntriesHear(s, strict, layer, front, "");
      assert Hears(s, m, "", KnownEntries(s.index.Keys, layer, front), AddressedIn("", s.index.Keys, layer, front));
      EntryLands(m, strict, layer, last, x, p, end);
      EntriesLand(s, strict, layer, front, x, p, end);
    }
  }

  lemma {:induction false} LaterLand(front: seq<Layer>, rest: seq<Layer>, strict: bool, x: Option<string>, p: Path,
      end: seq<Tree>)
    requires ApplyLayers(front, strict).Ok? && ApplyLayers(front + rest, strict).Ok?
    requires Is(ApplyLayers(front, strict).value.nodes, p, x)
    requires Grown(ApplyLayers(front + rest, strict).value.nodes, end)
    requires x.Some? ==> forall r :: Carries(end, r, x.value) ==> r == p
    ensures Tags(KidsAt(ApplyLayers(front + rest, strict).value.nodes, p)) ==
      Tags(KidsAt(ApplyLayers(front, strict).value.nodes, p)) + PlacedBy(x, front, rest)
    ensures Grown(ApplyLayers(front, strict).value.nodes, ApplyLayers(front + rest, strict).value.nodes)
  {
    hide ApplyLayers, ApplyEntries, Tags, Indexed, KnownBy, PlacedIn;
    GrownRefl(ApplyLayers(front, strict).value.nodes);
    if rest == [] {
      assert front + rest == front;
    } else {
      var before, last := rest[..|rest| - 1], rest[|rest| - 1];
      LastStep(front, rest, strict);
      var m, now := ApplyLayers(front + before, strict).value, ApplyLayers(front + rest, strict).value;
      EntriesGrown(m, strict, last, last.entries);
      GrownTrans(m.nodes, now.nodes, end);
      LaterLand(front, before, strict, x, p, end);
      IsKept(ApplyLayers(front, strict).value.nodes, m.nodes, p, x);
      EntriesLand(m, strict, last, last.entries, x, p, end);
      GrownTrans(ApplyLayers(front, strict).value.nodes, m.nodes, now.nodes);
    }
  }

  /** The roots of a composed forest are the base entries and the top-level insertions of the layers, in order. */
  lemma RootsInOrder(layers: seq<Layer>, strict: bool)
    requires Compose(layers, strict).Ok?
    ensures Tags(Compose(layers, strict).value.nodes) == PlacedBy(None, [], layers)
  {
    hide Tags, ApplyEntries;
    var s := ApplyLayers(layers, strict).value;
    CheckAllKeeps(s, strict, s.nodes);
    assert [] + layers == layers;
    GrownRefl(s.nodes);
    LaterLand([], layers, strict, None, [], s.nodes);
    assert Tags([]) == [] by { TagsSame([], []); }
  }

  /** The children of a node that is the only one with its id are those it had after any of the first layers, and
      then what the later layers insert below its id, in order. */
  lemma KidsInOrder(front: seq<Layer>, rest: seq<Layer>, strict: bool, p: Path)
    requires ApplyLayers(front, strict).Ok? && Compose(front + rest, strict).Ok?
    requires At(ApplyLayers(front, strict).value.nodes, p).Some?
    requires Unique(Compose(front + rest, strict).value.nodes,
      At(ApplyLayers(front, strict).value.nodes, p).value.data.id)
    ensures var was := ApplyLayers(front, strict).value.nodes;
      Tags(KidsAt(Compose(front + rest, strict).value.nodes, p)) ==
        Tags(KidsAt(was, p)) + PlacedBy(Some(At(was, p).value.data.id), front, rest)
  {
    hide Tags, ApplyLayers, ApplyEntries;
    var s := ApplyLayers(front + rest, strict).value;
    var was := ApplyLayers(front, strict).value.nodes;
    var id := At(was, p).value.data.id;
    CheckAllKeeps(s, strict, s.nodes);
    GrownRefl(s.nodes);
    LaterLand(front, rest, strict, None, [], s.nodes);
    CarriesOn(was, s.nodes, p, id);
    LaterLand(front, rest, strict, Some(id), p, s.nodes);
  }

  // ----- what a created entry looks like -----

  /** The entries that become the children of a created node: insertions expand in place. */
  function Expanded(plugins: seq<Option<Patch>>): seq<Patch> {
    if plugins == [] then [] else Expanded(plugins[..|plugins| - 1]) + ExpandedOne(plugins[|plugins| - 1])
  }

  function ExpandedOne(entry: Option<Patch>): seq<Patch> {
    if entry.None? then [] else if entry.value.insert == [] then [entry.value] else Present(entry.value.insert)
  }

  function Present(entries: seq<Option<Patch>>): seq<Patch> {
    if entries == [] then []
    else Present(entries[..|entries| - 1]) +
         (if entries[|entries| - 1].Some? then [entries[|entries| - 1].value] else [])
  }

  /** Trees created from entries, one for one. */
  predicate CreatedFrom(trees: seq<Tree>, ps: seq<Patch>, source: string) {
    |trees| == |ps| && forall i :: 0 <= i < |ps| ==> CreateNode(ps[i], source) == Ok(trees[i])
  }

  /** The fields an entry declares, and the empty ones where it declares nothing. */
  predicate Declared(d: Data, p: Patch, source: string) {
    && d.id == p.id && d.source == source && d.patched == [] && d.config == p.config
    && d.name == (if p.name.Some? then p.name.value else "") && d.title == (if p.title.Some? then p.title.value else "")
    && d.disabled == (p.disabled == Some(true)) && d.group == (p.group == Some(true))
    && d.inject == (if p.inject.Some? then p.inject.value else [])
  }

  /** An entry is usable if it has an id or a name. */
  predicate Usable(p: Patch) {
    p.id != "" || (p.name.Some? && p.name.value != "")
  }

  /** An entry becomes a node exactly if it and every entry below it are usable. The node holds what the entry
      declares, and has one child for every entry below it, in order, each created in turn. */
  lemma CreatesInOrder(p: Patch, source: string)
    ensures CreateNode(p, source).Ok? <==>
      Usable(p) && forall i :: 0 <= i < |Expanded(p.plugins)| ==> CreateNode(Expanded(p.plugins)[i], source).Ok?
    ensures CreateNode(p, source).Ok? ==>
      var t := CreateNode(p, source).value;
      Declared(t.data, p, source) && CreatedFrom(t.kids, Expanded(p.plugins), source)
    ensures CreateNode(p, source).Err? ==> CreateNode(p, source).error == Nameless
  {
    KidsCreated(p.plugins, source);
  }

  /** What creating a list of trees comes to. */
  predicate Creates(r: Result<seq<Tree>>, ps: seq<Patch>, source: string) {
    match r
    case Ok(trees) => CreatedFrom(trees, ps, source)
    case Err(e) => e == Nameless && exists i :: 0 <= i < |ps| && CreateNode(ps[i], source).Err?
  }

  lemma CreatesJoined(a: Result<seq<Tree>>, ps: seq<Patch>, b: Result<seq<Tree>>, qs: seq<Patch>, source: string)
    requires Creates(a, ps, source) && Creates(b, qs, source)
    ensures Creates(Joined(a, b), ps + qs, source)
  {
    hide CreateNode;
    assert forall i :: 0 <= i < |ps| ==> (ps + qs)[i] == ps[i];
    assert forall i :: 0 <= i < |qs| ==> (ps + qs)[|ps| + i] == qs[i];
  }

  lemma {:induction false} NodeCreates(p: Patch, source: string)
    ensures CreateNode(p, source).Err? ==> CreateNode(p, source).error == Nameless
    decreases p, 1
  {
    KidsCreated(p.plugins, source);
  }

  lemma {:induction false} KidsCreated(plugins: seq<Option<Patch>>, source: string)
    ensures Creates(CreateKids(plugins, source), Expanded(plugins), source)
    decreases plugins, 0
  {
    hide CreateNode, Creates;
    if plugins == [] {
      assert Creates(Ok([]), [], source) by { NoneCreated(source); }
    } else {
      var front, last := plugins[..|plugins| - 1], plugins[|plugins| - 1];
      KidsCreated(front, source);
      KidCreated(last, source);
      CreatesJoined(CreateKids(front, source), Expanded(front), CreateKid(last, source), ExpandedOne(last), source);
    }
  }

  lemma NoneCreated(source: string)
    ensures Creates(Ok([]), [], source)
  {}

  lemma {:induction false} KidCreated(entry: Option<Patch>, source: string)
    ensures Creates(CreateKid(entry, source), ExpandedOne(entry), source)
    decreases entry, 3
  {
    if entry.Some? && entry.value.insert != [] {
      InsertedCreated(entry.value.insert, source);
    } else {
      OneCreated(entry, source);
    }
  }

  lemma {:induction false} InsertedCreated(entries: seq<Option<Patch>>, source: string)
    ensures Creates(CreateInserted(entries, source), Present(entries), source)
    decreases entries, 0
  {
    hide CreateNode, Creates;
    if entries == [] {
      NoneCreated(source);
    } else {
      var front, last := entries[..|entries| - 1], entries[|entries| - 1];
      InsertedCreated(front, source);
      OneCreated(last, source);
      CreatesJoined(CreateInserted(front, source), Present(front), CreateOne(last, source),
        if last.Some? then [last.value] else [], source);
    }
  }

  lemma {:induction false} OneCreated(entry: Option<Patch>, source: string)
    ensures Creates(CreateOne(entry, source), if entry.Some? then [entry.value] else [], source)
    decreases entry, 2
  {
    hide CreateNode;
    if entry.Some? {
      var p := entry.value;
      NodeCreates(p, source);
      assert [p][0] == p;
    }
  }
}
