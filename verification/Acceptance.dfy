/** What composing refuses and what it reports (loader/loader.go), read off the layers and the composed forest. */
module Acceptance {
  import opened Options
  import opened Layers
  import opened Composition
  import opened Conservation
  import opened LastWriter

  // ----- mixed entries -----

  /** From a list of entries into one of them. */
  datatype Turn = Plugin(i: nat) | Insert(i: nat)

  /** The entry at the end of a way that starts in `entries` and goes on through `plugins` or `insert`. */
  function EntryAt(entries: seq<Option<Patch>>, i: nat, way: seq<Turn>): Option<Patch>
    decreases way
  {
    if i >= |entries| || entries[i].None? then None
    else if way == [] then entries[i]
    else if way[0].Plugin? then EntryAt(entries[i].value.plugins, way[0].i, way[1..])
    else EntryAt(entries[i].value.insert, way[0].i, way[1..])
  }

  /** An insertion that is more than an insertion. */
  predicate Mixes(p: Patch) {
    p.insert != [] && p != Patch("", None, None, None, None, None, None, [], p.insert)
  }

  ghost predicate Unmixed(entries: seq<Option<Patch>>) {
    forall i: nat, way :: EntryAt(entries, i, way).Some? ==> !Mixes(EntryAt(entries, i, way).value)
  }

  /** An entry that does not mix, and has nothing below it that does. */
  ghost predicate UnmixedEntry(entry: Option<Patch>) {
    entry.Some? ==> !Mixes(entry.value) && Unmixed(entry.value.plugins) && Unmixed(entry.value.insert)
  }

  /** Validation finds an entry that mixes `insert` with fields at any depth. */
  lemma {:induction false} ValidIsUnmixed(entries: seq<Option<Patch>>)
    ensures ValidEntries(entries) <==> Unmixed(entries)
    decreases entries, 0
  {
    hide Unmixed;
    if entries == [] {
      assert Unmixed([]) by { NoEntries(); }
    } else {
      ValidIsUnmixed(entries[..|entries| - 1]);
      ValidEntryUnmixed(entries[|entries| - 1]);
      UnmixedSplits(entries);
    }
  }

  lemma NoEntries()
    ensures Unmixed([])
  {}

  lemma {:induction false} ValidEntryUnmixed(entry: Option<Patch>)
    ensures ValidEntry(entry) <==> UnmixedEntry(entry)
    decreases entry, 1
  {
    hide Unmixed;
    if entry.Some? {
      ValidIsUnmixed(entry.value.plugins);
      ValidIsUnmixed(entry.value.insert);
    }
  }

  lemma UnmixedSplits(entries: seq<Option<Patch>>)
    requires entries != []
    ensures Unmixed(entries) <==> (Unmixed(entries[..|entries| - 1]) && UnmixedEntry(entries[|entries| - 1]))
  {
    var k := |entries| - 1;
    var last := entries[k];
    if Unmixed(entries) {
      forall i: nat,
          way: seq<Turn> | EntryAt(entries[..k], i, way).Some? ensures !Mixes(EntryAt(entries[..k], i, way).value) {
        assert EntryAt(entries, i, way) == EntryAt(entries[..k], i, way);
      }
      if last.Some? {
        assert EntryAt(entries, k, []) == last;
        forall i: nat, way: seq<Turn> | EntryAt(last.value.plugins, i, way).Some?
          ensures !Mixes(EntryAt(last.value.plugins, i, way).value)
        {
          assert EntryAt(entries, k, [Plugin(i)] + way) == EntryAt(last.value.plugins, i, way);
        }
        forall i: nat, way: seq<Turn> | EntryAt(last.value.insert, i, way).Some?
          ensures !Mixes(EntryAt(last.value.insert, i, way).value)
        {
          assert EntryAt(entries, k, [Insert(i)] + way) == EntryAt(last.value.insert, i, way);
        }
      }
    }
    if Unmixed(entries[..k]) && UnmixedEntry(last) {
      forall i: nat, way: seq<Turn> | EntryAt(entries, i, way).Some? ensures !Mixes(EntryAt(entries, i, way).value) {
        if i < k {
          assert EntryAt(entries[..k], i, way) == EntryAt(entries, i, way);
        } else if way != [] {
          var below := if way[0].Plugin? then last.value.plugins else last.value.insert;
          assert EntryAt(entries, i, way) == EntryAt(below, way[0].i, way[1..]);
        }
      }
    }
  }

  // ----- which layers compose -----

  /** Every entry that goes in can be created. */
  predicate TakesInserted(known: set<string>, source: string, entries: seq<Option<Patch>>) {
    entries != [] ==>
      var front, last := entries[..|entries| - 1], entries[|entries| - 1];
      && TakesInserted(known, source, front)
      && (last.Some? && (last.value.id == "" || last.value.id !in KnownAll(known, source, front)) ==>
            CreateNode(last.value, source).Ok?)
  }

  /** Every patch that is looked at has an id; one that matches nothing takes what is below it out of sight. */
  predicate Takes(known: set<string>, source: string, entry: Option<Patch>)
    decreases entry, 1
  {
    entry.Some? ==>
      if entry.value.insert != [] then TakesInserted(known, source, entry.value.insert)
      else entry.value.id != "" && (entry.value.id in known ==> TakesAll(known, source, entry.value.plugins))
  }

  predicate TakesAll(known: set<string>, source: string, entries: seq<Option<Patch>>)
    decreases entries, 0
  {
    entries != [] ==>
      var front := entries[..|entries| - 1];
      TakesAll(known, source, front) && Takes(KnownPatches(known, source, front), source, entries[|entries| - 1])
  }

  predicate TakesEntries(known: set<string>, layer: Layer, entries: seq<Option<Patch>>) {
    entries != [] ==>
      var front, last := entries[..|entries| - 1], entries[|entries| - 1];
      && TakesEntries(known, layer, front)
      && (if layer.patch then Takes(KnownEntries(known, layer, front), layer.title, last)
          else last.Some? ==> forall e :: e in BaseEntries(last) && e.Some? ==> CreateNode(e.value, layer.title).Ok?)
  }

  ghost predicate TakesLayers(layers: seq<Layer>) {
    layers != [] ==>
      var front, last := layers[..|layers| - 1], layers[|layers| - 1];
      TakesLayers(front) && Unmixed(last.entries) && TakesEntries(KnownBy(front), last, last.entries)
  }

  lemma {:induction false} IndexNodeLoose(s: State, t: Tree, at: Path)
    ensures IndexNode(s, false, t, at).Ok?
    decreases t, 1
  {
    var id := t.data.id;
    IndexAllLoose(s, t.kids, at);
    IndexAllLoose(s.(warnings := s.warnings + [Repeated(t.data.source, id)]), t.kids, at);
    IndexAllLoose(s.(index := s.index[id := at]), t.kids, at);
  }

  lemma {:induction false} IndexAllLoose(s: State, nodes: seq<Tree>, at: Path)
    ensures IndexAll(s, false, nodes, at).Ok?
    decreases nodes, 0
  {
    if nodes != [] {
      var k := |nodes| - 1;
      IndexAllLoose(s, nodes[..k], at);
      IndexNodeLoose(IndexAll(s, false, nodes[..k], at).value, nodes[k], at + [k]);
    }
  }

  lemma {:induction false} AddRootsTake(s: State, source: string, entries: seq<Option<Patch>>)
    ensures AddRoots(s, false, source, entries).Ok? <==>
      forall e :: e in entries && e.Some? ==> CreateNode(e.value, source).Ok?
  {
    if entries != [] {
      var front, last := entries[..|entries| - 1], entries[|entries| - 1];
      assert entries == front + [last];
      AddRootsTake(s, source, front);
      var m := AddRoots(s, false, source, front);
      if m.Ok? && last.Some? && CreateNode(last.value, source).Ok? {
        var t := CreateNode(last.value, source).value;
        IndexNodeLoose(m.value.(nodes := m.value.nodes + [t]), t, [|m.value.nodes|]);
      }
    }
  }

  lemma {:induction false} InsertAllTakes(s: State, source: string, target: Path, entries: seq<Option<Patch>>)
    requires Keyed(s) && Target(s.nodes, target)
    ensures InsertAll(s, false, source, target, entries).Ok? <==> TakesInserted(s.index.Keys, source, entries)
  {
    hide Keyed, Heard, KnownOne, AppendAt, KidsAt, CreateNode, IndexNode;
    if entries != [] {
      var front, last := entries[..|entries| - 1], entries[|entries| - 1];
      InsertAllTakes(s, source, target, front);
      var m := InsertAll(s, false, source, target, front);
      if m.Ok? {
        var s' := m.value.0;
        InsertAllHear(s, false, source, target, front, "");
        assert Hears(s, s', "", KnownAll(s.index.Keys, source, front), []);
        if last.Some? && CreateNode(last.value, source).Ok? {
          var t := CreateNode(last.value, source).value;
          IndexNodeLoose(s'.(nodes := AppendAt(s'.nodes, target, t)), t, target + [|KidsAt(s'.nodes, target)|]);
        }
      }
    }
  }

  lemma {:induction false} ApplyPatchTakes(s: State, source: string, target: Path, entry: Option<Patch>)
    requires Indexed(s) && Target(s.nodes, target)
    ensures ApplyPatch(s, false, source, target, entry).Ok? <==> Takes(s.index.Keys, source, entry)
    decreases entry, 1
  {
    hide Indexed, Keyed, AddAll, Nodes, IdsIn;
    IndexedKeyed(s);
    if entry.Some? {
      var p := entry.value;
      if p.insert != [] {
        InsertAllTakes(s, source, target, p.insert);
      } else if p.id != "" && p.id in s.index {
        HitKeepsIndex(s, source, p);
        var at := s.index[p.id];
        ApplyPatchesTake(s.(nodes := MergeAt(s.nodes, at, p, source), hits := s.hits + [Hit(at, source, p)]), source,
            at, p.plugins);
      }
    }
  }

  lemma HitKeepsIndex(s: State, source: string, patch: Patch)
    requires Indexed(s) && patch.id in s.index
    ensures var at := s.index[patch.id];
      var s' := s.(nodes := MergeAt(s.nodes, at, patch, source), hits := s.hits + [Hit(at, source, patch)]);
      Indexed(s') && Target(s'.nodes, at)
  {
    var at := s.index[patch.id];
    IndexedTarget(s, patch.id);
    MergeSameIds(s.nodes, at, patch, source);
    SameIndex(map[], s.nodes, MergeAt(s.nodes, at, patch, source), []);
    MergeGrown(s.nodes, at, patch, source);
    GrownAt(s.nodes, MergeAt(s.nodes, at, patch, source), at);
  }

  lemma {:induction false} ApplyPatchesTake(s: State, source: string, target: Path, entries: seq<Option<Patch>>)
    requires Indexed(s) && Target(s.nodes, target)
    ensures ApplyPatches(s, false, source, target, entries).Ok? <==> TakesAll(s.index.Keys, source, entries)
    decreases entries, 0
  {
    hide Indexed, Keyed, AddAll, Nodes, IdsIn;
    if entries != [] {
      var front, last := entries[..|entries| - 1], entries[|entries| - 1];
      ApplyPatchesTake(s, source, target, front);
      var m := ApplyPatches(s, false, source, target, front);
      if m.Ok? {
        ApplyPatchesGrown(s, false, source, target, front);
        ApplyPatchesIndexed(s, false, source, target, front);
        TargetKept(s.nodes, m.value.nodes, target);
        ApplyPatchesHear(s, false, source, target, front, "");
        assert Hears(s, m.value, "", KnownPatches(s.index.Keys, source, front),
            AddressedAll("", s.index.Keys, source, front));
        ApplyPatchTakes(m.value, source, target, last);
      }
    }
  }

  lemma {:induction false} EntriesTake(s: State, layer: Layer, entries: seq<Option<Patch>>)
    requires Indexed(s)
    ensures ApplyEntries(s, false, layer, entries).Ok? <==> TakesEntries(s.index.Keys, layer, entries)
  {
    hide Indexed, Keyed, AddAll, Nodes, IdsIn, CreateNode, KnownEntries, Heard;
    if entries != [] {
      var front, last := entries[..|entries| - 1], entries[|entries| - 1];
      EntriesTake(s, layer, front);
      var m := ApplyEntries(s, false, layer, front);
      if m.Ok? {
        EntriesIndexed(s, false, layer, front);
        EntriesHear(s, false, layer, front, "");
        assert Hears(s, m.value, "", KnownEntries(s.index.Keys, layer, front),
            AddressedIn("", s.index.Keys, layer, front));
        if layer.patch { ApplyPatchTakes(m.value, layer.title, [], last); }
        else if last.Some? { AddRootsTake(m.value, layer.title, BaseEntries(last)); }
      }
    }
  }

  lemma {:induction false} LayersTake(layers: seq<Layer>)
    ensures ApplyLayers(layers, false).Ok? <==> TakesLayers(layers)
  {
    hide ApplyEntries, TakesEntries, Unmixed, ValidEntries, Indexed, KnownBy;
    if layers != [] {
      var front, last := layers[..|layers| - 1], layers[|layers| - 1];
      LayersTake(front);
      LayersIndexed(front, false);
      LayersKnown(front, false);
      ValidIsUnmixed(last.entries);
      if ApplyLayers(front, false).Ok? { EntriesTake(ApplyLayers(front, false).value, last, last.entries); }
    }
  }

  lemma {:induction false} CheckNodeLoose(s: State, t: Tree)
    ensures CheckNode(s, false, t).Ok?
    decreases t, 1
  {
    CheckAllLoose(s, t.kids);
    CheckAllLoose(s.(warnings := s.warnings + [StrayKids(t.data)]), t.kids);
  }

  lemma {:induction false} CheckAllLoose(s: State, nodes: seq<Tree>)
    ensures CheckAll(s, false, nodes).Ok?
    decreases nodes, 0
  {
    if nodes != [] {
      CheckAllLoose(s, nodes[..|nodes| - 1]);
      CheckNodeLoose(CheckAll(s, false, nodes[..|nodes| - 1]).value, nodes[|nodes| - 1]);
    }
  }

  /** Layers compose, with warnings, exactly if no entry at any depth mixes, every patch looked at has an id, and
      every entry that becomes a node can be created. */
  lemma ComposesIff(layers: seq<Layer>)
    ensures Compose(layers, false).Ok? <==> TakesLayers(layers)
  {
    hide ApplyLayers, TakesLayers;
    LayersTake(layers);
    if ApplyLayers(layers, false).Ok? {
      CheckAllLoose(ApplyLayers(layers, false).value, ApplyLayers(layers, false).value.nodes);
    }
  }

  // ----- repeated ids -----

  /** The non-empty ids of a forest, each as often as nodes carry it. */
  function Ids(nodes: seq<Tree>): multiset<string>
    decreases nodes, 0
  {
    if nodes == [] then multiset{} else Ids(nodes[..|nodes| - 1]) + IdsOf(nodes[|nodes| - 1])
  }

  function IdsOf(t: Tree): multiset<string>
    decreases t, 1
  {
    (if t.data.id == "" then multiset{} else multiset{t.data.id}) + Ids(t.kids)
  }

  /** The ids that warnings report as repeated. */
  function Repeats(warnings: seq<Warning>): multiset<string> {
    if warnings == [] then multiset{}
    else
      var last := warnings[|warnings| - 1];
      Repeats(warnings[..|warnings| - 1]) + (if last.Repeated? then multiset{last.id} else multiset{})
  }

  /** Every node with an id is in the index or reported. */
  predicate Counted(s: State) {
    Ids(s.nodes) == multiset(s.index.Keys) + Repeats(s.warnings)
  }

  lemma RepeatsMore(warnings: seq<Warning>, w: Warning)
    ensures Repeats(warnings + [w]) == Repeats(warnings) + (if w.Repeated? then multiset{w.id} else multiset{})
  {
    assert (warnings + [w])[..|warnings|] == warnings;
  }

  lemma {:induction false} IndexNodeCounts(s: State, strict: bool, t: Tree, at: Path)
    ensures forall s' :: IndexNode(s, strict, t, at) == Ok(s') ==>
      multiset(s'.index.Keys) + Repeats(s'.warnings) == multiset(s.index.Keys) + Repeats(s.warnings) + IdsOf(t)
    decreases t, 1
  {
    var id := t.data.id;
    if id == "" {
      IndexAllCounts(s, strict, t.kids, at);
    } else if id in s.index {
      RepeatsMore(s.warnings, Repeated(t.data.source, id));
      IndexAllCounts(s.(warnings := s.warnings + [Repeated(t.data.source, id)]), strict, t.kids, at);
    } else {
      var s' := s.(index := s.index[id := at]);
      assert s'.index.Keys == s.index.Keys + {id};
      assert multiset(s'.index.Keys) == multiset(s.index.Keys) + multiset{id};
      IndexAllCounts(s', strict, t.kids, at);
    }
  }

  lemma {:induction false} IndexAllCounts(s: State, strict: bool, nodes: seq<Tree>, at: Path)
    ensures forall s' :: IndexAll(s, strict, nodes, at) == Ok(s') ==>
      multiset(s'.index.Keys) + Repeats(s'.warnings) == multiset(s.index.Keys) + Repeats(s.warnings) + Ids(nodes)
    decreases nodes, 0
  {
    if nodes != [] {
      var k := |nodes| - 1;
      IndexAllCounts(s, strict, nodes[..k], at);
      var m := IndexAll(s, strict, nodes[..k], at);
      if m.Ok? { IndexNodeCounts(m.value, strict, nodes[k], at + [k]); }
    }
  }

  lemma {:induction false} IdsUpdate(nodes: seq<Tree>, i: nat, t: Tree)
    requires i < |nodes|
    ensures Ids(nodes[i := t]) + IdsOf(nodes[i]) == Ids(nodes) + IdsOf(t)
  {
    var k := |nodes| - 1;
    if i == k {
      assert nodes[i := t][..k] == nodes[..k];
    } else {
      assert nodes[i := t][..k] == nodes[..k][i := t];
      IdsUpdate(nodes[..k], i, t);
      Beside(Ids(nodes[i := t][..k]), IdsOf(nodes[k]), IdsOf(nodes[i]), Ids(nodes[..k]), IdsOf(t));
    }
  }

  lemma {:induction false} AppendIds(nodes: seq<Tree>, p: Path, t: Tree)
    requires Target(nodes, p)
    ensures Ids(AppendAt(nodes, p, t)) == Ids(nodes) + IdsOf(t)
    decreases p
  {
    if p == [] {
      assert (nodes + [t])[..|nodes|] == nodes;
    } else {
      var kid := nodes[p[0]];
      AppendIds(kid.kids, p[1..], t);
      var now := kid.(kids := AppendAt(kid.kids, p[1..], t));
      IdsUpdate(nodes, p[0], now);
      assert IdsOf(now) == IdsOf(kid) + IdsOf(t);
      Cancel(Ids(AppendAt(nodes, p, t)), IdsOf(kid), Ids(nodes), IdsOf(t));
    }
  }

  lemma {:induction false} SameIdsCount(a: seq<Tree>, b: seq<Tree>)
    requires SameIds(a, b)
    ensures Ids(a) == Ids(b)
  {
    if a != [] {
      var k := |a| - 1;
      SameIdsCount(a[..k], b[..k]);
      SameIdsCount(a[k].kids, b[k].kids);
    }
  }

  lemma JoinCounts(s: State, strict: bool, target: Path, t: Tree, at: Path)
    requires Counted(s) && Target(s.nodes, target)
    ensures forall s' :: IndexNode(s.(nodes := AppendAt(s.nodes, target, t)), strict, t, at) == Ok(s') ==> Counted(s')
  {
    IndexNodeCounts(s.(nodes := AppendAt(s.nodes, target, t)), strict, t, at);
    IndexNodeAdds(s.(nodes := AppendAt(s.nodes, target, t)), strict, t, at);
    AppendIds(s.nodes, target, t);
  }

  lemma {:induction false} AddRootsCount(s: State, strict: bool, source: string, entries: seq<Option<Patch>>)
    requires Counted(s)
    ensures forall s' :: AddRoots(s, strict, source, entries) == Ok(s') ==> Counted(s')
  {
    hide Counted, CreateNode, IndexNode;
    if entries != [] {
      var front, last := entries[..|entries| - 1], entries[|entries| - 1];
      AddRootsCount(s, strict, source, front);
      var m := AddRoots(s, strict, source, front);
      if m.Ok? && last.Some? && CreateNode(last.value, source).Ok? {
        JoinCounts(m.value, strict, [], CreateNode(last.value, source).value, [|m.value.nodes|]);
      }
    }
  }

  lemma InsertOneCounts(s: State, strict: bool, source: string, target: Path, entry: Option<Patch>)
    requires Counted(s) && Target(s.nodes, target)
    ensures forall r :: InsertOne(s, strict, source, target, entry) == Ok(r) ==> Counted(r.0)
  {
    hide CreateNode, IndexNode;
    if entry.Some? {
      if entry.value.id != "" && entry.value.id in s.index {
        RepeatsMore(s.warnings, Skipped(source, entry.value));
      } else if CreateNode(entry.value, source).Ok? {
        hide Counted;
        JoinCounts(s, strict, target, CreateNode(entry.value, source).value, target + [|KidsAt(s.nodes, target)|]);
      }
    }
  }

  lemma {:induction false} InsertAllCounts(s: State, strict: bool, source: string, target: Path,
      entries: seq<Option<Patch>>)
    requires Counted(s) && Target(s.nodes, target)
    ensures forall r :: InsertAll(s, strict, source, target, entries) == Ok(r) ==> Counted(r.0)
  {
    hide Counted, InsertOne;
    if entries != [] {
      var front, last := entries[..|entries| - 1], entries[|entries| - 1];
      InsertAllCounts(s, strict, source, target, front);
      var m := InsertAll(s, strict, source, target, front);
      if m.Ok? {
        InsertAllGrown(s, strict, source, target, front);
        TargetKept(s.nodes, m.value.0.nodes, target);
        InsertOneCounts(m.value.0, strict, source, target, last);
      }
    }
  }

  lemma ReindexCounts(s: State, any: bool)
    requires Counted(s) && Keyed(s)
    ensures Counted(Reindexed(s, any))
  {
    if any { IndexedKeyed(s.(index := Rebuilt(s.nodes))); }
  }

  lemma {:induction false} ApplyPatchCounts(s: State, strict: bool, source: string, target: Path, entry: Option<Patch>)
    requires Indexed(s) && Counted(s) && Target(s.nodes, target)
    ensures forall s' :: ApplyPatch(s, strict, source, target, entry) == Ok(s') ==> Counted(s')
    decreases entry, 1
  {
    hide Indexed, Keyed, AddAll, Nodes, IdsIn, Reindexed;
    IndexedKeyed(s);
    if entry.Some? {
      var p := entry.value;
      if p.insert != [] {
        InsertAllCounts(s, strict, source, target, p.insert);
        InsertAllHear(s, strict, source, target, p.insert, "");
        var r := InsertAll(s, strict, source, target, p.insert);
        if r.Ok? {
          assert Hears(s, r.value.0, "", KnownAll(s.index.Keys, source, p.insert), []);
          ReindexCounts(r.value.0, r.value.1);
        }
      } else if p.id !in s.index {
        RepeatsMore(s.warnings, Unmatched(source, p));
      } else {
        HitKeepsIndex(s, source, p);
        var at := s.index[p.id];
        MergeSameIds(s.nodes, at, p, source);
        SameIdsCount(s.nodes, MergeAt(s.nodes, at, p, source));
        ApplyPatchesCount(s.(nodes := MergeAt(s.nodes, at, p, source), hits := s.hits + [Hit(at, source, p)]), strict,
            source, at, p.plugins);
      }
    }
  }

  lemma {:induction false} ApplyPatchesCount(s: State, strict: bool, source: string, target: Path,
      entries: seq<Option<Patch>>)
    requires Indexed(s) && Counted(s) && Target(s.nodes, target)
    ensures forall s' :: ApplyPatches(s, strict, source, target, entries) == Ok(s') ==> Counted(s')
    decreases entries, 0
  {
    hide Indexed, Counted;
    if entries != [] {
      var front, last := entries[..|entries| - 1], entries[|entries| - 1];
      ApplyPatchesCount(s, strict, source, target, front);
      var m := ApplyPatches(s, strict, source, target, front);
      if m.Ok? {
        ApplyPatchesGrown(s, strict, source, target, front);
        ApplyPatchesIndexed(s, strict, source, target, front);
        TargetKept(s.nodes, m.value.nodes, target);
        ApplyPatchCounts(m.value, strict, source, target, last);
      }
    }
  }

  lemma {:induction false} EntriesCount(s: State, strict: bool, layer: Layer, entries: seq<Option<Patch>>)
    requires Indexed(s) && Counted(s)
    ensures forall s' :: ApplyEntries(s, strict, layer, entries) == Ok(s') ==> Counted(s')
  {
    hide Indexed, Counted, ApplyPatch, AddRoots;
    if entries != [] {
      var front, last := entries[..|entries| - 1], entries[|entries| - 1];
      EntriesCount(s, strict, layer, front);
      var m := ApplyEntries(s, strict, layer, front);
      if m.Ok? {
        EntriesIndexed(s, strict, layer, front);
        if layer.patch { ApplyPatchCounts(m.value, strict, layer.title, [], last); }
        else if last.Some? { AddRootsCount(m.value, strict, layer.title, BaseEntries(last)); }
      }
    }
  }

  lemma {:induction false} LayersCount(layers: seq<Layer>, strict: bool)
    ensures forall s :: ApplyLayers(layers, strict) == Ok(s) ==> Counted(s)
  {
    if layers != [] {
      hide Indexed, Counted, ApplyEntries;
      var front, last := layers[..|layers| - 1], layers[|layers| - 1];
      LayersCount(front, strict);
      LayersIndexed(front, strict);
      if ApplyLayers(front, strict).Ok? { EntriesCount(ApplyLayers(front, strict).value, strict, last, last.entries); }
    }
  }

  lemma {:induction false} CheckNodeRepeats(s: State, strict: bool, t: Tree)
    ensures forall s' :: CheckNode(s, strict, t) == Ok(s') ==> Repeats(s'.warnings) == Repeats(s.warnings)
    decreases t, 1
  {
    RepeatsMore(s.warnings, StrayKids(t.data));
    CheckAllRepeats(s, strict, t.kids);
    CheckAllRepeats(s.(warnings := s.warnings + [StrayKids(t.data)]), strict, t.kids);
  }

  lemma {:induction false} CheckAllRepeats(s: State, strict: bool, nodes: seq<Tree>)
    ensures forall s' :: CheckAll(s, strict, nodes) == Ok(s') ==> Repeats(s'.warnings) == Repeats(s.warnings)
    decreases nodes, 0
  {
    if nodes != [] {
      var k := |nodes| - 1;
      CheckAllRepeats(s, strict, nodes[..k]);
      if CheckAll(s, strict, nodes[..k]).Ok? {
        CheckNodeRepeats(CheckAll(s, strict, nodes[..k]).value, strict, nodes[k]);
      }
    }
  }

  /** The nodes of a composed forest that carry an id are the one in the index and as many more as the warnings
      report. */
  lemma RepeatsReported(layers: seq<Layer>, strict: bool)
    requires Compose(layers, strict).Ok?
    ensures var s := Compose(layers, strict).value;
      Ids(s.nodes) == multiset(s.index.Keys) + Repeats(s.warnings)
  {
    LayersCount(layers, strict);
    var s := ApplyLayers(layers, strict).value;
    CheckAllKeeps(s, strict, s.nodes);
    CheckAllRepeats(s, strict, s.nodes);
  }

  /** A strict composition gives every node with an id one of its own. */
  lemma StrictIdsUnique(layers: seq<Layer>, id: string)
    requires Compose(layers, true).Ok?
    ensures Ids(Compose(layers, true).value.nodes)[id] <= 1
  {
    hide Compose, Ids;
    StrictRefines(layers);
    RepeatsReported(layers, true);
  }
}
