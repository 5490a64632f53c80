/** Which layer a field's value comes from (loader/loader.go). From the layers alone, without composing them, one
    can read off the ordered list of the patches that address an id; the node with that id holds what its entry
    declared, overridden by that list, and so the last layer that mentions a field decides it. */
module LastWriter {
  import opened Options
  import opened Layers
  import opened Composition
  import opened Conservation
  import opened Provenance

  // ----- reading the layers -----

  function IdsIn(ds: multiset<Data>): set<string> {
    set d | d in ds && d.id != "" :: d.id
  }

  /** The ids there are after an inserted entry: an entry whose own id is taken is skipped. */
  function KnownOne(known: set<string>, source: string, entry: Option<Patch>): set<string> {
    if entry.None? || (entry.value.id != "" && entry.value.id in known) then known
        else known + IdsIn(Declares(entry.value, source))
  }

  function KnownAll(known: set<string>, source: string, entries: seq<Option<Patch>>): set<string> {
    if entries == [] then known
        else KnownOne(KnownAll(known, source, entries[..|entries| - 1]), source, entries[|entries| - 1])
  }

  /** After an entry of a patch layer: below a patch that matches nothing, nothing happens. */
  function Known(known: set<string>, source: string, entry: Option<Patch>): set<string>
    decreases entry, 1
  {
    if entry.None? then known
    else if entry.value.insert != [] then KnownAll(known, source, entry.value.insert)
    else if entry.value.id !in known then known
    else KnownPatches(known, source, entry.value.plugins)
  }

  function KnownPatches(known: set<string>, source: string, entries: seq<Option<Patch>>): set<string>
    decreases entries, 0
  {
    if entries == [] then known
        else Known(KnownPatches(known, source, entries[..|entries| - 1]), source, entries[|entries| - 1])
  }

  /** A patch of a layer. */
  datatype Mention = Mention(patch: Patch, source: string)

  /** The patches within one entry that address `x`, in order: none inside an insertion, and none below a patch
      that matches nothing. */
  function Addressed(x: string, known: set<string>, source: string, entry: Option<Patch>): seq<Mention>
    decreases entry, 1
  {
    if entry.None? || entry.value.insert != [] || entry.value.id !in known then []
    else
      (if entry.value.id == x then [Mention(entry.value, source)]
          else []) + AddressedAll(x, known, source, entry.value.plugins)
  }

  function AddressedAll(x: string, known: set<string>, source: string, entries: seq<Option<Patch>>): seq<Mention>
    decreases entries, 0
  {
    if entries == [] then []
    else
      var front := entries[..|entries| - 1];
      AddressedAll(x, known, source, front) + Addressed(x, KnownPatches(known, source, front), source,
          entries[|entries| - 1])
  }

  function KnownEntries(known: set<string>, layer: Layer, entries: seq<Option<Patch>>): set<string> {
    if entries == [] then known
    else
      var before := KnownEntries(known, layer, entries[..|entries| - 1]);
      if layer.patch then Known(before, layer.title, entries[|entries| - 1])
      else before + IdsIn(DeclaredIn(layer, entries[|entries| - 1]))
  }

  function AddressedIn(x: string, known: set<string>, layer: Layer, entries: seq<Option<Patch>>): seq<Mention> {
    if entries == [] || !layer.patch then []
    else
      var front := entries[..|entries| - 1];
      AddressedIn(x, known, layer, front) + Addressed(x, KnownEntries(known, layer, front), layer.title,
          entries[|entries| - 1])
  }

  /** The ids the layers leave. */
  function KnownBy(layers: seq<Layer>): set<string> {
    if layers == [] then {}
        else KnownEntries(KnownBy(layers[..|layers| - 1]), layers[|layers| - 1], layers[|layers| - 1].entries)
  }

  /** The patches of `rest`, applied after `front`, that address `x`, in the order of the layers. */
  function Overrides(x: string, front: seq<Layer>, rest: seq<Layer>): seq<Mention> {
    if rest == [] then []
    else
      var before, last := rest[..|rest| - 1], rest[|rest| - 1];
      Overrides(x, front, before) + AddressedIn(x, KnownBy(front + before), last, last.entries)
  }

  // ----- the ids of a forest -----

  lemma {:induction false} AddTreeKeys(index: map<string, Path>, t: Tree, at: Path)
    ensures AddTree(index, t, at).Keys == index.Keys + IdsIn(NodesIn(t))
    decreases t, 1
  {
    var own := if t.data.id != "" && t.data.id !in index then index[t.data.id := at] else index;
    OwnId(index, t.data, at, own);
    AddAllKeys(own, t.kids, at);
    IdsPlus(multiset{t.data}, Nodes(t.kids));
    hide IdsIn;
  }

  lemma OwnId(index: map<string, Path>, d: Data, at: Path, own: map<string, Path>)
    requires own == if d.id != "" && d.id !in index then index[d.id := at] else index
    ensures own.Keys == index.Keys + IdsIn(multiset{d})
  {}

  lemma {:induction false} AddAllKeys(index: map<string, Path>, nodes: seq<Tree>, at: Path)
    ensures AddAll(index, nodes, at).Keys == index.Keys + IdsIn(Nodes(nodes))
    decreases nodes, 0
  {
    if nodes != [] {
      var k := |nodes| - 1;
      AddAllKeys(index, nodes[..k], at);
      AddTreeKeys(AddAll(index, nodes[..k], at), nodes[k], at + [k]);
      IdsPlus(Nodes(nodes[..k]), NodesIn(nodes[k]));
    }
  }

  lemma IdsPlus(a: multiset<Data>, b: multiset<Data>)
    ensures IdsIn(a + b) == IdsIn(a) + IdsIn(b)
  {
    forall id | id in IdsIn(a) + IdsIn(b) ensures id in IdsIn(a + b) {
      var d :| (d in a || d in b) && d.id == id && id != "";
      assert d in a + b;
    }
  }

  /** The index has the ids of the forest. */
  predicate Keyed(s: State) {
    s.index.Keys == IdsIn(Nodes(s.nodes))
  }

  lemma IndexedKeyed(s: State)
    requires Indexed(s)
    ensures Keyed(s)
  {
    AddAllKeys(map[], s.nodes, []);
  }

  // ----- what was heard -----

  /** The hits whose patch carries the id `x`. */
  function Heard(hits: seq<Hit>, x: string): seq<Mention> {
    if hits == [] then []
    else
      var last := hits[|hits| - 1];
      Heard(hits[..|hits| - 1], x) + (if last.patch.id == x then [Mention(last.patch, last.source)] else [])
  }

  lemma HeardMore(hits: seq<Hit>, h: Hit, x: string)
    ensures Heard(hits + [h], x) == Heard(hits, x) + (if h.patch.id == x then [Mention(h.patch, h.source)] else [])
  {
    assert (hits + [h])[..|hits|] == hits;
  }

  /** A step that leaves the ids `known` and hits nodes with the patches `said` for `x`. */
  predicate Hears(s: State, s': State, x: string, known: set<string>, said: seq<Mention>) {
    Keyed(s') && s'.index.Keys == known && Heard(s'.hits, x) == Heard(s.hits, x) + said
  }

  /** The same for what a step of the composer returns: an error promises nothing. */
  ghost predicate Heeds(s: State, r: Result<State>, x: string, known: set<string>, said: seq<Mention>) {
    forall s' :: r == Ok(s') ==> Hears(s, s', x, known, said)
  }

  /** And for what an insertion returns. */
  ghost predicate HeedsPair(s: State, r: Result<(State, bool)>, x: string, known: set<string>, said: seq<Mention>) {
    forall s' :: r.Ok? && r.value.0 == s' ==> Hears(s, s', x, known, said)
  }

  lemma AddRootHears(s: State, strict: bool, source: string, entry: Option<Patch>, x: string)
    requires Keyed(s)
    ensures Heeds(s, AddRoot(s, strict, source, entry), x, s.index.Keys + IdsIn(DeclaresOne(entry, source)), [])
  {
    if entry.Some? && CreateNode(entry.value, source).Ok? {
      var t := CreateNode(entry.value, source).value;
      Grows(s, strict, [], t, [|s.nodes|]);
      CreateDeclares(entry.value, source);
    }
  }

  /** A created tree brings its ids. */
  lemma Grows(s: State, strict: bool, target: Path, t: Tree, at: Path)
    requires Keyed(s) && Target(s.nodes, target)
    ensures var r := IndexNode(s.(nodes := AppendAt(s.nodes, target, t)), strict, t, at);
      r.Ok? ==> Keyed(r.value) && r.value.index.Keys == s.index.Keys + IdsIn(NodesIn(t)) && r.value.hits == s.hits
  {
    IndexNodeAdds(s.(nodes := AppendAt(s.nodes, target, t)), strict, t, at);
    AddTreeKeys(s.index, t, at);
    AppendNodes(s.nodes, target, t);
    IdsPlus(Nodes(s.nodes), NodesIn(t));
  }

  lemma {:induction false} AddRootsHear(s: State, strict: bool, source: string, entries: seq<Option<Patch>>, x: string)
    requires Keyed(s)
    ensures Heeds(s, AddRoots(s, strict, source, entries), x, s.index.Keys + IdsIn(DeclaresAll(entries, source)), [])
  {
    if entries != [] {
      var front, last := entries[..|entries| - 1], entries[|entries| - 1];
      AddRootsHear(s, strict, source, front, x);
      var m := AddRoots(s, strict, source, front);
      if m.Ok? {
        AddRootHears(m.value, strict, source, last, x);
        IdsPlus(DeclaresAll(front, source), DeclaresOne(last, source));
      }
    }
  }

  lemma InsertOneHears(s: State, strict: bool, source: string, target: Path, entry: Option<Patch>, x: string)
    requires Keyed(s) && Target(s.nodes, target)
    ensures HeedsPair(s, InsertOne(s, strict, source, target, entry), x, KnownOne(s.index.Keys, source, entry), [])
  {
    if entry.Some? && !(entry.value.id != "" && entry.value.id in s.index) && CreateNode(entry.value, source).Ok? {
      var t := CreateNode(entry.value, source).value;
      Grows(s, strict, target, t, target + [|KidsAt(s.nodes, target)|]);
      CreateDeclares(entry.value, source);
    }
  }

  lemma {:induction false} InsertAllHear(s: State, strict: bool, source: string, target: Path,
      entries: seq<Option<Patch>>, x: string)
    requires Keyed(s) && Target(s.nodes, target)
    ensures HeedsPair(s, InsertAll(s, strict, source, target, entries), x, KnownAll(s.index.Keys, source, entries), [])
  {
    if entries != [] {
      var front, last := entries[..|entries| - 1], entries[|entries| - 1];
      InsertAllHear(s, strict, source, target, front, x);
      var m := InsertAll(s, strict, source, target, front);
      if m.Ok? {
        assert Hears(s, m.value.0, x, KnownAll(s.index.Keys, source, front), []);
        InsertAllGrown(s, strict, source, target, front);
        TargetKept(s.nodes, m.value.0.nodes, target);
        InsertOneHears(m.value.0, strict, source, target, last, x);
        var r := InsertAll(s, strict, source, target, entries);
        if r.Ok? { assert Hears(m.value.0, r.value.0, x, KnownAll(s.index.Keys, source, entries), []); }
      }
    }
  }

  lemma {:induction false} ApplyPatchHears(s: State, strict: bool, source: string, target: Path, entry: Option<Patch>,
      x: string)
    requires Indexed(s) && Target(s.nodes, target)
    ensures Heeds(s, ApplyPatch(s, strict, source, target, entry), x, Known(s.index.Keys, source, entry),
      Addressed(x, s.index.Keys, source, entry))
    decreases entry, 1
  {
    hide Nodes, IdsIn, AddAll, Heard;
    IndexedKeyed(s);
    if entry.Some? {
      var p := entry.value;
      if p.insert != [] {
        InsertAllHear(s, strict, source, target, p.insert, x);
        var r := InsertAll(s, strict, source, target, p.insert);
        if r.Ok? {
          assert Hears(s, r.value.0, x, KnownAll(s.index.Keys, source, p.insert), []);
          AddAllKeys(map[], r.value.0.nodes, []);
        }
      } else if p.id != "" && p.id in s.index {
        var at := s.index[p.id];
        var s' := s.(nodes := MergeAt(s.nodes, at, p, source), hits := s.hits + [Hit(at, source, p)]);
        IndexedTarget(s, p.id);
        MergeSameIds(s.nodes, at, p, source);
        SameIndex(map[], s.nodes, s'.nodes, []);
        MergeGrown(s.nodes, at, p, source);
        TargetKept(s.nodes, s'.nodes, at);
        HeardMore(s.hits, Hit(at, source, p), x);
        ApplyPatchesHear(s', strict, source, at, p.plugins, x);
      }
    }
  }

  lemma {:induction false} ApplyPatchesHear(s: State, strict: bool, source: string, target: Path,
      entries: seq<Option<Patch>>, x: string)
    requires Indexed(s) && Target(s.nodes, target)
    ensures Heeds(s, ApplyPatches(s, strict, source, target, entries), x, KnownPatches(s.index.Keys, source, entries),
            AddressedAll(x, s.index.Keys, source, entries))
    decreases entries, 0
  {
    hide Nodes, IdsIn, AddAll, Heard;
    IndexedKeyed(s);
    if entries != [] {
      var front, last := entries[..|entries| - 1], entries[|entries| - 1];
      ApplyPatchesHear(s, strict, source, target, front, x);
      var m := ApplyPatches(s, strict, source, target, front);
      if m.Ok? {
        ApplyPatchesGrown(s, strict, source, target, front);
        ApplyPatchesIndexed(s, strict, source, target, front);
        TargetKept(s.nodes, m.value.nodes, target);
        ApplyPatchHears(m.value, strict, source, target, last, x);
      }
    }
  }

  lemma {:induction false} EntriesHear(s: State, strict: bool, layer: Layer, entries: seq<Option<Patch>>, x: string)
    requires Indexed(s)
    ensures Heeds(s, ApplyEntries(s, strict, layer, entries), x, KnownEntries(s.index.Keys, layer, entries),
            AddressedIn(x, s.index.Keys, layer, entries))
  {
    hide Nodes, IdsIn, AddAll, Heard;
    IndexedKeyed(s);
    if entries != [] {
      var front, last := entries[..|entries| - 1], entries[|entries| - 1];
      EntriesHear(s, strict, layer, front, x);
      EntriesIndexed(s, strict, layer, front);
      var m := ApplyEntries(s, strict, layer, front);
      if m.Ok? {
        if layer.patch { ApplyPatchHears(m.value, strict, layer.title, [], last, x); }
        else if last.Some? { AddRootsHear(m.value, strict, layer.title, BaseEntries(last), x); }
        else { NoIds(m.value.index.Keys); }
      }
    }
  }

  lemma NoIds(known: set<string>)
    ensures known + IdsIn(multiset{}) == known
  {}

  lemma {:induction false} LayersKnown(layers: seq<Layer>, strict: bool)
    ensures ApplyLayers(layers, strict).Ok? ==> ApplyLayers(layers, strict).value.index.Keys == KnownBy(layers)
  {
    if layers != [] {
      var front, last := layers[..|layers| - 1], layers[|layers| - 1];
      LayersKnown(front, strict);
      LayersIndexed(front, strict);
      if ApplyLayers(front, strict).Ok? {
        EntriesHear(ApplyLayers(front, strict).value, strict, last, last.entries, "");
      }
    }
  }

  // ----- later layers -----

  /** The last layer of a composition. */
  lemma LastStep(front: seq<Layer>, rest: seq<Layer>, strict: bool)
    requires rest != [] && ApplyLayers(front + rest, strict).Ok?
    ensures var before, last := rest[..|rest| - 1], rest[|rest| - 1];
      && ApplyLayers(front + before, strict).Ok? && Indexed(ApplyLayers(front + before, strict).value)
      && ApplyLayers(front + before, strict).value.index.Keys == KnownBy(front + before)
      && ApplyEntries(ApplyLayers(front + before, strict).value, strict, last, last.entries) ==
          ApplyLayers(front + rest, strict)
  {
    hide ApplyEntries, Indexed, KnownBy;
    var before, last := rest[..|rest| - 1], rest[|rest| - 1];
    assert (front + rest)[..|front + rest| - 1] == front + before && (front + rest)[|front + rest| - 1] == last;
    LayersIndexed(front + before, strict);
    LayersKnown(front + before, strict);
  }

  /** Later layers hit nodes that carry `x` with exactly the patches that address `x`, in order. */
  lemma {:induction false} LaterHeard(front: seq<Layer>, rest: seq<Layer>, strict: bool, x: string)
    requires ApplyLayers(front + rest, strict).Ok?
    ensures ApplyLayers(front, strict).Ok?
    ensures Heard(ApplyLayers(front + rest, strict).value.hits, x)
      == Heard(ApplyLayers(front, strict).value.hits, x) + Overrides(x, front, rest)
  {
    hide ApplyLayers, ApplyEntries, Heard, Indexed, KnownBy, KnownEntries, AddressedIn, Keyed;
    if rest == [] {
      assert front + rest == front;
    } else {
      var before, last := rest[..|rest| - 1], rest[|rest| - 1];
      LastStep(front, rest, strict);
      LaterHeard(front, before, strict, x);
      EntriesHear(ApplyLayers(front + before, strict).value, strict, last, last.entries, x);
    }
  }

  /** They track every node that was there. */
  lemma {:induction false} LaterLayers(front: seq<Layer>, rest: seq<Layer>, strict: bool)
    returns (born: seq<Tree>, born': seq<Tree>, declared: multiset<Data>)
    requires ApplyLayers(front + rest, strict).Ok?
    ensures ApplyLayers(front, strict).Ok? && Tracked(ApplyLayers(front, strict).value, born)
    ensures Follows(ApplyLayers(front, strict).value, born, ApplyLayers(front + rest, strict).value, born', declared)
  {
    hide ApplyLayers, ApplyEntries, Tracked, Follows, Indexed, KnownBy;
    if rest == [] {
      assert front + rest == front;
      born := LayersTracked(front, strict);
      born', declared := born, multiset{};
      FollowsKnown(EMPTY, [], ApplyLayers(front, strict).value, born, DeclaredBy(front));
      FollowsRefl(ApplyLayers(front, strict).value, born);
    } else {
      var before, last := rest[..|rest| - 1], rest[|rest| - 1];
      LastStep(front, rest, strict);
      var mid, d;
      born, mid, d := LaterLayers(front, before, strict);
      var s, m, end := ApplyLayers(front, strict).value, ApplyLayers(front + before, strict).value,
          ApplyLayers(front + rest, strict).value;
      FollowsKnown(s, born, m, mid, d);
      born' := EntriesTracked(m, mid, strict, last, last.entries);
      FollowsTrans(s, born, m, mid, d, end, born', DeclaredAll(last, last.entries));
      declared := d + DeclaredAll(last, last.entries);
    }
  }

  // ----- the last mention of a field wins -----

  /** Patches applied in order. */
  function Overridden(d: Data, ms: seq<Mention>): Data {
    if ms == [] then d else Merge(Overridden(d, ms[..|ms| - 1]), ms[|ms| - 1].patch, ms[|ms| - 1].source)
  }

  /** The last patch that mentions something. */
  function LastOf(ms: seq<Mention>, mentions: Patch -> bool): Option<Patch> {
    if ms == [] then None
    else if mentions(ms[|ms| - 1].patch) then Some(ms[|ms| - 1].patch)
    else LastOf(ms[..|ms| - 1], mentions)
  }

  function Sources(ms: seq<Mention>): seq<string> {
    if ms == [] then [] else Sources(ms[..|ms| - 1]) + [ms[|ms| - 1].source]
  }

  function Last<T>(was: T, last: Option<Patch>, field: Patch -> Option<T>): T {
    if last.Some? then Or(field(last.value), was) else was
  }

  /** Every field is what the last of the patches that mentions it says, or what it was; `patched` grows by the
      layers of the patches, in order. */
  function LastWord(was: Data, ms: seq<Mention>): Data {
    var config := LastOf(ms, (p: Patch) => p.config.Some?);
    Data(was.id,
         Last(was.name, LastOf(ms, (p: Patch) => p.name.Some?), (p: Patch) => p.name),
         Last(was.title, LastOf(ms, (p: Patch) => p.title.Some?), (p: Patch) => p.title),
         Last(was.disabled, LastOf(ms, (p: Patch) => p.disabled.Some?), (p: Patch) => p.disabled),
         Last(was.group, LastOf(ms, (p: Patch) => p.group.Some?), (p: Patch) => p.group),
         Last(was.inject, LastOf(ms, (p: Patch) => p.inject.Some?), (p: Patch) => p.inject),
         if config.Some? then config.value.config else was.config,
         was.source,
         was.patched + Sources(ms))
  }

  lemma {:induction false} LastMentionWins(d: Data, ms: seq<Mention>)
    ensures Overridden(d, ms) == LastWord(d, ms)
  {
    if ms != [] { LastMentionWins(d, ms[..|ms| - 1]); }
  }

  // ----- one node per id -----

  /** At most one node of the forest carries the id. */
  ghost predicate Unique(nodes: seq<Tree>, x: string) {
    forall p, q :: Carries(nodes, p, x) && Carries(nodes, q, x) ==> p == q
  }

  predicate Carries(nodes: seq<Tree>, p: Path, x: string) {
    At(nodes, p).Some? && At(nodes, p).value.data.id == x
  }

  /** Where the hits on a node are those with its id, replaying them is applying the patches. */
  lemma {:induction false} ReplayHeard(d: Data, hits: seq<Hit>, p: Path, x: string)
    requires forall i :: 0 <= i < |hits| ==> (hits[i].at == p <==> hits[i].patch.id == x)
    ensures Replay(d, hits, p) == Overridden(d, Heard(hits, x))
  {
    if hits != [] {
      var front, last := hits[..|hits| - 1], hits[|hits| - 1];
      ReplayHeard(d, front, p, x);
      if last.patch.id == x { assert Heard(hits, x)[..|Heard(hits, x)| - 1] == Heard(front, x); }
      else { assert Heard(hits, x) == Heard(front, x); }
    }
  }

  /** The hits of a composed forest on the only node with an id are those with that id. */
  lemma HitsOfNode(nodes: seq<Tree>, hits: seq<Hit>, p: Path)
    requires HitsAddress(nodes, hits) && At(nodes, p).Some? && Unique(nodes, At(nodes, p).value.data.id)
    ensures forall i :: 0 <= i < |hits| ==> (hits[i].at == p <==> hits[i].patch.id == At(nodes, p).value.data.id)
  {
    var x := At(nodes, p).value.data.id;
    forall i | 0 <= i < |hits| ensures hits[i].at == p <==> hits[i].patch.id == x {
      assert Carries(nodes, hits[i].at, hits[i].patch.id) && Carries(nodes, p, x);
    }
  }

  lemma {:induction false} OverriddenConcat(d: Data, a: seq<Mention>, b: seq<Mention>)
    ensures Overridden(d, a + b) == Overridden(Overridden(d, a), b)
  {
    if b == [] {
      assert a + b == a;
    } else {
      assert (a + b)[..|a + b| - 1] == a + b[..|b| - 1];
      OverriddenConcat(d, a, b[..|b| - 1]);
    }
  }

  lemma {:induction false} AtNodes(nodes: seq<Tree>, p: Path)
    requires At(nodes, p).Some?
    ensures At(nodes, p).value.data in Nodes(nodes)
    decreases p
  {
    var t := nodes[p[0]];
    if |p| > 1 { AtNodes(t.kids, p[1..]); }
    assert At(nodes, p).value.data in NodesIn(t);
    NodeAmong(nodes, p[0], At(nodes, p).value.data);
  }

  lemma {:induction false} NodeAmong(nodes: seq<Tree>, i: nat, d: Data)
    requires i < |nodes| && d in NodesIn(nodes[i])
    ensures d in Nodes(nodes)
  {
    if i < |nodes| - 1 { NodeAmong(nodes[..|nodes| - 1], i, d); }
  }

  // ----- the two results -----

  /** A node that is the only one with its id holds what one declared entry says, overridden by the patches of the
      layers that address the id. */
  lemma NodeIsItsEntry(layers: seq<Layer>, strict: bool, p: Path) returns (d: Data)
    requires Compose(layers, strict).Ok? && At(Compose(layers, strict).value.nodes, p).Some?
    requires Unique(Compose(layers, strict).value.nodes, At(Compose(layers, strict).value.nodes, p).value.data.id)
    ensures var now := At(Compose(layers, strict).value.nodes, p).value.data;
      d in DeclaredBy(layers) && d.id == now.id && now == Overridden(d, Overrides(now.id, [], layers))
  {
    hide ApplyLayers, CheckAll, Overrides, Overridden, Heard, Nodes, Lost, DeclaredBy, Replay, Unique, SameIds;
    var end := ApplyLayers(layers, strict).value;
    CheckAllKeeps(end, strict, end.nodes);
    var x := At(end.nodes, p).value.data.id;
    assert [] + layers == layers;
    LaterHeard([], layers, strict, x);
    NothingHeard(strict, x, Overrides(x, [], layers));
    var all := LayersTracked(layers, strict);
    d := At(all, p).value.data;
    AtNodes(all, p);
    SameIdsAt(all, end.nodes, p);
    HitsOfNode(end.nodes, end.hits, p);
    ReplayHeard(d, end.hits, p, x);
    AmongDeclared(d, Nodes(all), Lost(end.warnings), Lost(EMPTY.warnings), DeclaredBy(layers));
  }

  lemma NothingHeard(strict: bool, x: string, ms: seq<Mention>)
    ensures ApplyLayers([], strict).Ok? && Heard(ApplyLayers([], strict).value.hits, x) + ms == ms
  {}

  lemma AmongDeclared(d: Data, nodes: multiset<Data>, lost: multiset<Data>, none: multiset<Data>,
      declared: multiset<Data>)
    requires d in nodes && nodes + lost == Nodes([]) + none + declared && none == Lost([])
    ensures d in declared
  {
    assert d in nodes + lost;
  }

  /** The node at a path after more layers, when it is the only one with its id: every field has the value of the
      last of those layers' patches that address the id and mention the field, and `patched` grew by exactly the
      layers that address it, in order. */
  lemma LastLayerWins(front: seq<Layer>, rest: seq<Layer>, strict: bool, p: Path)
    requires Compose(front + rest, strict).Ok? && ApplyLayers(front, strict).Ok?
    requires At(ApplyLayers(front, strict).value.nodes, p).Some?
    requires Unique(Compose(front + rest, strict).value.nodes,
      At(ApplyLayers(front, strict).value.nodes, p).value.data.id)
    ensures var was, now := At(ApplyLayers(front, strict).value.nodes, p).value.data,
      At(Compose(front + rest, strict).value.nodes, p);
      now.Some? && now.value.data == LastWord(was, Overrides(was.id, front, rest))
  {
    hide ApplyLayers, CheckAll, Overrides, Overridden, Heard, Tracked, Follows, Unique, LastWord;
    var s, end := ApplyLayers(front, strict).value, ApplyLayers(front + rest, strict).value;
    CheckAllKeeps(end, strict, end.nodes);
    var was := At(s.nodes, p).value.data;
    LaterHeard(front, rest, strict, was.id);
    var born, born', declared := LaterLayers(front, rest, strict);
    Later(s, born, end, born', declared, p, Overrides(was.id, front, rest));
    LastMentionWins(was, Overrides(was.id, front, rest));
  }

  lemma Later(s: State, born: seq<Tree>, end: State, born': seq<Tree>, declared: multiset<Data>, p: Path,
      ms: seq<Mention>)
    requires Tracked(s, born) && Follows(s, born, end, born', declared) && At(s.nodes, p).Some?
    requires Unique(end.nodes, At(s.nodes, p).value.data.id)
    requires Heard(end.hits, At(s.nodes, p).value.data.id) == Heard(s.hits, At(s.nodes, p).value.data.id) + ms
    ensures At(end.nodes, p).Some? && At(end.nodes, p).value.data == Overridden(At(s.nodes, p).value.data, ms)
  {
    hide Replay, Heard, Overridden, SameIds, Nodes, Lost;
    var d, x := At(born, p).value.data, At(s.nodes, p).value.data.id;
    SameIdsAt(born, s.nodes, p);
    SameIdsAt(born', end.nodes, p);
    HitsOfNode(end.nodes, end.hits, p);
    ReplayHeard(d, end.hits, p, x);
    forall i | 0 <= i < |s.hits| ensures s.hits[i].at == p <==> s.hits[i].patch.id == x {
      assert s.hits[i] == end.hits[i];
    }
    ReplayHeard(d, s.hits, p, x);
    OverriddenConcat(d, Heard(s.hits, x), ms);
  }
}
