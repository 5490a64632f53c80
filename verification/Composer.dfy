/** The composer as loader/loader.go runs it: loops that mutate the tree, the index and the warnings, each
    proved to compute what module Layers says. */
module Composer {
  import opened Options
  import Layers
  import opened Composition

  type Patch = Layers.Patch
  type Layer = Layers.Layer
  type Tree = Layers.Tree
  type Path = Layers.Path
  type Error = Layers.Error
  type State = Layers.State

  // ----- an error ends a loop and is the loop's result -----

  lemma {:induction false} IndexAllStops(s: State, strict: bool, list: seq<Tree>, at: Path, i: nat)
    requires i <= |list| && Layers.IndexAll(s, strict, list[..i], at).Err?
    ensures Layers.IndexAll(s, strict, list, at) == Layers.IndexAll(s, strict, list[..i], at)
  {
    if i < |list| {
      var front := list[..|list| - 1];
      assert front[..i] == list[..i];
      IndexAllStops(s, strict, front, at, i);
    } else {
      assert list[..i] == list;
    }
  }

  lemma {:induction false} CheckAllStops(s: State, strict: bool, list: seq<Tree>, i: nat)
    requires i <= |list| && Layers.CheckAll(s, strict, list[..i]).Err?
    ensures Layers.CheckAll(s, strict, list) == Layers.CheckAll(s, strict, list[..i])
  {
    if i < |list| {
      var front := list[..|list| - 1];
      assert front[..i] == list[..i];
      CheckAllStops(s, strict, front, i);
    } else {
      assert list[..i] == list;
    }
  }

  lemma {:induction false} CreateKidsStops(list: seq<Option<Patch>>, source: string, i: nat)
    requires i <= |list| && Layers.CreateKids(list[..i], source).Err?
    ensures Layers.CreateKids(list, source) == Layers.CreateKids(list[..i], source)
  {
    if i < |list| {
      var front := list[..|list| - 1];
      assert front[..i] == list[..i];
      CreateKidsStops(front, source, i);
    } else {
      assert list[..i] == list;
    }
  }

  lemma {:induction false} CreateInsertedStops(list: seq<Option<Patch>>, source: string, i: nat)
    requires i <= |list| && Layers.CreateInserted(list[..i], source).Err?
    ensures Layers.CreateInserted(list, source) == Layers.CreateInserted(list[..i], source)
  {
    if i < |list| {
      var front := list[..|list| - 1];
      assert front[..i] == list[..i];
      CreateInsertedStops(front, source, i);
    } else {
      assert list[..i] == list;
    }
  }

  lemma {:induction false} AddRootsStops(s: State, strict: bool, source: string, list: seq<Option<Patch>>, i: nat)
    requires i <= |list| && Layers.AddRoots(s, strict, source, list[..i]).Err?
    ensures Layers.AddRoots(s, strict, source, list) == Layers.AddRoots(s, strict, source, list[..i])
  {
    if i < |list| {
      var front := list[..|list| - 1];
      assert front[..i] == list[..i];
      AddRootsStops(s, strict, source, front, i);
    } else {
      assert list[..i] == list;
    }
  }

  lemma {:induction false} InsertAllStops(s: State, strict: bool, source: string, target: Path,
      list: seq<Option<Patch>>, i: nat)
    requires i <= |list| && Layers.InsertAll(s, strict, source, target, list[..i]).Err?
    ensures Layers.InsertAll(s, strict, source, target, list) == Layers.InsertAll(s, strict, source, target, list[..i])
  {
    if i < |list| {
      var front := list[..|list| - 1];
      assert front[..i] == list[..i];
      InsertAllStops(s, strict, source, target, front, i);
    } else {
      assert list[..i] == list;
    }
  }

  lemma {:induction false} ApplyPatchesStops(s: State, strict: bool, source: string, target: Path,
      list: seq<Option<Patch>>, i: nat)
    requires i <= |list| && Layers.ApplyPatches(s, strict, source, target, list[..i]).Err?
    ensures Layers.ApplyPatches(s, strict, source, target, list) == Layers.ApplyPatches(s, strict, source, target,
      list[..i])
  {
    if i < |list| {
      var front := list[..|list| - 1];
      assert front[..i] == list[..i];
      ApplyPatchesStops(s, strict, source, target, front, i);
    } else {
      assert list[..i] == list;
    }
  }

  lemma {:induction false} ApplyEntriesStops(s: State, strict: bool, layer: Layer, list: seq<Option<Patch>>, i: nat)
    requires i <= |list| && Layers.ApplyEntries(s, strict, layer, list[..i]).Err?
    ensures Layers.ApplyEntries(s, strict, layer, list) == Layers.ApplyEntries(s, strict, layer, list[..i])
  {
    if i < |list| {
      var front := list[..|list| - 1];
      assert front[..i] == list[..i];
      ApplyEntriesStops(s, strict, layer, front, i);
    } else {
      assert list[..i] == list;
    }
  }

  lemma {:induction false} ApplyLayersStops(list: seq<Layer>, strict: bool, i: nat)
    requires i <= |list| && Layers.ApplyLayers(list[..i], strict).Err?
    ensures Layers.ApplyLayers(list, strict) == Layers.ApplyLayers(list[..i], strict)
  {
    if i < |list| {
      var front := list[..|list| - 1];
      assert front[..i] == list[..i];
      ApplyLayersStops(front, strict, i);
    } else {
      assert list[..i] == list;
    }
  }

  /** A run that ended without an error left the specified state; one that failed, failed the same way. */
  predicate Agrees(err: Option<Error>, spec: Layers.Result<State>, now: State) {
    match spec
    case Err(e) => err == Some(e)
    case Ok(s) => err == None && now == s
  }

  method CreateNode(p: Patch, source: string) returns (r: Layers.Result<Tree>)
    ensures r == Layers.CreateNode(p, source)
    decreases p, 1
  {
    if p.id == "" && !Layers.Names(p) { return Layers.Err(Layers.Nameless); }
    var kids: seq<Tree> := [];
    var i := 0;
    while i < |p.plugins|
      invariant 0 <= i <= |p.plugins|
      invariant Layers.CreateKids(p.plugins[..i], source) == Layers.Ok(kids)
    {
      assert p.plugins[..i + 1][..i] == p.plugins[..i];
      var more := CreateKid(p.plugins[i], source);
      if more.Err? {
        CreateKidsStops(p.plugins, source, i + 1);
        return Layers.Err(more.error);
      }
      kids := kids + more.value;
      i := i + 1;
    }
    assert p.plugins[..i] == p.plugins;
    r := Layers.Ok(Layers.Tree(Layers.Created(p, source), kids));
  }

  method CreateKid(entry: Option<Patch>, source: string) returns (r: Layers.Result<seq<Tree>>)
    ensures r == Layers.CreateKid(entry, source)
    decreases entry, 3
  {
    if entry.None? { return Layers.Ok([]); }
    if entry.value.insert == [] {
      var node := CreateNode(entry.value, source);
      return if node.Err? then Layers.Err(node.error) else Layers.Ok([node.value]);
    }
    var inserted, kids: seq<Tree> := entry.value.insert, [];
    var i := 0;
    while i < |inserted|
      invariant 0 <= i <= |inserted|
      invariant Layers.CreateInserted(inserted[..i], source) == Layers.Ok(kids)
    {
      assert inserted[..i + 1][..i] == inserted[..i];
      if inserted[i].Some? {
        var node := CreateNode(inserted[i].value, source);
        if node.Err? {
          CreateInsertedStops(inserted, source, i + 1);
          return Layers.Err(node.error);
        }
        kids := kids + [node.value];
      } else {
        assert kids + [] == kids;
      }
      i := i + 1;
    }
    assert inserted[..i] == inserted;
    r := Layers.Ok(kids);
  }

  class TreeComposer {
    const strict: bool
    var nodes: seq<Tree>
    var index: map<string, Path>
    var warnings: seq<Layers.Warning>
    var hits: seq<Layers.Hit>

    function Now(): State
      reads this
    {
      Layers.State(nodes, index, warnings, hits)
    }

    constructor (strict: bool)
      ensures this.strict == strict && Now() == Layers.EMPTY
    {
      this.strict := strict;
      nodes, index, warnings, hits := [], map[], [], [];
    }

    /** A problem that is an error in strict mode and a warning otherwise. */
    method Report(w: Layers.Warning, e: Error) returns (err: Option<Error>)
      modifies this
      ensures Agrees(err, Layers.Warned(old(Now()), strict, w, e), Now())
    {
      if strict { return Some(e); }
      warnings := warnings + [w];
      err := None;
    }

    method IndexNode(t: Tree, at: Path) returns (err: Option<Error>)
      modifies this
      ensures Agrees(err, Layers.IndexNode(old(Now()), strict, t, at), Now())
      decreases t
    {
      if t.data.id != "" {
        if t.data.id in index {
          err := Report(Layers.Repeated(t.data.source, t.data.id), Layers.Duplicate(t.data.id));
          if err.Some? { return; }
        } else {
          index := index[t.data.id := at];
        }
      }
      ghost var s := Now();
      var i := 0;
      while i < |t.kids|
        invariant 0 <= i <= |t.kids|
        invariant Layers.IndexAll(s, strict, t.kids[..i], at) == Layers.Ok(Now())
      {
        assert t.kids[..i + 1][..i] == t.kids[..i];
        err := IndexNode(t.kids[i], at + [i]);
        if err.Some? {
          IndexAllStops(s, strict, t.kids, at, i + 1);
          return;
        }
        i := i + 1;
      }
      assert t.kids[..i] == t.kids;
      err := None;
    }

    /** `rebuildIndex`: the index becomes the first node of every id in depth-first order. */
    method RebuildIndex()
      modifies this
      ensures Now() == old(Now()).(index := Layers.Rebuilt(old(nodes)))
    {
      var fresh_ := Walk(map[], nodes, []);
      index := fresh_;
    }

    static method Walk(start: map<string, Path>, list: seq<Tree>, at: Path) returns (r: map<string, Path>)
      ensures r == Layers.AddAll(start, list, at)
      decreases list
    {
      r := start;
      var i := 0;
      while i < |list|
        invariant 0 <= i <= |list|
        invariant r == Layers.AddAll(start, list[..i], at)
      {
        assert list[..i + 1][..i] == list[..i];
        var node := list[i];
        if node.data.id != "" && node.data.id !in r { r := r[node.data.id := at + [i]]; }
        r := Walk(r, node.kids, at + [i]);
        i := i + 1;
      }
      assert list[..i] == list;
    }

    method ApplyBase(source: string, entry: Option<Patch>) returns (err: Option<Error>)
      modifies this
      ensures Agrees(err, Layers.ApplyBase(old(Now()), strict, source, entry), Now())
    {
      if entry.None? { return None; }
      var list := if entry.value.insert == [] then [entry] else entry.value.insert;
      ghost var s := Now();
      var i := 0;
      while i < |list|
        invariant 0 <= i <= |list|
        invariant Layers.AddRoots(s, strict, source, list[..i]) == Layers.Ok(Now())
      {
        assert list[..i + 1][..i] == list[..i];
        if list[i].Some? {
          var node := CreateNode(list[i].value, source);
          if node.Err? {
            AddRootsStops(s, strict, source, list, i + 1);
            return Some(node.error);
          }
          nodes := nodes + [node.value];
          err := IndexNode(node.value, [|nodes| - 1]);
          if err.Some? {
            AddRootsStops(s, strict, source, list, i + 1);
            return;
          }
        }
        i := i + 1;
      }
      assert list[..i] == list;
      err := None;
    }

    method InsertOne(source: string, target: Path, entry: Option<Patch>) returns (err: Option<Error>, inserted: bool)
      modifies this
      ensures match Layers.InsertOne(old(Now()), strict, source, target, entry)
              case Err(e) => err == Some(e)
              case Ok(pair) => err == None && (Now(), inserted) == pair
    {
      inserted := false;
      if entry.None? { return None, false; }
      var p := entry.value;
      if p.id != "" && p.id in index {
        err := Report(Layers.Skipped(source, p), Layers.Duplicate(p.id));
        return;
      }
      var node := CreateNode(p, source);
      if node.Err? { return Some(node.error), false; }
      var at := target + [|Layers.KidsAt(nodes, target)|];
      nodes := Layers.AppendAt(nodes, target, node.value);
      err := IndexNode(node.value, at);
      inserted := true;
    }

    method ApplyPatch(source: string, target: Path, entry: Option<Patch>) returns (err: Option<Error>)
      modifies this
      ensures Agrees(err, Layers.ApplyPatch(old(Now()), strict, source, target, entry), Now())
      decreases entry
    {
      if entry.None? { return None; }
      var p := entry.value;
      if p.insert != [] {
        err := InsertEntries(source, target, p.insert);
        return;
      }
      if p.id == "" { return Some(Layers.Unaddressed); }
      if p.id !in index {
        err := Report(Layers.Unmatched(source, p), Layers.Unknown(p.id));
        return;
      }
      var at := index[p.id];
      nodes := Layers.MergeAt(nodes, at, p, source);
      hits := hits + [Layers.Hit(at, source, p)];
      ghost var s := Now();
      var i := 0;
      while i < |p.plugins|
        invariant 0 <= i <= |p.plugins|
        invariant Layers.ApplyPatches(s, strict, source, at, p.plugins[..i]) == Layers.Ok(Now())
      {
        assert p.plugins[..i + 1][..i] == p.plugins[..i];
        err := ApplyPatch(source, at, p.plugins[i]);
        if err.Some? {
          ApplyPatchesStops(s, strict, source, at, p.plugins, i + 1);
          return;
        }
        i := i + 1;
      }
      assert p.plugins[..i] == p.plugins;
      err := None;
    }

    /** The insert half of `applyPatch`: the index is rebuilt once anything went in. */
    method InsertEntries(source: string, target: Path, list: seq<Option<Patch>>) returns (err: Option<Error>)
      modifies this
      ensures match Layers.InsertAll(old(Now()), strict, source, target, list)
              case Err(e) => err == Some(e)
              case Ok(pair) => err == None && Now() == Layers.Reindexed(pair.0, pair.1)
    {
      var insertedAny := false;
      ghost var s := Now();
      var i := 0;
      while i < |list|
        invariant 0 <= i <= |list|
        invariant Layers.InsertAll(s, strict, source, target, list[..i]) == Layers.Ok((Now(), insertedAny))
      {
        assert list[..i + 1][..i] == list[..i];
        var more: bool;
        err, more := InsertOne(source, target, list[i]);
        if err.Some? {
          InsertAllStops(s, strict, source, target, list, i + 1);
          return;
        }
        insertedAny := insertedAny || more;
        i := i + 1;
      }
      assert list[..i] == list;
      if insertedAny { RebuildIndex(); }
      err := None;
    }

    /** `checkNonGroupChildren` below the given nodes. */
    method CheckNonGroupChildren(list: seq<Tree>) returns (err: Option<Error>)
      modifies this
      ensures Agrees(err, Layers.CheckAll(old(Now()), strict, list), Now())
      decreases list
    {
      ghost var s := Now();
      var i := 0;
      while i < |list|
        invariant 0 <= i <= |list|
        invariant Layers.CheckAll(s, strict, list[..i]) == Layers.Ok(Now())
      {
        assert list[..i + 1][..i] == list[..i];
        var node := list[i];
        if node.kids != [] && !node.data.group {
          err := Report(Layers.StrayKids(node.data), Layers.Stray(node.data));
          if err.Some? {
            CheckAllStops(s, strict, list, i + 1);
            return;
          }
        }
        err := CheckNonGroupChildren(node.kids);
        if err.Some? {
          CheckAllStops(s, strict, list, i + 1);
          return;
        }
        i := i + 1;
      }
      assert list[..i] == list;
      err := None;
    }

    method ApplyLayer(layer: Layer) returns (err: Option<Error>)
      modifies this
      ensures Agrees(err, Layers.ApplyLayer(old(Now()), strict, layer), Now())
    {
      if !Layers.ValidEntries(layer.entries) { return Some(Layers.Mixed); }
      ghost var s := Now();
      var i := 0;
      while i < |layer.entries|
        invariant 0 <= i <= |layer.entries|
        invariant Layers.ApplyEntries(s, strict, layer, layer.entries[..i]) == Layers.Ok(Now())
      {
        assert layer.entries[..i + 1][..i] == layer.entries[..i];
        if layer.patch {
          err := ApplyPatch(layer.title, [], layer.entries[i]);
        } else {
          err := ApplyBase(layer.title, layer.entries[i]);
        }
        if err.Some? {
          ApplyEntriesStops(s, strict, layer, layer.entries, i + 1);
          return;
        }
        i := i + 1;
      }
      assert layer.entries[..i] == layer.entries;
      err := None;
    }
  }

  /** `Compose`. */
  method Compose(layers: seq<Layer>, strict: bool) returns (r: Layers.Result<State>)
    ensures r == Layers.Compose(layers, strict)
  {
    var composer := new TreeComposer(strict);
    var i := 0;
    while i < |layers|
      invariant 0 <= i <= |layers| && composer.strict == strict
      invariant Layers.ApplyLayers(layers[..i], strict) == Layers.Ok(composer.Now())
    {
      assert layers[..i + 1][..i] == layers[..i];
      var err := composer.ApplyLayer(layers[i]);
      if err.Some? {
        ApplyLayersStops(layers, strict, i + 1);
        return Layers.Err(err.value);
      }
      i := i + 1;
    }
    assert layers[..i] == layers;
    var err := composer.CheckNonGroupChildren(composer.nodes);
    r := if err.Some? then Layers.Err(err.value) else Layers.Ok(composer.Now());
  }

  /** The index of the composer agrees with depth-first search before and after every entry it applies. */
  lemma EntriesKeepIndex(s: State, strict: bool, layer: Layer, entry: Option<Patch>)
    requires Indexed(s) && Layers.ApplyEntry(s, strict, layer, entry).Ok?
    ensures var s' := Layers.ApplyEntry(s, strict, layer, entry).value;
      && (forall id :: id in s'.index <==> id != "" && Layers.Find(s'.nodes, id).Some?)
      && (forall id :: id in s'.index ==> Layers.Find(s'.nodes, id) == Some(s'.index[id]))
  {
    EntryIndexed(s, strict, layer, entry);
    var s' := Layers.ApplyEntry(s, strict, layer, entry).value;
    forall id: string
      ensures id in s'.index <==> id != "" && Layers.Find(s'.nodes, id).Some?
      ensures id in s'.index ==> Layers.Find(s'.nodes, id) == Some(s'.index[id])
    {
      RebuiltFinds(s'.nodes, id);
    }
  }
}
