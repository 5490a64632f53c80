/** Composing configuration layers (loader/loader.go): what every function of the composer computes, as a
    value. A node is identified by its path: the positions to take from the roots. Nothing is ever removed
    or moved, so a path keeps naming the same node. */
module Layers {
  import opened Options

  type Config = map<string, string>

  /** One entry of a layer file; absent fields are None, null entries are None in their list. */
  datatype Patch = Patch(
    id: string,
    name: Option<string>,
    title: Option<string>,
    disabled: Option<bool>,
    group: Option<bool>,
    inject: Option<seq<string>>,
    config: Option<Config>,
    plugins: seq<Option<Patch>>,
    insert: seq<Option<Patch>>)

  datatype Layer = Layer(title: string, entries: seq<Option<Patch>>, patch: bool)

  datatype Data = Data(
    id: string,
    name: string,
    title: string,
    disabled: bool,
    group: bool,
    inject: seq<string>,
    config: Option<Config>,
    source: string,
    patched: seq<string>)

  datatype Tree = Tree(data: Data, kids: seq<Tree>)

  type Path = seq<nat>

  datatype Error = Nameless | Unaddressed | Mixed | Duplicate(id: string) | Unknown(id: string) | Stray(data: Data)

  /** A warning keeps the layer and the entry it was about. */
  datatype Warning =
    | Skipped(source: string, entry: Patch)
    | Repeated(source: string, id: string)
    | Unmatched(source: string, patch: Patch)
    | StrayKids(data: Data)

  datatype Result<T> = Ok(value: T) | Err(error: Error)

  /** A patch that hit the node at a path. */
  datatype Hit = Hit(at: Path, source: string, patch: Patch)

  /** The composer's state. `hits` is history: which patch hit which node, in order. */
  datatype State = State(nodes: seq<Tree>, index: map<string, Path>, warnings: seq<Warning>, hits: seq<Hit>)

  // ----- validateEntry -----

  predicate DeclaresFields(p: Patch) {
    p.id != "" || p.name.Some? || p.title.Some? || p.disabled.Some? || p.group.Some? || p.inject.Some?
    || p.config.Some? || p.plugins != []
  }

  /** No entry, at any depth, carries `insert` together with fields of its own. */
  predicate ValidEntry(entry: Option<Patch>)
    decreases entry, 1
  {
    entry.Some? ==>
      && (entry.value.insert == [] || !DeclaresFields(entry.value))
      && ValidEntries(entry.value.plugins) && ValidEntries(entry.value.insert)
  }

  predicate ValidEntries(entries: seq<Option<Patch>>)
    decreases entries, 0
  {
    entries == [] || (ValidEntries(entries[..|entries| - 1]) && ValidEntry(entries[|entries| - 1]))
  }

  // ----- createNode -----

  predicate Names(p: Patch) {
    p.name.Some? && p.name.value != ""
  }

  function Or<T>(o: Option<T>, d: T): T {
    if o.Some? then o.value else d
  }

  function Created(p: Patch, source: string): Data {
    Data(p.id, Or(p.name, ""), Or(p.title, ""), Or(p.disabled, false), Or(p.group, false), Or(p.inject, []), p.config,
        source, [])
  }

  function CreateNode(p: Patch, source: string): Result<Tree>
    decreases p, 1
  {
    if p.id == "" && !Names(p) then Err(Nameless)
    else
      match CreateKids(p.plugins, source)
      case Err(e) => Err(e)
      case Ok(kids) => Ok(Tree(Created(p, source), kids))
  }

  function Joined(a: Result<seq<Tree>>, b: Result<seq<Tree>>): Result<seq<Tree>> {
    if a.Err? then a else if b.Err? then b else Ok(a.value + b.value)
  }

  function CreateKids(plugins: seq<Option<Patch>>, source: string): Result<seq<Tree>>
    decreases plugins, 0
  {
    if plugins == [] then Ok([])
    else Joined(CreateKids(plugins[..|plugins| - 1], source), CreateKid(plugins[|plugins| - 1], source))
  }

  /** A nested entry with `insert` expands into sibling children. */
  function CreateKid(entry: Option<Patch>, source: string): Result<seq<Tree>>
    decreases entry, 3
  {
    if entry.Some? && entry.value.insert != [] then CreateInserted(entry.value.insert, source)
    else CreateOne(entry, source)
  }

  function CreateOne(entry: Option<Patch>, source: string): Result<seq<Tree>>
    decreases entry, 2
  {
    if entry.None? then Ok([])
    else
      match CreateNode(entry.value, source)
      case Err(e) => Err(e)
      case Ok(t) => Ok([t])
  }

  function CreateInserted(entries: seq<Option<Patch>>, source: string): Result<seq<Tree>>
    decreases entries, 0
  {
    if entries == [] then Ok([])
    else Joined(CreateInserted(entries[..|entries| - 1], source), CreateOne(entries[|entries| - 1], source))
  }

  // ----- the forest -----

  /** The children of the node at `p`; the roots for the empty path. */
  function KidsAt(nodes: seq<Tree>, p: Path): seq<Tree> {
    if p == [] then nodes
    else if p[0] < |nodes| then KidsAt(nodes[p[0]].kids, p[1..])
    else []
  }

  function At(nodes: seq<Tree>, p: Path): Option<Tree> {
    if p == [] || p[0] >= |nodes| then None
    else if |p| == 1 then Some(nodes[p[0]])
    else At(nodes[p[0]].kids, p[1..])
  }

  /** Appends a child to the node at `p`, or a root. */
  function AppendAt(nodes: seq<Tree>, p: Path, t: Tree): seq<Tree> {
    if p == [] then nodes + [t]
    else if p[0] < |nodes| then nodes[p[0] := nodes[p[0]].(kids := AppendAt(nodes[p[0]].kids, p[1..], t))]
    else nodes
  }

  /** `mergePatch`: only the fields the patch mentions. */
  function Merge(d: Data, p: Patch, source: string): Data {
    d.(name := Or(p.name, d.name),
       title := Or(p.title, d.title),
       disabled := Or(p.disabled, d.disabled),
       group := Or(p.group, d.group),
       inject := Or(p.inject, d.inject),
       config := if p.config.Some? then p.config else d.config,
       patched := d.patched + [source])
  }

  function MergeAt(nodes: seq<Tree>, at: Path, p: Patch, source: string): seq<Tree> {
    if at == [] || at[0] >= |nodes| then nodes
    else if |at| == 1 then nodes[at[0] := nodes[at[0]].(data := Merge(nodes[at[0]].data, p, source))]
    else nodes[at[0] := nodes[at[0]].(kids := MergeAt(nodes[at[0]].kids, at[1..], p, source))]
  }

  /** `Tree.Find`: the first node with this id in depth-first order. */
  function Find(nodes: seq<Tree>, id: string): Option<Path>
    decreases nodes, 0
  {
    if nodes == [] then None
    else
      var before := Find(nodes[..|nodes| - 1], id);
      if before.Some? then before
      else
        var within := FindIn(nodes[|nodes| - 1], id);
        if within.Some? then Some([|nodes| - 1] + within.value) else None
  }

  function FindIn(t: Tree, id: string): Option<Path>
    decreases t, 1
  {
    if t.data.id == id then Some([]) else Find(t.kids, id)
  }

  // ----- indexNode, rebuildIndex -----

  /** Adds a subtree's ids in depth-first order; ids already there stay where they are. */
  function AddTree(index: map<string, Path>, t: Tree, at: Path): map<string, Path>
    decreases t, 1
  {
    AddAll(if t.data.id != "" && t.data.id !in index then index[t.data.id := at] else index, t.kids, at)
  }

  function AddAll(index: map<string, Path>, nodes: seq<Tree>, at: Path): map<string, Path>
    decreases nodes, 0
  {
    if nodes == [] then index
    else AddTree(AddAll(index, nodes[..|nodes| - 1], at), nodes[|nodes| - 1], at + [|nodes| - 1])
  }

  /** `rebuildIndex`. */
  function Rebuilt(nodes: seq<Tree>): map<string, Path> {
    AddAll(map[], nodes, [])
  }

  function Warned(s: State, strict: bool, w: Warning, e: Error): Result<State> {
    if strict then Err(e) else Ok(s.(warnings := s.warnings + [w]))
  }

  function IndexNode(s: State, strict: bool, t: Tree, at: Path): Result<State>
    decreases t, 1
  {
    var id := t.data.id;
    var head := if id == "" then Ok(s)
                else if id in s.index then Warned(s, strict, Repeated(t.data.source, id), Duplicate(id))
                else Ok(s.(index := s.index[id := at]));
    match head
    case Err(e) => Err(e)
    case Ok(s') => IndexAll(s', strict, t.kids, at)
  }

  function IndexAll(s: State, strict: bool, nodes: seq<Tree>, at: Path): Result<State>
    decreases nodes, 0
  {
    if nodes == [] then Ok(s)
    else
      match IndexAll(s, strict, nodes[..|nodes| - 1], at)
      case Err(e) => Err(e)
      case Ok(s') => IndexNode(s', strict, nodes[|nodes| - 1], at + [|nodes| - 1])
  }

  // ----- applyBase -----

  function AddRoot(s: State, strict: bool, source: string, entry: Option<Patch>): Result<State> {
    if entry.None? then Ok(s)
    else
      match CreateNode(entry.value, source)
      case Err(e) => Err(e)
      case Ok(t) => IndexNode(s.(nodes := s.nodes + [t]), strict, t, [|s.nodes|])
  }

  function AddRoots(s: State, strict: bool, source: string, entries: seq<Option<Patch>>): Result<State> {
    if entries == [] then Ok(s)
    else
      match AddRoots(s, strict, source, entries[..|entries| - 1])
      case Err(e) => Err(e)
      case Ok(s') => AddRoot(s', strict, source, entries[|entries| - 1])
  }

  function ApplyBase(s: State, strict: bool, source: string, entry: Option<Patch>): Result<State> {
    if entry.None? then Ok(s)
    else AddRoots(s, strict, source, if entry.value.insert == [] then [entry] else entry.value.insert)
  }

  // ----- applyPatch -----

  /** One inserted entry; the flag says whether it went in. */
  function InsertOne(s: State, strict: bool, source: string, target: Path, entry: Option<Patch>):
      Result<(State, bool)> {
    if entry.None? then Ok((s, false))
    else if entry.value.id != "" && entry.value.id in s.index then
      match Warned(s, strict, Skipped(source, entry.value), Duplicate(entry.value.id))
      case Err(e) => Err(e)
      case Ok(s') => Ok((s', false))
    else
      match CreateNode(entry.value, source)
      case Err(e) => Err(e)
      case Ok(t) =>
        match IndexNode(s.(nodes := AppendAt(s.nodes, target, t)), strict, t, target + [|KidsAt(s.nodes, target)|])
        case Err(e) => Err(e)
        case Ok(s') => Ok((s', true))
  }

  function InsertAll(s: State, strict: bool, source: string, target: Path, entries: seq<Option<Patch>>):
      Result<(State, bool)> {
    if entries == [] then Ok((s, false))
    else
      match InsertAll(s, strict, source, target, entries[..|entries| - 1])
      case Err(e) => Err(e)
      case Ok((s', any)) =>
        match InsertOne(s', strict, source, target, entries[|entries| - 1])
        case Err(e) => Err(e)
        case Ok((s'', more)) => Ok((s'', any || more))
  }

  function Reindexed(s: State, any: bool): State {
    if any then s.(index := Rebuilt(s.nodes)) else s
  }

  /** `target` is the node whose children an insertion extends; the empty path stands for the roots. */
  function ApplyPatch(s: State, strict: bool, source: string, target: Path, entry: Option<Patch>): Result<State>
    decreases entry, 1
  {
    if entry.None? then Ok(s)
    else
      var p := entry.value;
      if p.insert != [] then
        match InsertAll(s, strict, source, target, p.insert)
        case Err(e) => Err(e)
        case Ok((s', any)) => Ok(Reindexed(s', any))
      else if p.id == "" then Err(Unaddressed)
      else if p.id !in s.index then Warned(s, strict, Unmatched(source, p), Unknown(p.id))
      else
        var at := s.index[p.id];
        ApplyPatches(s.(nodes := MergeAt(s.nodes, at, p, source), hits := s.hits + [Hit(at, source, p)]), strict,
            source, at, p.plugins)
  }

  function ApplyPatches(s: State, strict: bool, source: string, target: Path,
      entries: seq<Option<Patch>>): Result<State>
    decreases entries, 0
  {
    if entries == [] then Ok(s)
    else
      match ApplyPatches(s, strict, source, target, entries[..|entries| - 1])
      case Err(e) => Err(e)
      case Ok(s') => ApplyPatch(s', strict, source, target, entries[|entries| - 1])
  }

  // ----- checkNonGroupChildren -----

  function CheckNode(s: State, strict: bool, t: Tree): Result<State>
    decreases t, 1
  {
    var head := if t.kids != [] && !t.data.group then Warned(s, strict, StrayKids(t.data), Stray(t.data)) else Ok(s);
    match head
    case Err(e) => Err(e)
    case Ok(s') => CheckAll(s', strict, t.kids)
  }

  function CheckAll(s: State, strict: bool, nodes: seq<Tree>): Result<State>
    decreases nodes, 0
  {
    if nodes == [] then Ok(s)
    else
      match CheckAll(s, strict, nodes[..|nodes| - 1])
      case Err(e) => Err(e)
      case Ok(s') => CheckNode(s', strict, nodes[|nodes| - 1])
  }

  // ----- Compose -----

  function ApplyEntry(s: State, strict: bool, layer: Layer, entry: Option<Patch>): Result<State> {
    if layer.patch then ApplyPatch(s, strict, layer.title, [], entry) else ApplyBase(s, strict, layer.title, entry)
  }

  function ApplyEntries(s: State, strict: bool, layer: Layer, entries: seq<Option<Patch>>): Result<State> {
    if entries == [] then Ok(s)
    else
      match ApplyEntries(s, strict, layer, entries[..|entries| - 1])
      case Err(e) => Err(e)
      case Ok(s') => ApplyEntry(s', strict, layer, entries[|entries| - 1])
  }

  function ApplyLayer(s: State, strict: bool, layer: Layer): Result<State> {
    if ValidEntries(layer.entries) then ApplyEntries(s, strict, layer, layer.entries) else Err(Mixed)
  }

  const EMPTY := State([], map[], [], [])

  function ApplyLayers(layers: seq<Layer>, strict: bool): Result<State> {
    if layers == [] then Ok(EMPTY)
    else
      match ApplyLayers(layers[..|layers| - 1], strict)
      case Err(e) => Err(e)
      case Ok(s) => ApplyLayer(s, strict, layers[|layers| - 1])
  }

  function Compose(layers: seq<Layer>, strict: bool): Result<State> {
    match ApplyLayers(layers, strict)
    case Err(e) => Err(e)
    case Ok(s) => CheckAll(s, strict, s.nodes)
  }
}
