/** Artifacts that agent steps declare, save and hand to their successors: the validator of
    api/app/services/workflow_run_service.py, the helpers of
    workflow-worker/worker/activities/agent_step_helpers.py and the copy loop of
    runtime/src/agent.ts. */
module Artifacts {
  import opened Common
  import opened Dag
  import opened Paths

  // ---------- names in JSON ----------

  function Field(j: Json, key: string): Json {
    if j.Dict? then Get(j.fields, key) else Null
  }

  function ListOf(j: Json): seq<Json> {
    if j.List? then j.items else []
  }

  /** The string under "name" of a dict entry. */
  function NameOf(item: Json): Option<string> {
    if Field(item, "name").Str? then Some(Field(item, "name").s) else None
  }

  function DeclaredArtifacts(data: Json): seq<Json> {
    ListOf(Field(data, "artifacts"))
  }

  function DeclaredNames(data: Json): set<string> {
    set a | a in DeclaredArtifacts(data) && NameOf(a).Some? :: NameOf(a).value
  }

  // ---------- the validator ----------

  /** `produces[id]`: the names of the last declaration of the id that has any. */
  function Produces(nodes: seq<RawNode>, id: NodeId): set<string> {
    if nodes == [] || id == NoId then {}
    else
      var last := nodes[|nodes| - 1];
      if last.id == id && DeclaredNames(last.data) != {} then DeclaredNames(last.data)
      else Produces(nodes[..|nodes| - 1], id)
  }

  /** `upstream[target]`: the string sources of the edges into a target, in edge order. */
  function StringSources(edges: seq<Edge>, target: NodeId): seq<NodeId> {
    if edges == [] then []
    else
      var last := edges[|edges| - 1];
      StringSources(edges[..|edges| - 1], target)
      + if last.target == target && last.source.Id? then [last.source] else []
  }

  lemma {:induction false} StringSourcesAreEdges(edges: seq<Edge>, target: NodeId, src: NodeId)
    ensures src in StringSources(edges, target) <==> src.Id? && Edge(src, target) in edges
  {
    if edges != [] {
      StringSourcesAreEdges(edges[..|edges| - 1], target, src);
      assert edges == edges[..|edges| - 1] + [edges[|edges| - 1]];
    }
  }

  datatype Collision = Collision(target: NodeId, first: NodeId, second: NodeId, name: string)

  /** Two distinct direct upstreams of one node declare the same name. */
  ghost predicate IsCollision(def: Definition, c: Collision) {
    && c.target.Id? && c.first.Id? && c.second.Id? && c.first != c.second
    && Edge(c.first, c.target) in def.edges && Edge(c.second, c.target) in def.edges
    && c.name in Produces(def.nodes, c.first) && c.name in Produces(def.nodes, c.second)
  }

  method IndexProduces(nodes: seq<RawNode>) returns (produces: map<NodeId, set<string>>)
    ensures forall id :: (if id in produces then produces[id] else {}) == Produces(nodes, id)
  {
    produces := map[];
    for i := 0 to |nodes|
      invariant forall id :: (if id in produces then produces[id] else {}) == Produces(nodes[..i], id)
    {
      assert nodes[..i + 1][..i] == nodes[..i];
      var names := DeclaredNames(nodes[i].data);
      if nodes[i].id.Id? && names != {} {
        produces := produces[nodes[i].id := names];
      }
    }
    assert nodes[..|nodes|] == nodes;
  }

  method IndexSources(edges: seq<Edge>) returns (upstream: map<NodeId, seq<NodeId>>)
    ensures NoId !in upstream
    ensures forall t: NodeId :: t.Id? ==> (if t in upstream then upstream[t] else []) == StringSources(edges, t)
  {
    upstream := map[];
    for i := 0 to |edges|
      invariant NoId !in upstream
      invariant forall t: NodeId :: t.Id? ==>
        (if t in upstream then upstream[t] else []) == StringSources(edges[..i], t)
    {
      assert edges[..i + 1][..i] == edges[..i];
      var src, tgt := edges[i].source, edges[i].target;
      if src.Id? && tgt.Id? {
        upstream := upstream[tgt := (if tgt in upstream then upstream[tgt] else []) + [src]];
      }
    }
    assert edges[..|edges|] == edges;
  }

  /** What the inner loops know after some sources: every name of theirs, with its only source. */
  ghost predicate Seen(produces: map<NodeId, set<string>>, sources: seq<NodeId>, seen: map<string, NodeId>) {
    && (forall src, name :: src in sources && src in produces && name in produces[src]
                            ==> name in seen && seen[name] == src)
    && (forall name :: name in seen ==> seen[name] in sources && seen[name] in produces && name in produces[seen[name]])
  }

  ghost predicate NoSharedName(produces: map<NodeId, set<string>>, sources: seq<NodeId>) {
    forall a, b, name | a in sources && b in sources && a in produces && b in produces ::
      name in produces[a] && name in produces[b] ==> a == b
  }

  /** The loops over the sources of one target: the first source whose names meet another's. */
  method CheckTarget(produces: map<NodeId, set<string>>, target: NodeId, sources: seq<NodeId>)
    returns (r: Option<Collision>)
    ensures r.Some? ==>
      && r.value.target == target && r.value.first != r.value.second
      && r.value.first in sources && r.value.first in produces && r.value.name in produces[r.value.first]
      && r.value.second in sources && r.value.second in produces && r.value.name in produces[r.value.second]
    ensures r.None? ==> NoSharedName(produces, sources)
  {
    var seen: map<string, NodeId> := map[];
    for i := 0 to |sources|
      invariant Seen(produces, sources[..i], seen)
    {
      var src := sources[i];
      var names := if src in produces then produces[src] else {};
      var left := names;
      while left != {}
        invariant left <= names
        invariant forall name :: name in names - left ==> name in seen && seen[name] == src
        invariant forall s, name :: s in sources[..i] && s in produces && name in produces[s]
                                    ==> name in seen && seen[name] == s
        invariant forall name :: name in seen ==>
          seen[name] in sources[..i + 1] && seen[name] in produces && name in produces[seen[name]]
        decreases left
      {
        var name :| name in left;
        if name in seen && seen[name] != src {
          return Some(Collision(target, seen[name], src, name));
        }
        seen := seen[name := src];
        left := left - {name};
      }
      assert sources[..i + 1] == sources[..i] + [src];
    }
    assert sources[..|sources|] == sources;
    assert Seen(produces, sources, seen);
    forall a, b, name | a in sources && b in sources && a in produces && b in produces
                        && name in produces[a] && name in produces[b]
      ensures a == b
    {
      assert seen[name] == a && seen[name] == b;
    }
    return None;
  }

  /** The validator rejects a definition iff some node has two distinct direct upstreams that
      declare the same name, and then names such a collision. */
  method ValidateArtifactNames(def: Definition) returns (r: Option<Collision>)
    ensures r.Some? ==> IsCollision(def, r.value)
    ensures r.None? ==> forall c :: !IsCollision(def, c)
  {
    var produces := IndexProduces(def.nodes);
    var upstream := IndexSources(def.edges);
    var targets := upstream.Keys;
    while targets != {}
      invariant targets <= upstream.Keys
      invariant forall c :: IsCollision(def, c) && c.target in upstream ==> c.target in targets
      decreases targets
    {
      var target :| target in targets;
      r := CheckTarget(produces, target, upstream[target]);
      if r.Some? {
        StringSourcesAreEdges(def.edges, target, r.value.first);
        StringSourcesAreEdges(def.edges, target, r.value.second);
        return;
      }
      forall c | IsCollision(def, c) ensures c.target != target {
        StringSourcesAreEdges(def.edges, target, c.first);
        StringSourcesAreEdges(def.edges, target, c.second);
      }
      targets := targets - {target};
    }
    forall c ensures !IsCollision(def, c) {
      StringSourcesAreEdges(def.edges, c.target, c.first);
    }
    return None;
  }

  // ---------- declared, saved and handed on ----------

  datatype Artifact = Artifact(name: string, description: Option<string>)

  function AsArtifact(item: Json, name: string): Artifact {
    var desc := Field(item, "description");
    Artifact(name, if desc.Str? && Strip(desc.s) != "" then Some(Strip(desc.s)) else None)
  }

  function NamesOf(artifacts: seq<Artifact>): set<string> {
    set a | a in artifacts :: a.name
  }

  /** Named entries with their names stripped, the first of each name; blank names are dropped. */
  function Normalized(raw: seq<Json>): seq<Artifact> {
    if raw == [] then []
    else
      var before, item := Normalized(raw[..|raw| - 1]), raw[|raw| - 1];
      if NameOf(item).None? || Strip(NameOf(item).value) == "" || Strip(NameOf(item).value) in NamesOf(before)
      then before else before + [AsArtifact(item, Strip(NameOf(item).value))]
  }

  method NormalizeArtifacts(raw: seq<Json>) returns (out: seq<Artifact>)
    ensures out == Normalized(raw)
  {
    var seen: set<string> := {};
    out := [];
    for i := 0 to |raw|
      invariant out == Normalized(raw[..i])
      invariant seen == NamesOf(out)
    {
      assert raw[..i + 1][..i] == raw[..i];
      var item := raw[i];
      var named := NameOf(item);
      if named.Some? && Strip(named.value) != "" {
        var name := Strip(named.value);
        if name !in seen {
          out := out + [AsArtifact(item, name)];
          seen := seen + {name};
        }
      }
    }
    assert raw[..|raw|] == raw;
  }

  ghost predicate Declares(data: Json, name: string) {
    name != "" && exists raw :: raw in DeclaredNames(data) && Strip(raw) == name
  }

  /** Normalised names are the stripped declared names, each once. */
  lemma {:induction false} NormalizedNames(raw: seq<Json>, name: string)
    ensures name in NamesOf(Normalized(raw))
            <==> name != "" && exists a :: a in raw && NameOf(a).Some? && Strip(NameOf(a).value) == name
    ensures DistinctNames(Normalized(raw))
  {
    if raw != [] {
      var before, item := Normalized(raw[..|raw| - 1]), raw[|raw| - 1];
      NormalizedNames(raw[..|raw| - 1], name);
      assert raw == raw[..|raw| - 1] + [item];
      if Normalized(raw) != before {
        DistinctNamesSnoc(before, AsArtifact(item, Strip(NameOf(item).value)));
      }
    }
  }

  ghost predicate DistinctNames(artifacts: seq<Artifact>) {
    forall j, k :: 0 <= j < k < |artifacts| ==> artifacts[j].name != artifacts[k].name
  }

  lemma DistinctNamesSnoc(artifacts: seq<Artifact>, last: Artifact)
    requires DistinctNames(artifacts) && last.name !in NamesOf(artifacts)
    ensures DistinctNames(artifacts + [last])
    ensures NamesOf(artifacts + [last]) == NamesOf(artifacts) + {last.name}
  {
    assert last in artifacts + [last];
    assert forall a :: a in artifacts ==> a in artifacts + [last];
  }

  const SAVE_TOOL := "mcp__system__save_as_artifact"

  /** The name a block saves, when it is a save call for a declared artifact. */
  function SavedName(block: Json, declared: set<string>): Option<string> {
    if Field(block, "type") != Str("tool_call") || Field(block, "name") != Str(SAVE_TOOL) then None
    else
      var name := Field(Field(block, "input"), "artifact_name");
      if name.Str? && name.s in declared then Some(name.s) else None
  }

  /** The saved names, in the order of their first save. */
  function SavedNames(blocks: seq<Json>, declared: set<string>): seq<string> {
    if blocks == [] then []
    else
      var before, saved := SavedNames(blocks[..|blocks| - 1], declared), SavedName(blocks[|blocks| - 1], declared);
      if saved.None? || saved.value in before then before else before + [saved.value]
  }

  function ProducedEntry(rootRun: string, node: string, name: string): Json {
    Dict(map["name" := Str(name), "path" := Str("workflows/" + rootRun + "/artifacts/" + node + "/" + name)])
  }

  function ProducedEntries(names: seq<string>, rootRun: string, node: string): seq<Json> {
    seq(|names|, k requires 0 <= k < |names| => ProducedEntry(rootRun, node, names[k]))
  }

  method ArtifactsProduced(blocks: seq<Json>, artifacts: seq<Artifact>, rootRun: string, node: string)
    returns (r: seq<Json>)
    ensures r == ProducedEntries(SavedNames(blocks, NamesOf(artifacts)), rootRun, node)
  {
    if artifacts == [] {
      assert NamesOf(artifacts) == {};
      NothingDeclared(blocks);
      return [];
    }
    var declared := NamesOf(artifacts);
    var produced: seq<string> := [];
    for i := 0 to |blocks|
      invariant produced == SavedNames(blocks[..i], declared)
    {
      assert blocks[..i + 1][..i] == blocks[..i];
      var saved := SavedName(blocks[i], declared);
      if saved.Some? && saved.value !in produced {
        produced := produced + [saved.value];
      }
    }
    assert blocks[..|blocks|] == blocks;
    r := ProducedEntries(produced, rootRun, node);
  }

  lemma {:induction false} NothingDeclared(blocks: seq<Json>)
    ensures SavedNames(blocks, {}) == []
  {
    if blocks != [] {
      NothingDeclared(blocks[..|blocks| - 1]);
    }
  }

  lemma {:induction false} SavedAreDeclared(blocks: seq<Json>, declared: set<string>, name: string)
    ensures name in SavedNames(blocks, declared)
            <==> exists b :: b in blocks && SavedName(b, declared) == Some(name)
    ensures NoDuplicates(SavedNames(blocks, declared))
  {
    if blocks != [] {
      SavedAreDeclared(blocks[..|blocks| - 1], declared, name);
      assert blocks == blocks[..|blocks| - 1] + [blocks[|blocks| - 1]];
    }
  }

  // ---------- collecting and copying inputs ----------

  datatype Ref = Ref(node: NodeId, name: string)

  /** The artifacts one upstream payload lists. */
  function Listed(payload: Json): seq<Json> {
    ListOf(Field(payload, "artifacts_produced"))
  }

  function RefsOf(node: NodeId, entries: seq<Json>): seq<Ref> {
    if entries == [] then []
    else
      var named := NameOf(entries[|entries| - 1]);
      RefsOf(node, entries[..|entries| - 1])
      + if named.Some? && named.value != "" then [Ref(node, named.value)] else []
  }

  /** An upstream and its payload; a list of these is a dict in insertion order. */
  datatype Input = Input(node: NodeId, payload: Json)

  function InputRefs(inputs: seq<Input>): seq<Ref> {
    if inputs == [] then []
    else
      var last := inputs[|inputs| - 1];
      InputRefs(inputs[..|inputs| - 1]) + RefsOf(last.node, Listed(last.payload))
  }

  method CollectInputArtifacts(inputs: seq<Input>) returns (out: seq<Ref>)
    ensures out == InputRefs(inputs)
  {
    out := [];
    for i := 0 to |inputs|
      invariant out == InputRefs(inputs[..i])
    {
      assert inputs[..i + 1][..i] == inputs[..i];
      var produced := Listed(inputs[i].payload);
      ghost var before := out;
      for j := 0 to |produced|
        invariant out == before + RefsOf(inputs[i].node, produced[..j])
      {
        assert produced[..j + 1][..j] == produced[..j];
        var named := NameOf(produced[j]);
        if named.Some? && named.value != "" {
          out := out + [Ref(inputs[i].node, named.value)];
        }
      }
      assert produced[..|produced|] == produced;
    }
    assert inputs[..|inputs|] == inputs;
  }

  type Path = seq<string>

  /** A saved file or directory: its files by path below it; a plain file has the one path []. */
  type Tree = map<Path, string>

  function Destination(dir: Path, name: string): Path {
    Walk(dir, Split(name))
  }

  /** Remove what is at the destination, then copy a tree there. */
  function Replace(files: Tree, at: Path, tree: Tree): Tree {
    var copied := set q | q in tree :: at + q;
    (map p | p in files && !(at <= p) :: files[p])
    + (map p | p in copied && at <= p && p[|at|..] in tree :: tree[p[|at|..]])
  }

  /** The workspace after copying the artifacts in list order; a missing one is skipped. */
  function Copied(saved: map<Ref, Tree>, dir: Path, files: Tree, refs: seq<Ref>): Tree {
    if refs == [] then files
    else
      var before, ref := Copied(saved, dir, files, refs[..|refs| - 1]), refs[|refs| - 1];
      if ref in saved then Replace(before, Destination(dir, ref.name), saved[ref]) else before
  }

  method CopyInputArtifacts(saved: map<Ref, Tree>, dir: Path, files: Tree, refs: seq<Ref>) returns (now: Tree)
    ensures now == Copied(saved, dir, files, refs)
  {
    now := files;
    for i := 0 to |refs|
      invariant now == Copied(saved, dir, files, refs[..i])
    {
      assert refs[..i + 1][..i] == refs[..i];
      if refs[i] !in saved {
        continue;
      }
      now := Replace(now, Destination(dir, refs[i].name), saved[refs[i]]);
    }
    assert refs[..|refs|] == refs;
  }
}
