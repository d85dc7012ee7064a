/** When copies of input artifacts stay apart: exactly when the names that the upstreams of a node
    declare, once stripped, have destinations none of which lies at or below another. The artifact
    validator ensures that for names without blank ends and path structure, and not beyond. */
module ArtifactCopies {
  import opened Common
  import opened Dag
  import opened Paths
  import opened Artifacts

  // ---------- what a step may list ----------

  /** The data of a planned node. */
  ghost function DataOf(def: Definition, id: NodeId): Json
    requires id in NodeIds(def)
  {
    AsPlanNode(LastDeclared(def.nodes, id)).data
  }

  /** A payload lists each of its names once, and only names its node declares. */
  ghost predicate Honest(data: Json, input: Input) {
    var refs := RefsOf(input.node, Listed(input.payload));
    && NoDuplicates(refs)
    && forall r :: r in refs ==> r.node == input.node && Declares(data, r.name)
  }

  lemma DeclaredIsNormalized(data: Json, name: string)
    ensures Declares(data, name) <==> name in NamesOf(Normalized(DeclaredArtifacts(data)))
  {
    NormalizedNames(DeclaredArtifacts(data), name);
    if Declares(data, name) {
      var raw :| raw in DeclaredNames(data) && Strip(raw) == name;
    }
    if name in NamesOf(Normalized(DeclaredArtifacts(data))) {
      var a :| a in DeclaredArtifacts(data) && NameOf(a).Some? && Strip(NameOf(a).value) == name;
      assert NameOf(a).value in DeclaredNames(data);
    }
  }

  lemma {:induction false} RefsOfProduced(id: NodeId, names: seq<string>, rootRun: string, node: string)
    requires "" !in names
    ensures RefsOf(id, ProducedEntries(names, rootRun, node))
            == seq(|names|, k requires 0 <= k < |names| => Ref(id, names[k]))
  {
    if names != [] {
      var before, last := names[..|names| - 1], names[|names| - 1];
      assert names == before + [last];
      RefsOfProduced(id, before, rootRun, node);
      var entries := ProducedEntries(names, rootRun, node);
      assert entries[..|entries| - 1] == ProducedEntries(before, rootRun, node);
      assert NameOf(entries[|entries| - 1]) == Some(last);
    }
  }

  /** What _artifacts_produced lists for a node is honest, whatever blocks the step emitted. */
  lemma ProducedIsHonest(data: Json, input: Input, blocks: seq<Json>, rootRun: string, node: string)
    requires Listed(input.payload)
             == ProducedEntries(SavedNames(blocks, NamesOf(Normalized(DeclaredArtifacts(data)))), rootRun, node)
    ensures Honest(data, input)
  {
    var declared := NamesOf(Normalized(DeclaredArtifacts(data)));
    var names := SavedNames(blocks, declared);
    forall name | name in names ensures Declares(data, name) {
      SavedAreDeclared(blocks, declared, name);
      DeclaredIsNormalized(data, name);
    }
    SavedAreDeclared(blocks, declared, "");
    RefsOfProduced(input.node, names, rootRun, node);
  }

  // ---------- collisions after stripping ----------

  ghost predicate StrippedCollision(def: Definition, c: Collision) {
    && c.first in NodeIds(def) && c.second in NodeIds(def) && c.first != c.second
    && Edge(c.first, c.target) in def.edges && Edge(c.second, c.target) in def.edges
    && Declares(DataOf(def, c.first), c.name) && Declares(DataOf(def, c.second), c.name)
  }

  ghost predicate NoneCollides(def: Definition, target: NodeId) {
    forall c: Collision :: c.target == target ==> !StrippedCollision(def, c)
  }

  /** Ids are strings, and declared names have no blank ends and no path structure. */
  ghost predicate Tidy(def: Definition) {
    && (forall n :: n in def.nodes ==> n.id.Id?)
    && (forall e :: e in def.edges ==> e.target.Id?)
    && (forall n, name :: n in def.nodes && name in DeclaredNames(n.data) ==> Strip(name) == name && Plain(name))
  }

  lemma {:induction false} ProducesCovers(nodes: seq<RawNode>, id: NodeId)
    requires id.Id? && exists n :: n in nodes && n.id == id
    ensures DeclaredNames(LastDeclared(nodes, id).data) <= Produces(nodes, id)
  {
    var last := nodes[|nodes| - 1];
    if last.id != id {
      assert nodes == nodes[..|nodes| - 1] + [last];
      ProducesCovers(nodes[..|nodes| - 1], id);
    }
  }

  lemma PlannedNames(def: Definition, id: NodeId)
    requires id in NodeIds(def) && id.Id?
    ensures DeclaredNames(DataOf(def, id)) <= Produces(def.nodes, id)
    ensures LastDeclared(def.nodes, id) in def.nodes
    ensures DeclaredNames(DataOf(def, id)) <= DeclaredNames(LastDeclared(def.nodes, id).data)
  {
    ProducesCovers(def.nodes, id);
    LastDeclaredHasId(def.nodes, id);
  }

  /** A tidy name is produced as it is declared. */
  lemma TidyDeclared(def: Definition, id: NodeId, name: string)
    requires Tidy(def) && id in NodeIds(def) && Declares(DataOf(def, id), name)
    ensures id.Id? && name in Produces(def.nodes, id) && Plain(name)
  {
    LastDeclaredHasId(def.nodes, id);
    PlannedNames(def, id);
    var raw :| raw in DeclaredNames(DataOf(def, id)) && Strip(raw) == name;
    assert raw in DeclaredNames(LastDeclared(def.nodes, id).data);
  }

  /** For tidy definitions the validator sees every collision that matters. */
  lemma TidyCollisionIsSeen(def: Definition, c: Collision)
    requires Tidy(def) && StrippedCollision(def, c)
    ensures IsCollision(def, c)
  {
    TidyDeclared(def, c.first, c.name);
    TidyDeclared(def, c.second, c.name);
    assert Edge(c.first, c.target) in def.edges;
  }

  lemma AcceptedMeansNoCollision(def: Definition, target: NodeId)
    requires Tidy(def) && forall c :: !IsCollision(def, c)
    ensures NoneCollides(def, target)
  {
    forall c | StrippedCollision(def, c) ensures false {
      TidyCollisionIsSeen(def, c);
    }
  }

  // ---------- inputs of one node ----------

  /** The inputs of a node: each direct upstream at most once, with an honest payload. */
  ghost predicate InputsFor(def: Definition, target: NodeId, inputs: seq<Input>) {
    && (forall j, k :: 0 <= j < k < |inputs| ==> inputs[j].node != inputs[k].node)
    && (forall k :: 0 <= k < |inputs| ==>
          && inputs[k].node in NodeIds(def) && Edge(inputs[k].node, target) in def.edges
          && Honest(DataOf(def, inputs[k].node), inputs[k]))
  }

  /** An artifact that a direct upstream of the target declares. */
  ghost predicate Reaches(def: Definition, target: NodeId, r: Ref) {
    r.node in NodeIds(def) && Edge(r.node, target) in def.edges && Declares(DataOf(def, r.node), r.name)
  }

  ghost predicate DistinctRefs(refs: seq<Ref>) {
    forall j, k :: 0 <= j < k < |refs| ==> refs[j].name != refs[k].name
  }

  lemma {:induction false} RefsComeFromInputs(def: Definition, target: NodeId, inputs: seq<Input>, r: Ref)
    requires InputsFor(def, target, inputs) && r in InputRefs(inputs)
    ensures Reaches(def, target, r)
    ensures exists k :: 0 <= k < |inputs| && inputs[k].node == r.node
  {
    var n := |inputs| - 1;
    if r !in RefsOf(inputs[n].node, Listed(inputs[n].payload)) {
      RefsComeFromInputs(def, target, inputs[..n], r);
      var k :| 0 <= k < n && inputs[..n][k].node == r.node;
      assert inputs[k].node == r.node;
    }
  }

  /** No artifact is listed twice. */
  lemma {:induction false} RefsAreDistinct(def: Definition, target: NodeId, inputs: seq<Input>)
    requires InputsFor(def, target, inputs)
    ensures NoDuplicates(InputRefs(inputs))
  {
    if inputs != [] {
      var n := |inputs| - 1;
      var before, last := InputRefs(inputs[..n]), RefsOf(inputs[n].node, Listed(inputs[n].payload));
      RefsAreDistinct(def, target, inputs[..n]);
      forall j, k | 0 <= j < |before| && 0 <= k < |last| ensures before[j] != last[k] {
        assert before[j] in before && last[k] in last;
        RefsComeFromInputs(def, target, inputs[..n], before[j]);
      }
    }
  }

  /** Without a collision after stripping, all copied names are distinct. */
  lemma {:induction false} NoCollisionDistinct(def: Definition, target: NodeId, inputs: seq<Input>)
    requires InputsFor(def, target, inputs)
    requires NoneCollides(def, target)
    ensures DistinctRefs(InputRefs(inputs))
  {
    if inputs != [] {
      var n := |inputs| - 1;
      var before, last := InputRefs(inputs[..n]), RefsOf(inputs[n].node, Listed(inputs[n].payload));
      NoCollisionDistinct(def, target, inputs[..n]);
      forall j, k | 0 <= j < |before| && 0 <= k < |last| ensures before[j].name != last[k].name {
        assert before[j] in before && last[k] in last;
        RefsComeFromInputs(def, target, inputs[..n], before[j]);
        assert !StrippedCollision(def, Collision(target, before[j].node, last[k].node, last[k].name));
      }
      forall j, k | 0 <= j < k < |last| ensures last[j].name != last[k].name {
        assert last[j] in last && last[k] in last;
        assert last[j] != last[k];
      }
    }
  }

  /** The payload of a step that saved these artifacts. */
  function SavedAll(id: NodeId, names: seq<string>, rootRun: string, node: string): Input {
    Input(id, Dict(map["artifacts_produced" := List(ProducedEntries(names, rootRun, node))]))
  }

  lemma SavedAllLists(id: NodeId, names: seq<string>, rootRun: string, node: string)
    requires "" !in names
    ensures InputRefs([SavedAll(id, names, rootRun, node)])
            == seq(|names|, k requires 0 <= k < |names| => Ref(id, names[k]))
  {
    var one := SavedAll(id, names, rootRun, node);
    RefsOfProduced(id, names, rootRun, node);
    assert Listed(one.payload) == ProducedEntries(names, rootRun, node);
    assert [one][..0] == [];
    assert InputRefs([one]) == InputRefs([]) + RefsOf(id, Listed(one.payload));
  }

  /** Two upstreams that each saved one artifact. */
  lemma SavedByTwo(def: Definition, target: NodeId, a: Ref, b: Ref, rootRun: string, first: string, second: string)
    requires Reaches(def, target, a) && Reaches(def, target, b) && a.node != b.node
    ensures var inputs := [SavedAll(a.node, [a.name], rootRun, first), SavedAll(b.node, [b.name], rootRun, second)];
      InputsFor(def, target, inputs) && InputRefs(inputs) == [a, b]
  {
    var one, two := SavedAll(a.node, [a.name], rootRun, first), SavedAll(b.node, [b.name], rootRun, second);
    SavedAllLists(a.node, [a.name], rootRun, first);
    RefsOfProduced(a.node, [a.name], rootRun, first);
    RefsOfProduced(b.node, [b.name], rootRun, second);
    assert Listed(one.payload) == ProducedEntries([a.name], rootRun, first);
    assert Listed(two.payload) == ProducedEntries([b.name], rootRun, second);
    assert [one, two][..1] == [one];
    assert InputRefs([one, two]) == InputRefs([one]) + RefsOf(b.node, Listed(two.payload));
  }

  /** One upstream that saved two. */
  lemma SavedByOne(def: Definition, target: NodeId, a: Ref, b: Ref, rootRun: string, node: string)
    requires Reaches(def, target, a) && Reaches(def, target, b) && a.node == b.node && a.name != b.name
    ensures var inputs := [SavedAll(a.node, [a.name, b.name], rootRun, node)];
      InputsFor(def, target, inputs) && InputRefs(inputs) == [a, b]
  {
    SavedAllLists(a.node, [a.name, b.name], rootRun, node);
    SavedTwoIsHonest(DataOf(def, a.node), a, b, rootRun, node);
  }

  lemma SavedTwoIsHonest(data: Json, a: Ref, b: Ref, rootRun: string, node: string)
    requires Declares(data, a.name) && Declares(data, b.name) && a.node == b.node && a.name != b.name
    ensures Honest(data, SavedAll(a.node, [a.name, b.name], rootRun, node))
  {
    var one := SavedAll(a.node, [a.name, b.name], rootRun, node);
    RefsOfProduced(a.node, [a.name, b.name], rootRun, node);
    assert Listed(one.payload) == ProducedEntries([a.name, b.name], rootRun, node);
    assert RefsOf(a.node, Listed(one.payload)) == [a, b];
  }

  /** Conversely a collision after stripping is reachable: when both upstreams save the
      artifact, their copies go to one destination. */
  lemma CollisionOverwrites(def: Definition, c: Collision, rootRun: string, first: string, second: string)
    requires StrippedCollision(def, c)
    ensures var inputs := [SavedAll(c.first, [c.name], rootRun, first), SavedAll(c.second, [c.name], rootRun, second)];
      InputsFor(def, c.target, inputs) && InputRefs(inputs) == [Ref(c.first, c.name), Ref(c.second, c.name)]
  {
    SavedByTwo(def, c.target, Ref(c.first, c.name), Ref(c.second, c.name), rootRun, first, second);
  }

  ghost predicate AlwaysDistinct(def: Definition, target: NodeId) {
    forall inputs :: InputsFor(def, target, inputs) ==> DistinctRefs(InputRefs(inputs))
  }

  lemma CollisionSharesName(def: Definition, c: Collision)
    requires StrippedCollision(def, c)
    ensures !AlwaysDistinct(def, c.target)
  {
    var inputs := [SavedAll(c.first, [c.name], "", ""), SavedAll(c.second, [c.name], "", "")];
    CollisionOverwrites(def, c, "", "", "");
    assert InputsFor(def, c.target, inputs);
    assert InputRefs(inputs)[0].name == InputRefs(inputs)[1].name;
  }

  /** So the copied names of a node are always distinct exactly when nothing collides after
      stripping; whether their places are apart is another question. */
  lemma NamesDistinctExactly(def: Definition, target: NodeId)
    ensures AlwaysDistinct(def, target) <==> NoneCollides(def, target)
  {
    if NoneCollides(def, target) {
      forall inputs | InputsFor(def, target, inputs) ensures DistinctRefs(InputRefs(inputs)) {
        NoCollisionDistinct(def, target, inputs);
      }
    } else {
      var c: Collision :| c.target == target && StrippedCollision(def, c);
      CollisionSharesName(def, c);
    }
  }

  // ---------- copies that do not meet ----------

  function Lookup(files: Tree, p: Path): Option<string> {
    if p in files then Some(files[p]) else None
  }

  ghost predicate Apart(a: Path, b: Path) {
    !(a <= b) && !(b <= a)
  }

  ghost predicate AllApart(dir: Path, refs: seq<Ref>) {
    forall j, k :: 0 <= j < k < |refs| ==> Apart(Destination(dir, refs[j].name), Destination(dir, refs[k].name))
  }

  lemma PlainDestination(dir: Path, name: string)
    requires Plain(name)
    ensures Destination(dir, name) == dir + [name]
  {
    SplitWhole(name);
    assert Walk(dir + [name], [name][1..]) == dir + [name];
  }

  lemma PlainNamesApart(dir: Path, refs: seq<Ref>)
    requires DistinctRefs(refs) && forall r :: r in refs ==> Plain(r.name)
    ensures AllApart(dir, refs)
  {
    forall j, k | 0 <= j < k < |refs|
      ensures Apart(Destination(dir, refs[j].name), Destination(dir, refs[k].name))
    {
      PlainDestination(dir, refs[j].name);
      PlainDestination(dir, refs[k].name);
      assert (dir + [refs[j].name])[|dir|] == refs[j].name;
      assert (dir + [refs[k].name])[|dir|] == refs[k].name;
    }
  }

  lemma ReplaceAt(files: Tree, at: Path, tree: Tree, p: Path)
    ensures Lookup(Replace(files, at, tree), p) == if at <= p then Lookup(tree, p[|at|..]) else Lookup(files, p)
  {
    if at <= p {
      assert p == at + p[|at|..];
    }
    if exists q :: q in tree && p == at + q {
      var q :| q in tree && p == at + q;
      assert p[|at|..] == q;
    }
  }

  /** What the workspace holds under a copied destination is the artifact; elsewhere it is what
      was there before. */
  lemma {:induction false} CopiedAt(saved: map<Ref, Tree>, dir: Path, files: Tree, refs: seq<Ref>, p: Path)
    requires AllApart(dir, refs)
    ensures forall r :: r in refs && r in saved && Destination(dir, r.name) <= p ==>
              Lookup(Copied(saved, dir, files, refs), p) == Lookup(saved[r], p[|Destination(dir, r.name)|..])
    ensures (forall r :: r in refs && r in saved ==> !(Destination(dir, r.name) <= p)) ==>
              Lookup(Copied(saved, dir, files, refs), p) == Lookup(files, p)
  {
    if refs != [] {
      var n := |refs| - 1;
      var before := Copied(saved, dir, files, refs[..n]);
      CopiedAt(saved, dir, files, refs[..n], p);
      assert refs == refs[..n] + [refs[n]];
      if refs[n] in saved {
        ReplaceAt(before, Destination(dir, refs[n].name), saved[refs[n]], p);
      }
      forall r | r in refs[..n] && Destination(dir, r.name) <= p
        ensures !(Destination(dir, refs[n].name) <= p)
      {
        var j :| 0 <= j < n && refs[j] == r;
        PrefixesCompare(Destination(dir, refs[j].name), Destination(dir, refs[n].name), p);
      }
    }
  }

  lemma PrefixesCompare(a: Path, b: Path, p: Path)
    requires Apart(a, b) && a <= p
    ensures !(b <= p)
  {
  }

  /** Copies to destinations apart from each other commute. */
  lemma CopyOrderIrrelevant(saved: map<Ref, Tree>, dir: Path, files: Tree, refs: seq<Ref>, refs': seq<Ref>)
    requires AllApart(dir, refs) && AllApart(dir, refs')
    requires forall r :: r in refs <==> r in refs'
    ensures Copied(saved, dir, files, refs) == Copied(saved, dir, files, refs')
  {
    var now, now' := Copied(saved, dir, files, refs), Copied(saved, dir, files, refs');
    forall p ensures Lookup(now, p) == Lookup(now', p) {
      CopiedAt(saved, dir, files, refs, p);
      CopiedAt(saved, dir, files, refs', p);
    }
    forall p ensures p in now <==> p in now' {
      assert Lookup(now, p) == Lookup(now', p);
    }
    forall p | p in now ensures now[p] == now'[p] {
      assert Lookup(now, p) == Lookup(now', p);
    }
  }

  lemma RelistedApart(dir: Path, refs: seq<Ref>, order: seq<Ref>)
    requires Enumerates(order, Elements(refs)) && AllApart(dir, refs)
    ensures AllApart(dir, order) && forall r :: r in order <==> r in refs
  {
    forall r ensures r in order <==> r in refs {
      assert r in order <==> r in Elements(refs);
    }
    forall j, k | 0 <= j < k < |order|
      ensures Apart(Destination(dir, order[j].name), Destination(dir, order[k].name))
    {
      assert order[j] in refs && order[k] in refs && order[j] != order[k];
      var a :| 0 <= a < |refs| && refs[a] == order[j];
      var b :| 0 <= b < |refs| && refs[b] == order[k];
      assert a < b || b < a;
    }
  }

  /** The workspace does not depend on the order of the copies, whatever was saved. */
  ghost predicate OrderFree(dir: Path, refs: seq<Ref>) {
    forall saved: map<Ref, Tree>, files: Tree, order: seq<Ref> {:trigger Copied(saved, dir, files, order)} ::
      Enumerates(order, Elements(refs)) ==> Copied(saved, dir, files, order) == Copied(saved, dir, files, refs)
  }

  lemma ApartIsOrderFree(dir: Path, refs: seq<Ref>)
    requires AllApart(dir, refs)
    ensures OrderFree(dir, refs)
  {
    forall saved: map<Ref, Tree>, files: Tree, order: seq<Ref> | Enumerates(order, Elements(refs))
      ensures Copied(saved, dir, files, order) == Copied(saved, dir, files, refs)
    {
      RelistedApart(dir, refs, order);
      CopyOrderIrrelevant(saved, dir, files, order, refs);
    }
  }

  // ---------- when copies meet, exactly ----------

  /** Of any two artifacts that reach the target, neither is copied to or below the other. */
  ghost predicate NoMeeting(def: Definition, target: NodeId, dir: Path) {
    forall a, b :: Reaches(def, target, a) && Reaches(def, target, b) && a != b ==>
      Apart(Destination(dir, a.name), Destination(dir, b.name))
  }

  lemma NoMeetingIsApart(def: Definition, target: NodeId, dir: Path, inputs: seq<Input>)
    requires NoMeeting(def, target, dir) && InputsFor(def, target, inputs)
    ensures AllApart(dir, InputRefs(inputs))
  {
    var refs := InputRefs(inputs);
    RefsAreDistinct(def, target, inputs);
    forall j, k | 0 <= j < k < |refs| ensures Apart(Destination(dir, refs[j].name), Destination(dir, refs[k].name)) {
      assert refs[j] in refs && refs[k] in refs && refs[j] != refs[k];
      RefsComeFromInputs(def, target, inputs, refs[j]);
      RefsComeFromInputs(def, target, inputs, refs[k]);
    }
  }

  /** Any two artifacts that reach a target can be its two inputs. */
  lemma PairReaches(def: Definition, target: NodeId, a: Ref, b: Ref) returns (inputs: seq<Input>)
    requires Reaches(def, target, a) && Reaches(def, target, b) && a != b
    ensures InputsFor(def, target, inputs) && InputRefs(inputs) == [a, b]
  {
    if a.node == b.node {
      inputs := [SavedAll(a.node, [a.name, b.name], "", "")];
      SavedByOne(def, target, a, b, "", "");
    } else {
      inputs := [SavedAll(a.node, [a.name], "", ""), SavedAll(b.node, [b.name], "", "")];
      SavedByTwo(def, target, a, b, "", "", "");
    }
  }

  /** Copying an empty directory over what was copied to or below its destination removes it. */
  lemma LaterCopyRemoves(dir: Path, upper: Ref, lower: Ref)
    requires upper != lower && Destination(dir, upper.name) <= Destination(dir, lower.name)
    ensures var saved: map<Ref, Tree> := map[upper := map[], lower := map[[] := ""]];
      Copied(saved, dir, map[], [upper, lower]) != Copied(saved, dir, map[], [lower, upper])
  {
    var saved: map<Ref, Tree> := map[upper := map[], lower := map[[] := ""]];
    var at, below := Destination(dir, upper.name), Destination(dir, lower.name);
    assert [upper, lower][..1] == [upper] && [lower, upper][..1] == [lower];
    var first, second := Copied(saved, dir, map[], [upper]), Copied(saved, dir, map[], [lower]);
    ReplaceAt(first, below, saved[lower], below);
    ReplaceAt(second, at, saved[upper], below);
    assert below[|below|..] == [];
    assert Lookup(Copied(saved, dir, map[], [upper, lower]), below) == Some("");
    assert Lookup(Copied(saved, dir, map[], [lower, upper]), below) == None;
  }

  lemma OrderBreaks(saved: map<Ref, Tree>, dir: Path, a: Ref, b: Ref)
    requires a != b && Copied(saved, dir, map[], [b, a]) != Copied(saved, dir, map[], [a, b])
    ensures !OrderFree(dir, [a, b])
  {
    assert Enumerates([b, a], Elements([a, b])) by {
      assert forall r :: r in [b, a] <==> r in Elements([a, b]);
    }
  }

  lemma MeetingDependsOnOrder(dir: Path, a: Ref, b: Ref)
    requires a != b && !Apart(Destination(dir, a.name), Destination(dir, b.name))
    ensures !OrderFree(dir, [a, b])
  {
    if Destination(dir, a.name) <= Destination(dir, b.name) {
      LaterCopyRemoves(dir, a, b);
      OrderBreaks(map[a := map[], b := map[[] := ""]], dir, a, b);
    } else {
      LaterCopyRemoves(dir, b, a);
      OrderBreaks(map[b := map[], a := map[[] := ""]], dir, a, b);
    }
  }

  lemma PairApart(dir: Path, a: Ref, b: Ref)
    ensures AllApart(dir, [a, b]) <==> Apart(Destination(dir, a.name), Destination(dir, b.name))
  {
    assert [a, b][0] == a && [a, b][1] == b;
    if AllApart(dir, [a, b]) {
      assert Apart(Destination(dir, [a, b][0].name), Destination(dir, [a, b][1].name));
    }
  }

  ghost predicate AlwaysApart(def: Definition, target: NodeId, dir: Path) {
    forall inputs :: InputsFor(def, target, inputs) ==> AllApart(dir, InputRefs(inputs))
  }

  ghost predicate AlwaysOrderFree(def: Definition, target: NodeId, dir: Path) {
    forall inputs :: InputsFor(def, target, inputs) ==> OrderFree(dir, InputRefs(inputs))
  }

  /** For every definition, with any names: the copies into a node always go to places apart, and
      the workspace never depends on their order, exactly when no two declared artifacts of its
      upstreams meet. */
  lemma ApartExactly(def: Definition, target: NodeId, dir: Path)
    ensures AlwaysApart(def, target, dir) <==> NoMeeting(def, target, dir)
    ensures AlwaysOrderFree(def, target, dir) <==> NoMeeting(def, target, dir)
  {
    if NoMeeting(def, target, dir) {
      forall inputs | InputsFor(def, target, inputs)
        ensures AllApart(dir, InputRefs(inputs)) && OrderFree(dir, InputRefs(inputs))
      {
        NoMeetingIsApart(def, target, dir, inputs);
        ApartIsOrderFree(dir, InputRefs(inputs));
      }
    } else {
      var a, b :| Reaches(def, target, a) && Reaches(def, target, b) && a != b
                  && !Apart(Destination(dir, a.name), Destination(dir, b.name));
      var inputs := PairReaches(def, target, a, b);
      MeetingDependsOnOrder(dir, a, b);
      PairApart(dir, a, b);
    }
  }

  /** The validator is enough for tidy definitions: accepted ones have no meeting. */
  lemma AcceptedDoNotMeet(def: Definition, target: NodeId, dir: Path)
    requires Tidy(def) && forall c :: !IsCollision(def, c)
    ensures NoMeeting(def, target, dir)
  {
    AcceptedMeansNoCollision(def, target);
    forall a, b | Reaches(def, target, a) && Reaches(def, target, b) && a != b
      ensures Apart(Destination(dir, a.name), Destination(dir, b.name))
    {
      assert a.node != b.node ==> !StrippedCollision(def, Collision(target, a.node, b.node, a.name));
      TidyDeclared(def, a.node, a.name);
      TidyDeclared(def, b.node, b.name);
      PlainNamesApart(dir, [a, b]);
      PairApart(dir, a, b);
    }
  }

  /** So for an accepted tidy definition, honest inputs are copied to pairwise distinct places, and
      the workspace does not depend on the order of the copies. */
  lemma AcceptedCopiesCommute(def: Definition, target: NodeId, inputs: seq<Input>,
                              saved: map<Ref, Tree>, dir: Path, files: Tree, order: seq<Ref>)
    requires Tidy(def) && InputsFor(def, target, inputs)
    requires forall c :: !IsCollision(def, c)
    requires Enumerates(order, Elements(InputRefs(inputs)))
    ensures AllApart(dir, InputRefs(inputs))
    ensures Copied(saved, dir, files, order) == Copied(saved, dir, files, InputRefs(inputs))
  {
    AcceptedDoNotMeet(def, target, dir);
    NoMeetingIsApart(def, target, dir, inputs);
    ApartIsOrderFree(dir, InputRefs(inputs));
  }

  // ---------- the validator compares names before they are stripped ----------

  function Declaring(id: string, name: string): RawNode {
    RawNode(Id(id), "agent_step", Dict(map["artifacts" := List([Dict(map["name" := Str(name)])])]))
  }

  /** Two steps feeding a third. */
  function Joining(a: RawNode, b: RawNode, c: RawNode): Definition {
    Definition([a, b, c], [Edge(a.id, c.id), Edge(b.id, c.id)])
  }

  lemma DeclaringOne(id: string, name: string)
    ensures DeclaredNames(Declaring(id, name).data) == {name}
    ensures AsPlanNode(Declaring(id, name)).data == Declaring(id, name).data
  {
    var item := Dict(map["name" := Str(name)]);
    var data := Declaring(id, name).data;
    assert DeclaredArtifacts(data) == [item] && NameOf(item) == Some(name);
    assert item in DeclaredArtifacts(data);
  }

  lemma JoiningNodes(a: RawNode, b: RawNode, c: RawNode)
    requires a.id.Id? && b.id.Id? && c.id.Id? && a.id != b.id && a.id != c.id && b.id != c.id
    requires DeclaredNames(c.data) == {}
    ensures a.id in NodeIds(Joining(a, b, c)) && b.id in NodeIds(Joining(a, b, c))
    ensures LastDeclared([a, b, c], a.id) == a && LastDeclared([a, b, c], b.id) == b
    ensures Produces([a, b, c], a.id) == DeclaredNames(a.data)
    ensures Produces([a, b, c], b.id) == DeclaredNames(b.data)
  {
    var nodes := [a, b, c];
    assert a in nodes && b in nodes;
    assert nodes[..2] == [a, b] && [a, b][..1] == [a] && [a][..0] == [];
    assert a in [a, b] && b in [a, b] && a in [a];
    assert LastDeclared([a, b], b.id) == b && LastDeclared([a, b], a.id) == LastDeclared([a], a.id) == a;
    assert Produces([a], a.id) == DeclaredNames(a.data) && Produces([a], b.id) == {};
    assert Produces([a, b], a.id) == DeclaredNames(a.data) && Produces([a, b], b.id) == DeclaredNames(b.data);
  }

  /** Two steps that declare one name each, and what the validator and the copies make of it. */
  lemma JoiningTwo(name: string, name': string)
    requires name != name' && Strip(name) != "" && Strip(name') != ""
    ensures var a, b, c := Declaring("a", name), Declaring("b", name'), RawNode(Id("c"), "agent_step", Null);
      var def := Joining(a, b, c);
      && (forall c' :: !IsCollision(def, c'))
      && Reaches(def, c.id, Ref(a.id, Strip(name))) && Reaches(def, c.id, Ref(b.id, Strip(name')))
      && (forall r :: Reaches(def, c.id, r) ==> r == Ref(a.id, Strip(name)) || r == Ref(b.id, Strip(name')))
  {
    var a, b, c := Declaring("a", name), Declaring("b", name'), RawNode(Id("c"), "agent_step", Null);
    DeclaringOne("a", name);
    DeclaringOne("b", name');
    assert DeclaredNames(c.data) == {};
    JoiningNodes(a, b, c);
    assert name in DeclaredNames(a.data) && name' in DeclaredNames(b.data);
  }

  /** Names that differ only in blank ends pass the validator and still collide. */
  lemma UntrimmedNamesEscape(name: string, name': string)
    requires name != name' && Strip(name) == Strip(name') && Strip(name) != ""
    ensures var a, b, c := Declaring("a", name), Declaring("b", name'), RawNode(Id("c"), "agent_step", Null);
      && (forall c' :: !IsCollision(Joining(a, b, c), c'))
      && StrippedCollision(Joining(a, b, c), Collision(c.id, a.id, b.id, Strip(name)))
  {
    JoiningTwo(name, name');
  }

  /** For instance "report" and " report". */
  lemma UntrimmedExample()
    ensures var a, b, c := Declaring("a", "report"), Declaring("b", " report"), RawNode(Id("c"), "agent_step", Null);
      && (forall c' :: !IsCollision(Joining(a, b, c), c'))
      && StrippedCollision(Joining(a, b, c), Collision(c.id, a.id, b.id, "report"))
  {
    assert " report"[1..] == "report";
    assert Strip(" report") == Strip("report") == "report";
    UntrimmedNamesEscape("report", " report");
  }

  // ---------- and it does not look at where they lead ----------

  lemma DottedDestination(dir: Path, name: string)
    requires Plain(name)
    ensures Destination(dir, "./" + name) == Destination(dir, name)
  {
    SplitFirst(".", name);
    assert "." + "/" + name == "./" + name;
    assert ([["."][0]] + Split(name))[1..] == Split(name);
  }

  /** A name and the same name after "./" pass the validator, do not collide after stripping, and
      still go to one place. */
  lemma DottedNamesMeet(name: string, dir: Path)
    requires Plain(name) && Strip(name) == name && Strip("./" + name) == "./" + name
    ensures var a, b, c := Declaring("a", name), Declaring("b", "./" + name), RawNode(Id("c"), "agent_step", Null);
      var def := Joining(a, b, c);
      && (forall c' :: !IsCollision(def, c'))
      && NoneCollides(def, c.id)
      && !NoMeeting(def, c.id, dir)
  {
    var dotted := "./" + name;
    var def := Joining(Declaring("a", name), Declaring("b", dotted), RawNode(Id("c"), "agent_step", Null));
    assert dotted[1] == '/' && dotted != name;
    JoiningTwo(name, dotted);
    forall c: Collision | c.target == Id("c") ensures !StrippedCollision(def, c) {
      OnlyTwoReach(def, c, Ref(Id("a"), name), Ref(Id("b"), dotted));
    }
    DottedDestination(dir, name);
    MeetingPair(def, Id("c"), Ref(Id("a"), name), Ref(Id("b"), dotted), dir);
  }

  lemma OnlyTwoReach(def: Definition, c: Collision, a: Ref, b: Ref)
    requires forall r :: Reaches(def, c.target, r) ==> r == a || r == b
    requires a.name != b.name
    ensures !StrippedCollision(def, c)
  {
    if StrippedCollision(def, c) {
      assert Reaches(def, c.target, Ref(c.first, c.name)) && Reaches(def, c.target, Ref(c.second, c.name));
    }
  }

  lemma MeetingPair(def: Definition, target: NodeId, a: Ref, b: Ref, dir: Path)
    requires Reaches(def, target, a) && Reaches(def, target, b) && a != b
    requires Destination(dir, a.name) == Destination(dir, b.name)
    ensures !NoMeeting(def, target, dir)
  {
  }

  /** For instance "report" and "./report". */
  lemma DottedExample(dir: Path)
    ensures var a, b, c := Declaring("a", "report"), Declaring("b", "./report"), RawNode(Id("c"), "agent_step", Null);
      var def := Joining(a, b, c);
      && (forall c' :: !IsCollision(def, c'))
      && NoneCollides(def, c.id)
      && !NoMeeting(def, c.id, dir)
  {
    assert "./" + "report" == "./report";
    DottedNamesMeet("report", dir);
  }
}
