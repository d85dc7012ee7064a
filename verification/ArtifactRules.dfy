/** The artifact rules said of the JSON itself: what counts as a declared name, a save call and a listed
    artifact (workflow-worker/worker/activities/agent_step_helpers.py,
    api/app/services/workflow_run_service.py). */
module ArtifactRules {
  import opened Common
  import opened Dag
  import opened Paths
  import opened Artifacts

  ghost predicate Has(j: Json, key: string, value: Json) {
    j.Dict? && key in j.fields && j.fields[key] == value
  }

  /** The data of a node lists an artifact of that name, as written. */
  ghost predicate Lists(data: Json, key: string, item: Json) {
    data.Dict? && key in data.fields && data.fields[key].List? && item in data.fields[key].items
  }

  ghost predicate DeclaresAs(data: Json, name: string) {
    exists item :: Lists(data, "artifacts", item) && Has(item, "name", Str(name))
  }

  ghost predicate DeclaresAny(data: Json) {
    exists name :: DeclaresAs(data, name)
  }

  lemma NameMeans(item: Json, name: string)
    ensures NameOf(item) == Some(name) <==> Has(item, "name", Str(name))
  {
  }

  lemma DeclaredMeans(data: Json, name: string)
    ensures name in DeclaredNames(data) <==> DeclaresAs(data, name)
  {
    if name in DeclaredNames(data) {
      var a :| a in DeclaredArtifacts(data) && NameOf(a) == Some(name);
      assert Lists(data, "artifacts", a) && Has(a, "name", Str(name));
    }
    if DeclaresAs(data, name) {
      var item :| Lists(data, "artifacts", item) && Has(item, "name", Str(name));
      NameMeans(item, name);
      assert item in DeclaredArtifacts(data);
    }
  }

  lemma DeclaresNone(data: Json)
    ensures DeclaredNames(data) == {} <==> !DeclaresAny(data)
  {
    if DeclaresAny(data) {
      var name :| DeclaresAs(data, name);
      DeclaredMeans(data, name);
    }
    if name :| name in DeclaredNames(data) {
      DeclaredMeans(data, name);
    }
  }

  // ---------- the validator ----------

  /** The k-th declaration is the last of the id that declares any artifact. */
  ghost predicate DeclaresLast(nodes: seq<RawNode>, id: NodeId, k: nat) {
    && k < |nodes| && nodes[k].id == id && DeclaresAny(nodes[k].data)
    && forall j :: k < j < |nodes| && nodes[j].id == id ==> !DeclaresAny(nodes[j].data)
  }

  /** The names the validator takes an id to produce: those of its last declaration that has any. */
  lemma {:induction false} ProducesMeans(nodes: seq<RawNode>, id: NodeId, name: string)
    requires id.Id?
    ensures name in Produces(nodes, id)
            <==> exists k: nat :: DeclaresLast(nodes, id, k) && DeclaresAs(nodes[k].data, name)
  {
    if nodes != [] {
      var front, last := nodes[..|nodes| - 1], nodes[|nodes| - 1];
      assert front + [last] == nodes;
      DeclaresNone(last.data);
      DeclaredMeans(last.data, name);
      if last.id == id && DeclaresAny(last.data) {
        assert DeclaresLast(nodes, id, |front|);
        forall k: nat | DeclaresLast(nodes, id, k) ensures k == |front| {
        }
      } else {
        ProducesMeans(front, id, name);
        forall k: nat ensures DeclaresLast(front + [last], id, k) <==> DeclaresLast(front, id, k) {
          LastStays(front, last, id, k);
        }
      }
    }
  }

  lemma LastStays(front: seq<RawNode>, last: RawNode, id: NodeId, k: nat)
    requires !(last.id == id && DeclaresAny(last.data))
    ensures DeclaresLast(front + [last], id, k) <==> DeclaresLast(front, id, k)
  {
    var nodes := front + [last];
    assert forall j :: 0 <= j < |front| ==> nodes[j] == front[j];
    assert nodes[|front|] == last;
  }

  /** What the validator rejects: a node with edges from two different nodes whose last declarations
      with artifacts share a name, as written; all three with string ids. */
  ghost predicate SharedName(def: Definition, c: Collision) {
    && c.target.Id? && c.first.Id? && c.second.Id? && c.first != c.second
    && Edge(c.first, c.target) in def.edges && Edge(c.second, c.target) in def.edges
    && (exists k: nat :: DeclaresLast(def.nodes, c.first, k) && DeclaresAs(def.nodes[k].data, c.name))
    && (exists k: nat :: DeclaresLast(def.nodes, c.second, k) && DeclaresAs(def.nodes[k].data, c.name))
  }

  lemma CollisionMeans(def: Definition, c: Collision)
    ensures IsCollision(def, c) <==> SharedName(def, c)
  {
    if c.first.Id? && c.second.Id? {
      ProducesMeans(def.nodes, c.first, c.name);
      ProducesMeans(def.nodes, c.second, c.name);
    }
  }

  // ---------- saves ----------

  /** A tool call that saves an artifact of that name. */
  ghost predicate Saves(block: Json, name: string) {
    && Has(block, "type", Str("tool_call")) && Has(block, "name", Str("mcp__system__save_as_artifact"))
    && block.Dict? && "input" in block.fields && Has(block.fields["input"], "artifact_name", Str(name))
  }

  lemma SavedMeans(block: Json, declared: set<string>, name: string)
    ensures SavedName(block, declared) == Some(name) <==> name in declared && Saves(block, name)
  {
  }

  /** Where each listed name was first saved. */
  ghost predicate FirstSaves(blocks: seq<Json>, declared: set<string>, names: seq<string>, at: seq<nat>) {
    && |at| == |names|
    && (forall i :: 0 <= i < |at| ==> at[i] < |blocks| && names[i] in declared && Saves(blocks[at[i]], names[i]))
    && (forall i, j :: 0 <= i < |at| && 0 <= j < at[i] ==> !Saves(blocks[j], names[i]))
    && (forall i, j :: 0 <= i < j < |at| ==> at[i] < at[j])
    && (forall k, name :: 0 <= k < |blocks| && name in declared && Saves(blocks[k], name) ==> name in names)
  }

  lemma FirstSavesSnoc(blocks: seq<Json>, declared: set<string>, names: seq<string>, at: seq<nat>, last: Json)
    requires FirstSaves(blocks, declared, names, at)
    ensures (forall name :: name in declared && Saves(last, name) ==> name in names) ==>
              FirstSaves(blocks + [last], declared, names, at)
    ensures forall name :: name in declared && Saves(last, name) && name !in names ==>
              FirstSaves(blocks + [last], declared, names + [name], at + [|blocks|])
  {
    var longer := blocks + [last];
    assert longer[|blocks|] == last;
    assert forall k :: 0 <= k < |blocks| ==> longer[k] == blocks[k];
    forall name | name in declared && Saves(last, name) && name !in names
      ensures FirstSaves(longer, declared, names + [name], at + [|blocks|])
    {
      assert forall n :: n in names ==> n in names + [name];
      assert (names + [name])[|names|] == name;
    }
  }

  /** The saved names: all declared names that are saved, each once, in the order of their first saves. */
  lemma {:induction false} SavedInOrder(blocks: seq<Json>, declared: set<string>) returns (at: seq<nat>)
    ensures FirstSaves(blocks, declared, SavedNames(blocks, declared), at)
  {
    if blocks == [] {
      at := [];
    } else {
      var front, last := blocks[..|blocks| - 1], blocks[|blocks| - 1];
      var names := SavedNames(front, declared);
      at := SavedInOrder(front, declared);
      assert front + [last] == blocks;
      FirstSavesSnoc(front, declared, names, at, last);
      forall name ensures SavedName(last, declared) == Some(name) <==> name in declared && Saves(last, name) {
        SavedMeans(last, declared, name);
      }
      if SavedName(last, declared).Some? && SavedName(last, declared).value !in names {
        at := at + [|front|];
      }
    }
  }

  /** The payload of a step: an entry for each saved name of a declared artifact, in the order of the
      first saves, with the place it is kept under the first run of the chain. */
  lemma ProducedMeans(blocks: seq<Json>, artifacts: seq<Artifact>, declared: set<string>, rootRun: string,
                      node: string) returns (at: seq<nat>)
    requires forall name :: name in declared <==> exists a :: a in artifacts && a.name == name
    ensures var names := SavedNames(blocks, NamesOf(artifacts));
      var entries := ProducedEntries(names, rootRun, node);
      && |entries| == |names|
      && FirstSaves(blocks, declared, names, at)
      && forall i :: 0 <= i < |names| ==>
           entries[i] == Dict(map["name" := Str(names[i]),
                                  "path" := Str(Join(["workflows", rootRun, "artifacts", node, names[i]]))])
  {
    NamesAre(artifacts, declared);
    var names := SavedNames(blocks, declared);
    at := SavedInOrder(blocks, declared);
    forall i | 0 <= i < |names|
      ensures Join(["workflows", rootRun, "artifacts", node, names[i]])
              == "workflows/" + rootRun + "/artifacts/" + node + "/" + names[i]
    {
      JoinFive("workflows", rootRun, "artifacts", node, names[i]);
    }
  }

  lemma NamesAre(artifacts: seq<Artifact>, declared: set<string>)
    requires forall name :: name in declared <==> exists a :: a in artifacts && a.name == name
    ensures NamesOf(artifacts) == declared
  {
  }

  lemma JoinFive(a: string, b: string, c: string, d: string, e: string)
    ensures Join([a, b, c, d, e]) == a + "/" + b + "/" + c + "/" + d + "/" + e
  {
    assert [a, b, c, d, e][1..] == [b, c, d, e] && [b, c, d, e][1..] == [c, d, e] && [c, d, e][1..] == [d, e];
    var de := d + "/" + e;
    var cde := c + "/" + de;
    var bcde := b + "/" + cde;
    assert Join([d, e]) == de && Join([c, d, e]) == cde && Join([b, c, d, e]) == bcde;
    assert a + "/" + b + "/" + c + "/" + d + "/" + e == a + "/" + b + "/" + c + "/" + de;
    assert a + "/" + b + "/" + c + "/" + de == a + "/" + b + "/" + cde;
    assert a + "/" + b + "/" + cde == a + "/" + bcde;
  }

  // ---------- declared artifacts, normalised ----------

  /** The entry's name without blank ends. */
  ghost predicate Trimmed(item: Json, key: string, text: string) {
    exists raw :: Has(item, key, Str(raw)) && text == Strip(raw)
  }

  lemma TrimmedName(item: Json, name: string)
    ensures Trimmed(item, "name", name) <==> NameOf(item).Some? && Strip(NameOf(item).value) == name
  {
    if NameOf(item).Some? {
      NameMeans(item, NameOf(item).value);
    }
    if raw :| Has(item, "name", Str(raw)) && name == Strip(raw) {
      NameMeans(item, raw);
    }
  }

  /** An artifact made of an entry: its trimmed name, and its trimmed description unless that is
      missing or blank. */
  ghost predicate MadeOf(a: Artifact, item: Json) {
    && a.name != "" && Trimmed(item, "name", a.name)
    && match a.description
       case Some(text) => text != "" && Trimmed(item, "description", text)
       case None => forall text :: Trimmed(item, "description", text) ==> text == ""
  }

  lemma MadeOfEntry(item: Json, name: string)
    requires name != "" && Trimmed(item, "name", name)
    ensures MadeOf(AsArtifact(item, name), item)
  {
    var desc := Field(item, "description");
    if desc.Str? {
      assert Has(item, "description", Str(desc.s));
    }
  }

  /** Each artifact with the entry it was made of: the first with its trimmed name. */
  ghost predicate FirstEntries(raw: seq<Json>, out: seq<Artifact>, at: seq<nat>) {
    && |at| == |out|
    && (forall i :: 0 <= i < |at| ==> at[i] < |raw| && MadeOf(out[i], raw[at[i]]))
    && (forall i, j :: 0 <= i < |at| && 0 <= j < at[i] ==> !Trimmed(raw[j], "name", out[i].name))
    && (forall i, j :: 0 <= i < j < |at| ==> at[i] < at[j])
  }

  lemma FirstEntriesSnoc(raw: seq<Json>, out: seq<Artifact>, at: seq<nat>, item: Json, a: Artifact)
    requires FirstEntries(raw, out, at)
    ensures FirstEntries(raw + [item], out, at)
    ensures MadeOf(a, item) && (forall j :: 0 <= j < |raw| ==> !Trimmed(raw[j], "name", a.name)) ==>
              FirstEntries(raw + [item], out + [a], at + [|raw|])
  {
    var longer := raw + [item];
    assert longer[|raw|] == item;
    assert forall k :: 0 <= k < |raw| ==> longer[k] == raw[k];
  }

  lemma NameIsNew(raw: seq<Json>, name: string)
    requires name != "" && name !in NamesOf(Normalized(raw))
    ensures forall j :: 0 <= j < |raw| ==> !Trimmed(raw[j], "name", name)
  {
    NormalizedNames(raw, name);
    forall j | 0 <= j < |raw| ensures !Trimmed(raw[j], "name", name) {
      TrimmedName(raw[j], name);
      assert raw[j] in raw;
    }
  }

  /** The normalised artifacts: for each trimmed name that is not blank its first entry, in the order
      of the entries. */
  lemma {:induction false} NormalizedEntries(raw: seq<Json>) returns (at: seq<nat>)
    ensures FirstEntries(raw, Normalized(raw), at)
  {
    if raw == [] {
      at := [];
    } else {
      var front, item := raw[..|raw| - 1], raw[|raw| - 1];
      var before, now := Normalized(front), Normalized(raw);
      at := NormalizedEntries(front);
      assert front + [item] == raw;
      if now == before {
        FirstEntriesSnoc(front, before, at, item, Artifact("", None));
      } else {
        var name := Strip(NameOf(item).value);
        TrimmedName(item, name);
        MadeOfEntry(item, name);
        NameIsNew(front, name);
        FirstEntriesSnoc(front, before, at, item, AsArtifact(item, name));
        at := at + [|front|];
      }
    }
  }

  lemma NormalizedMeans(raw: seq<Json>, name: string)
    ensures (exists a :: a in Normalized(raw) && a.name == name)
            <==> name != "" && exists item :: item in raw && Trimmed(item, "name", name)
  {
    NormalizedNames(raw, name);
    forall item ensures Trimmed(item, "name", name) <==> NameOf(item).Some? && Strip(NameOf(item).value) == name {
      TrimmedName(item, name);
    }
  }

  // ---------- listed artifacts ----------

  ghost predicate Nameable(item: Json) {
    exists name :: name != "" && Has(item, "name", Str(name))
  }

  ghost function ListedItems(payload: Json): seq<Json> {
    if payload.Dict? && "artifacts_produced" in payload.fields && payload.fields["artifacts_produced"].List?
    then payload.fields["artifacts_produced"].items else []
  }

  ghost predicate RefsAt(refs: seq<Ref>, node: NodeId, items: seq<Json>, at: seq<nat>) {
    && Selects(items, Nameable, at) && |refs| == |at|
    && forall i :: 0 <= i < |at| ==> refs[i].node == node && Has(items[at[i]], "name", Str(refs[i].name))
  }

  ghost predicate RefsListed(refs: seq<Ref>, node: NodeId, items: seq<Json>) {
    exists at :: RefsAt(refs, node, items, at)
  }

  lemma RefsAtSnoc(refs: seq<Ref>, node: NodeId, items: seq<Json>, at: seq<nat>, last: Json, name: string)
    requires RefsAt(refs, node, items, at)
    ensures name != "" && Has(last, "name", Str(name)) ==>
              RefsAt(refs + [Ref(node, name)], node, items + [last], at + [|items|])
    ensures !Nameable(last) ==> RefsAt(refs, node, items + [last], at)
  {
    SelectsSnoc(items, Nameable, at, last);
  }

  lemma NameableMeans(item: Json)
    ensures Nameable(item) <==> NameOf(item).Some? && NameOf(item).value != ""
  {
    if NameOf(item).Some? && NameOf(item).value != "" {
      NameMeans(item, NameOf(item).value);
    }
    if name :| name != "" && Has(item, "name", Str(name)) {
      NameMeans(item, name);
    }
  }

  lemma RefsStep(node: NodeId, front: seq<Json>, last: Json)
    ensures RefsOf(node, front + [last])
            == if Nameable(last) then RefsOf(node, front) + [Ref(node, NameOf(last).value)] else RefsOf(node, front)
    ensures Nameable(last) ==>
              NameOf(last).Some? && NameOf(last).value != "" && Has(last, "name", Str(NameOf(last).value))
  {
    NameableMeans(last);
    if NameOf(last).Some? {
      NameMeans(last, NameOf(last).value);
    }
    assert (front + [last])[..|front|] == front && RefsOf(node, front) + [] == RefsOf(node, front);
  }

  lemma {:induction false} RefsMean(node: NodeId, items: seq<Json>) returns (at: seq<nat>)
    ensures RefsAt(RefsOf(node, items), node, items, at)
  {
    if items == [] {
      at := [];
    } else {
      var front, last := items[..|items| - 1], items[|items| - 1];
      at := RefsMean(node, front);
      RefsStep(node, front, last);
      assert front + [last] == items;
      if Nameable(last) {
        RefsAtSnoc(RefsOf(node, front), node, front, at, last, NameOf(last).value);
        at := at + [|front|];
      } else {
        RefsAtSnoc(RefsOf(node, front), node, front, at, last, "");
      }
    }
  }

  lemma PayloadListed(input: Input)
    ensures RefsListed(RefsOf(input.node, Listed(input.payload)), input.node, ListedItems(input.payload))
  {
    assert Listed(input.payload) == ListedItems(input.payload);
    var at := RefsMean(input.node, Listed(input.payload));
  }

  /** What is copied into a node's workspace: payload by payload, in order, every listed entry with a
      nonempty name. */
  lemma {:induction false} InputRefsMean(inputs: seq<Input>) returns (parts: seq<seq<Ref>>)
    ensures |parts| == |inputs| && InputRefs(inputs) == Concat(parts)
    ensures forall i :: 0 <= i < |inputs| ==> RefsListed(parts[i], inputs[i].node, ListedItems(inputs[i].payload))
  {
    if inputs == [] {
      parts := [];
    } else {
      var front, last := inputs[..|inputs| - 1], inputs[|inputs| - 1];
      var before := InputRefsMean(front);
      var now := RefsOf(last.node, Listed(last.payload));
      PayloadListed(last);
      parts := before + [now];
      assert parts[..|parts| - 1] == before;
      forall i | 0 <= i < |inputs|
        ensures RefsListed(parts[i], inputs[i].node, ListedItems(inputs[i].payload))
      {
        if i < |front| {
          assert parts[i] == before[i] && inputs[i] == front[i];
        }
      }
    }
  }

  ghost function Concat(parts: seq<seq<Ref>>): seq<Ref> {
    if parts == [] then [] else Concat(parts[..|parts| - 1]) + parts[|parts| - 1]
  }

  /** An artifact with a plain name goes right below the directory. */
  lemma PlainDestination(dir: Path, name: string)
    requires Plain(name)
    ensures Destination(dir, name) == dir + [name]
  {
    SplitWhole(name);
    WalkAppends(dir, [name]);
  }
}
