/** The record-to-node mapping of the four generators: each record of the
    parsed array becomes, by position, a `ProjectNode` of the generated level
    whose level fields are copied from the record as they are. `Date.now()` is
    read twice per record, once for the id and once for the timestamp; the
    readings are the parameter `clock`, whose reading number `2 * i` serves
    record `i`'s id and reading `2 * i + 1` its timestamp. */
module Mapping {
  import opened Wrappers
  import opened Text
  import opened Models
  import opened Runtime

  /** `<tag>_<now>_<index>`, the id of the record at `index`. */
  function BatchId(level: Level, now: nat, index: nat): (r: string)
    ensures StartsWith(r, CellTypeName(level) + "_")
    ensures EndsWith(r, "_" + NatToDecimal(index))
  {
    var tag := CellTypeName(level) + "_";
    var head := tag + NatToDecimal(now);
    assert StartsWith(tag, tag) by {
      assert tag[..|tag|] == tag;
    }
    StartsWithExtended(tag, NatToDecimal(now), tag);
    StartsWithExtended(head, "_", tag);
    StartsWithExtended(head + "_", NatToDecimal(index), tag);
    assert head + "_" + NatToDecimal(index) == head + ("_" + NatToDecimal(index));
    EndsWithSecond(head, "_" + NatToDecimal(index));
    head + "_" + NatToDecimal(index)
  }

  /** The variable that holds the parsed reply in each generator. */
  function BatchVariable(level: Level): string {
    match level
    case Epic => "epics"
    case Feature => "features"
    case Story => "stories"
    case Task => "tasks"
  }

  /** Splitting at the last `_` recovers both halves when the tail has no `_`. */
  lemma SplitAtLastUnderscore(a: string, q: string, b: string, q': string)
    requires '_' !in q && '_' !in q'
    ensures a + "_" + q == b + "_" + q' ==> a == b && q == q'
  {
    var s, s' := a + "_" + q, b + "_" + q';
    assert s[|a|] == '_';
    forall k | |a| < k < |s| ensures s[k] != '_' {
      assert s[k] == q[k - |a| - 1];
    }
    assert LastIndexOf(s, '_') == |a|;
    assert s'[|b|] == '_';
    forall k | |b| < k < |s'| ensures s'[k] != '_' {
      assert s'[k] == q'[k - |b| - 1];
    }
    assert LastIndexOf(s', '_') == |b|;
    if s == s' {
      assert a == s[..|a|] && b == s'[..|b|];
      assert q == s[|a| + 1..] && q' == s'[|b| + 1..];
    }
  }

  /** A numeral holds digits only. */
  lemma NoUnderscoreInNumeral(n: nat)
    ensures '_' !in NatToDecimal(n)
  {
    var d := NatToDecimal(n);
    forall k | 0 <= k < |d| ensures d[k] != '_' {
    }
  }

  /** Ids tell their level, clock reading and index apart: equal ids come from
      the same level, the same reading and the same position. */
  lemma BatchIdInjective(l1: Level, now1: nat, i1: nat, l2: Level, now2: nat, i2: nat)
    ensures BatchId(l1, now1, i1) == BatchId(l2, now2, i2) ==> l1 == l2 && now1 == now2 && i1 == i2
  {
    NoUnderscoreInNumeral(now1);
    NoUnderscoreInNumeral(now2);
    NoUnderscoreInNumeral(i1);
    NoUnderscoreInNumeral(i2);
    var head1 := CellTypeName(l1) + "_" + NatToDecimal(now1);
    var head2 := CellTypeName(l2) + "_" + NatToDecimal(now2);
    SplitAtLastUnderscore(head1, NatToDecimal(i1), head2, NatToDecimal(i2));
    SplitAtLastUnderscore(CellTypeName(l1), NatToDecimal(now1), CellTypeName(l2), NatToDecimal(now2));
    if BatchId(l1, now1, i1) == BatchId(l2, now2, i2) {
      assert CellTypeOf(CellTypeName(l1)) == Some(l1);
      NatToDecimalInjective(now1, now2);
      NatToDecimalInjective(i1, i2);
    }
  }

  /** `record.<key>`: the property of a parsed object, `undefined` when it has
      none; strings, numbers, booleans and arrays have none of the keys read. */
  function Member(record: Json, key: string): (r: Field)
    ensures r.Some? ==> record.JObject? && key in record.members && r.value == record.members[key]
    ensures record.JObject? && key in record.members ==> r == Some(record.members[key])
  {
    match record
    case JObject(m) => if key in m then Some(m[key]) else None
    case _ => None
  }

  /** The keys each generator copies from its records into the nodes. */
  function CopiedKeys(level: Level): set<string> {
    match level
    case Epic => {"title", "description", "priority", "estimatedDuration"}
    case Feature => {"title", "description", "priority", "estimatedEffort"}
    case Story => {"title", "description", "acceptanceCriteria", "priority", "estimatedStoryPoints"}
    case Task => {"title", "description", "priority", "estimatedHours", "status"}
  }

  /** A node's JSON-valued property by name; `None` for any other name. */
  function Property(n: ProjectNode, key: string): Field {
    match key
    case "title" => n.title
    case "description" => n.description
    case "priority" => n.priority
    case "estimatedHours" => n.estimatedHours
    case "estimatedStoryPoints" => n.estimatedStoryPoints
    case "estimatedEffort" => n.estimatedEffort
    case "estimatedDuration" => n.estimatedDuration
    case "status" => n.status
    case "acceptanceCriteria" => n.acceptanceCriteria
    case _ => None
  }

  /** The node built for the record at `index`: the level's fields written out
      as each generator's object literal lists them. */
  function NewNode(level: Level, record: Json, index: nat, parentId: string, idTime: nat, createdAt: nat): (r: ProjectNode)
    ensures r.id == BatchId(level, idTime, index)
    ensures r.kind == level && r.parentId == Some(parentId) && r.children == Present([])
    ensures r.timestamp == createdAt
    ensures forall key :: Property(r, key) == if key in CopiedKeys(level) then Member(record, key) else None
    ensures r.dependencies == if level == Task then Some([]) else None
  {
    var base := ProjectNode(BatchId(level, idTime, index), level, Member(record, "title"),
      Member(record, "description"), Present([]), Some(parentId), createdAt,
      Member(record, "priority"), None, None, None, None, None, None, None);
    match level
    case Epic => base.(estimatedDuration := Member(record, "estimatedDuration"))
    case Feature => base.(estimatedEffort := Member(record, "estimatedEffort"))
    case Story => base.(acceptanceCriteria := Member(record, "acceptanceCriteria"),
      estimatedStoryPoints := Member(record, "estimatedStoryPoints"))
    case Task => base.(estimatedHours := Member(record, "estimatedHours"),
      status := Member(record, "status"), dependencies := Some([]))
  }

  /** `<variable>.map((record, index) => ({ ... }))` over the parsed reply. A
      `null` reply fails reading `map`, any other non-array has no `map`
      method, and a `null` record fails reading its `title`; otherwise record
      `i` becomes node `i`. */
  function MapBatch(level: Level, parsed: Json, parentId: string, clock: nat -> nat): (r: Result<seq<ProjectNode>, string>)
    ensures r.Success? <==> parsed.JArray? && JNull !in parsed.items
    ensures r.Success? ==> |r.value| == |parsed.items|
    ensures r.Success? ==> forall i :: 0 <= i < |r.value| ==>
      r.value[i] == NewNode(level, parsed.items[i], i, parentId, clock(2 * i), clock(2 * i + 1))
    ensures parsed.JNull? ==> r == Failure(NullRead("map"))
    ensures parsed.JArray? && JNull in parsed.items ==> r == Failure(NullRead("title"))
    ensures !parsed.JNull? && !parsed.JArray? ==> r == Failure(NotAFunction(BatchVariable(level) + ".map"))
  {
    match parsed
    case JNull => Failure(NullRead("map"))
    case JArray(items) =>
      if JNull in items then Failure(NullRead("title"))
      else Success(seq(|items|, i requires 0 <= i < |items| =>
        NewNode(level, items[i], i, parentId, clock(2 * i), clock(2 * i + 1))))
    case _ => Failure(NotAFunction(BatchVariable(level) + ".map"))
  }

  /** Every node of a batch is a child of the caller's node at the generated
      level, with no children and, for tasks only, no dependencies. */
  lemma BatchNodesShape(level: Level, parsed: Json, parentId: string, clock: nat -> nat)
    requires MapBatch(level, parsed, parentId, clock).Success?
    ensures forall n | n in MapBatch(level, parsed, parentId, clock).value ::
      && n.kind == level && n.parentId == Some(parentId) && n.children == Present([])
      && n.dependencies == (if level == Task then Some([]) else None)
      && CellTypeOf(Take(n.id, |CellTypeName(level)|)) == Some(level)
  {
    var nodes := MapBatch(level, parsed, parentId, clock).value;
    forall n | n in nodes
      ensures && n.kind == level && n.parentId == Some(parentId) && n.children == Present([])
              && n.dependencies == (if level == Task then Some([]) else None)
              && CellTypeOf(Take(n.id, |CellTypeName(level)|)) == Some(level)
    {
      var i :| 0 <= i < |nodes| && nodes[i] == n;
      NewNodeShape(level, parsed.items[i], i, parentId, clock(2 * i), clock(2 * i + 1));
    }
  }

  /** One node's shape: its level, parent, empty children, dependencies, and
      an id that starts with the level's tag. */
  lemma NewNodeShape(level: Level, record: Json, index: nat, parentId: string, idTime: nat, createdAt: nat)
    ensures var n := NewNode(level, record, index, parentId, idTime, createdAt);
      && n.kind == level && n.parentId == Some(parentId) && n.children == Present([])
      && n.dependencies == (if level == Task then Some([]) else None)
      && CellTypeOf(Take(n.id, |CellTypeName(level)|)) == Some(level)
  {
    var id := NewNode(level, record, index, parentId, idTime, createdAt).id;
    var name := CellTypeName(level);
    assert StartsWith(id, name + "_");
    assert id[..|name|] == (name + "_")[..|name|] == name;
  }

  /** The first `k` characters of `s`, or all of `s` when it is shorter. */
  function Take(s: string, k: nat): string {
    if k <= |s| then s[..k] else s
  }

  /** No two nodes of one batch share an id, whatever the clock reads. */
  lemma BatchIdsDistinct(level: Level, parsed: Json, parentId: string, clock: nat -> nat)
    requires MapBatch(level, parsed, parentId, clock).Success?
    ensures var nodes := MapBatch(level, parsed, parentId, clock).value;
      forall i, j :: 0 <= i < j < |nodes| ==> nodes[i].id != nodes[j].id
  {
    var nodes := MapBatch(level, parsed, parentId, clock).value;
    forall i, j | 0 <= i < j < |nodes| ensures nodes[i].id != nodes[j].id {
      BatchIdInjective(level, clock(2 * i), i, level, clock(2 * j), j);
    }
  }

  /** The domain check a copied property must pass for the node to have the
      declared `ProjectNode` shape. */
  predicate Conforms(key: string, f: Field) {
    match key
    case "title" => IsString(f)
    case "description" => OptionalString(f)
    case "priority" => OptionalPriority(f)
    case "estimatedHours" => OptionalNumber(f)
    case "estimatedStoryPoints" => OptionalNumber(f)
    case "estimatedEffort" => OptionalEffort(f)
    case "estimatedDuration" => OptionalString(f)
    case "status" => OptionalStatus(f)
    case "acceptanceCriteria" => OptionalStrings(f)
    case _ => true
  }

  /** The service checks nothing: a node has the declared shape exactly when
      every property copied from its record passes its domain check. */
  lemma NewNodeWellTyped(level: Level, record: Json, index: nat, parentId: string, idTime: nat, createdAt: nat)
    ensures WellTyped(NewNode(level, record, index, parentId, idTime, createdAt))
      <==> forall key :: key in CopiedKeys(level) ==> Conforms(key, Member(record, key))
  {
    match level
    case Epic => NewNodeWellTypedEpic(record, index, parentId, idTime, createdAt);
    case Feature => NewNodeWellTypedFeature(record, index, parentId, idTime, createdAt);
    case Story => NewNodeWellTypedStory(record, index, parentId, idTime, createdAt);
    case Task => NewNodeWellTypedTask(record, index, parentId, idTime, createdAt);
  }

  /** `NewNodeWellTyped` for an epic. */
  lemma NewNodeWellTypedEpic(record: Json, index: nat, parentId: string, idTime: nat, createdAt: nat)
    ensures WellTyped(NewNode(Epic, record, index, parentId, idTime, createdAt))
      <==> forall key :: key in CopiedKeys(Epic) ==> Conforms(key, Member(record, key))
  {
    var n := NewNode(Epic, record, index, parentId, idTime, createdAt);
    var title, description := Member(record, "title"), Member(record, "description");
    var priority := Member(record, "priority");
    var duration := Member(record, "estimatedDuration");
    assert WellTyped(n) <==> (IsString(title) && OptionalString(description)
      && OptionalPriority(priority) && OptionalString(duration));
    EpicKeysConform(record);
  }

  /** The copied keys of an epic conform exactly when each of them does. */
  lemma EpicKeysConform(record: Json)
    ensures (forall key :: key in CopiedKeys(Epic) ==> Conforms(key, Member(record, key)))
      <==> (Conforms("title", Member(record, "title")) && Conforms("description", Member(record, "description"))
        && Conforms("priority", Member(record, "priority")) && Conforms("estimatedDuration", Member(record, "estimatedDuration")))
  {
  }

  /** `NewNodeWellTyped` for a feature. */
  lemma NewNodeWellTypedFeature(record: Json, index: nat, parentId: string, idTime: nat, createdAt: nat)
    ensures WellTyped(NewNode(Feature, record, index, parentId, idTime, createdAt))
      <==> forall key :: key in CopiedKeys(Feature) ==> Conforms(key, Member(record, key))
  {
    var n := NewNode(Feature, record, index, parentId, idTime, createdAt);
    var title, description := Member(record, "title"), Member(record, "description");
    var priority := Member(record, "priority");
    var effort := Member(record, "estimatedEffort");
    assert WellTyped(n) <==> (IsString(title) && OptionalString(description)
      && OptionalPriority(priority) && OptionalEffort(effort));
    FeatureKeysConform(record);
  }

  /** The copied keys of a feature conform exactly when each of them does. */
  lemma FeatureKeysConform(record: Json)
    ensures (forall key :: key in CopiedKeys(Feature) ==> Conforms(key, Member(record, key)))
      <==> (Conforms("title", Member(record, "title")) && Conforms("description", Member(record, "description"))
        && Conforms("priority", Member(record, "priority")) && Conforms("estimatedEffort", Member(record, "estimatedEffort")))
  {
  }

  /** `NewNodeWellTyped` for a story. */
  lemma NewNodeWellTypedStory(record: Json, index: nat, parentId: string, idTime: nat, createdAt: nat)
    ensures WellTyped(NewNode(Story, record, index, parentId, idTime, createdAt))
      <==> forall key :: key in CopiedKeys(Story) ==> Conforms(key, Member(record, key))
  {
    var n := NewNode(Story, record, index, parentId, idTime, createdAt);
    var title, description := Member(record, "title"), Member(record, "description");
    var priority := Member(record, "priority");
    var criteria, points := Member(record, "acceptanceCriteria"), Member(record, "estimatedStoryPoints");
    assert WellTyped(n) <==> (IsString(title) && OptionalString(description)
      && OptionalPriority(priority) && OptionalStrings(criteria) && OptionalNumber(points));
    StoryKeysConform(record);
  }

  /** The copied keys of a story conform exactly when each of them does. */
  lemma StoryKeysConform(record: Json)
    ensures (forall key :: key in CopiedKeys(Story) ==> Conforms(key, Member(record, key)))
      <==> (Conforms("title", Member(record, "title")) && Conforms("description", Member(record, "description"))
        && Conforms("priority", Member(record, "priority")) && Conforms("acceptanceCriteria", Member(record, "acceptanceCriteria"))
        && Conforms("estimatedStoryPoints", Member(record, "estimatedStoryPoints")))
  {
  }

  /** `NewNodeWellTyped` for a task. */
  lemma NewNodeWellTypedTask(record: Json, index: nat, parentId: string, idTime: nat, createdAt: nat)
    ensures WellTyped(NewNode(Task, record, index, parentId, idTime, createdAt))
      <==> forall key :: key in CopiedKeys(Task) ==> Conforms(key, Member(record, key))
  {
    var n := NewNode(Task, record, index, parentId, idTime, createdAt);
    var title, description := Member(record, "title"), Member(record, "description");
    var priority := Member(record, "priority");
    var hours, status := Member(record, "estimatedHours"), Member(record, "status");
    assert WellTyped(n) <==> (IsString(title) && OptionalString(description)
      && OptionalPriority(priority) && OptionalNumber(hours) && OptionalStatus(status));
    TaskKeysConform(record);
  }

  /** The copied keys of a task conform exactly when each of them does. */
  lemma TaskKeysConform(record: Json)
    ensures (forall key :: key in CopiedKeys(Task) ==> Conforms(key, Member(record, key)))
      <==> (Conforms("title", Member(record, "title")) && Conforms("description", Member(record, "description"))
        && Conforms("priority", Member(record, "priority")) && Conforms("estimatedHours", Member(record, "estimatedHours"))
        && Conforms("status", Member(record, "status")))
  {
  }

  /** A record whose title is a number yields a node whose title is not a
      string: the copied value is not checked against the declared type. */
  lemma NumericTitleNotChecked(index: nat, parentId: string, idTime: nat, createdAt: nat)
    ensures !WellTyped(NewNode(Epic, JObject(map["title" := JNumber(5)]), index, parentId, idTime, createdAt))
  {
    NewNodeWellTyped(Epic, JObject(map["title" := JNumber(5)]), index, parentId, idTime, createdAt);
    assert !Conforms("title", Member(JObject(map["title" := JNumber(5)]), "title"));
  }
}
