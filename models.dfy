/** The hierarchy data model: the `CellType` tags, the enumerated domains of the
    level-specific attributes and the `ProjectNode` shape that every generated
    epic, feature, story and task takes. */
module Models {
  import opened Wrappers

  /** A value `JSON.parse` can produce. Numbers are modelled as integers. */
  datatype Json =
    | JNull
    | JBool(b: bool)
    | JNumber(n: int)
    | JString(s: string)
    | JArray(items: seq<Json>)
    | JObject(members: map<string, Json>)

  /** An optional property of a JavaScript object: `None` stands for a missing
      property or one whose value is `undefined`. */
  type Field = Option<Json>

  /** The hierarchy levels, tagged 'project' | 'epic' | 'feature' | 'story' | 'task'. */
  datatype CellType = Project | Epic | Feature | Story | Task

  function CellTypeName(t: CellType): string {
    match t
    case Project => "project"
    case Epic => "epic"
    case Feature => "feature"
    case Story => "story"
    case Task => "task"
  }

  /** The tag named by a string, if the string is one of the five tag names. */
  function CellTypeOf(s: string): (r: Option<CellType>)
    ensures forall t :: r == Some(t) <==> CellTypeName(t) == s
  {
    if s == "project" then Some(Project)
    else if s == "epic" then Some(Epic)
    else if s == "feature" then Some(Feature)
    else if s == "story" then Some(Story)
    else if s == "task" then Some(Task)
    else None
  }

  /** The four levels the service generates, each from a parent one level up. */
  type Level = t: CellType | t != Project witness Epic

  /** 'low' | 'medium' | 'high' */
  datatype Priority = Low | Medium | High

  function PriorityName(p: Priority): string {
    match p
    case Low => "low"
    case Medium => "medium"
    case High => "high"
  }

  function PriorityOf(s: string): (r: Option<Priority>)
    ensures forall p :: r == Some(p) <==> PriorityName(p) == s
  {
    if s == "low" then Some(Low)
    else if s == "medium" then Some(Priority.Medium)
    else if s == "high" then Some(High)
    else None
  }

  /** 'pending' | 'in-progress' | 'completed' */
  datatype Status = Pending | InProgress | Completed

  function StatusName(st: Status): string {
    match st
    case Pending => "pending"
    case InProgress => "in-progress"
    case Completed => "completed"
  }

  function StatusOf(s: string): (r: Option<Status>)
    ensures forall st :: r == Some(st) <==> StatusName(st) == s
  {
    if s == "pending" then Some(Pending)
    else if s == "in-progress" then Some(InProgress)
    else if s == "completed" then Some(Completed)
    else None
  }

  /** 'small' | 'medium' | 'large' */
  datatype Effort = Small | Medium | Large

  function EffortName(e: Effort): string {
    match e
    case Small => "small"
    case Medium => "medium"
    case Large => "large"
  }

  function EffortOf(s: string): (r: Option<Effort>)
    ensures forall e :: r == Some(e) <==> EffortName(e) == s
  {
    if s == "small" then Some(Small)
    else if s == "medium" then Some(Effort.Medium)
    else if s == "large" then Some(Large)
    else None
  }

  /** A node of the hierarchy. `id`, `kind` (the `type` property) and `timestamp`
      are always present. The other properties are optional; those the service
      copies from the model's records hold whatever JSON value the record had. */
  datatype ProjectNode = ProjectNode(
    id: string,
    kind: CellType,
    title: Field,
    description: Field,
    children: ChildList,
    parentId: Option<string>,
    timestamp: nat,
    priority: Field,
    estimatedHours: Field,
    estimatedStoryPoints: Field,
    estimatedEffort: Field,
    estimatedDuration: Field,
    status: Field,
    dependencies: Option<seq<string>>,
    acceptanceCriteria: Field)

  /** The optional `children` property: absent, or an ordered list of nodes.
      Its own datatype rather than `Option<seq<ProjectNode>>`, so that
      `WellTyped` can recurse into the children: Dafny does not see a node
      nested inside the generic `Option` as smaller than its parent. */
  datatype ChildList = Absent | Present(nodes: seq<ProjectNode>)

  predicate IsString(f: Field) {
    f.Some? && f.value.JString?
  }

  predicate OptionalString(f: Field) {
    f.None? || f.value.JString?
  }

  predicate OptionalNumber(f: Field) {
    f.None? || f.value.JNumber?
  }

  predicate OptionalPriority(f: Field) {
    f.None? || (f.value.JString? && PriorityOf(f.value.s).Some?)
  }

  predicate OptionalStatus(f: Field) {
    f.None? || (f.value.JString? && StatusOf(f.value.s).Some?)
  }

  predicate OptionalEffort(f: Field) {
    f.None? || (f.value.JString? && EffortOf(f.value.s).Some?)
  }

  predicate OptionalStrings(f: Field) {
    f.None? || (f.value.JArray? && forall k :: 0 <= k < |f.value.items| ==> f.value.items[k].JString?)
  }

  /** The node has the shape the `ProjectNode` interface declares: a string
      title, an optional string description and duration, optional numeric
      estimates, priority, effort and status drawn from their enumerations when
      present, acceptance criteria as a list of strings, and children of the same
      shape. */
  predicate WellTyped(n: ProjectNode) {
    && IsString(n.title)
    && OptionalString(n.description)
    && OptionalPriority(n.priority)
    && OptionalNumber(n.estimatedHours)
    && OptionalNumber(n.estimatedStoryPoints)
    && OptionalEffort(n.estimatedEffort)
    && OptionalString(n.estimatedDuration)
    && OptionalStatus(n.status)
    && OptionalStrings(n.acceptanceCriteria)
    && match n.children
       case Absent => true
       case Present(cs) => forall c | c in cs :: WellTyped(c)
  }

  /** The priority of a well-typed node, read back as the enumeration. */
  function PriorityValue(n: ProjectNode): (r: Option<Priority>)
    requires WellTyped(n)
    ensures r.None? <==> n.priority.None?
    ensures r.Some? ==> n.priority == Some(JString(PriorityName(r.value)))
  {
    if n.priority.None? then None else PriorityOf(n.priority.value.s)
  }

  /** The status of a well-typed node, read back as the enumeration. */
  function StatusValue(n: ProjectNode): (r: Option<Status>)
    requires WellTyped(n)
    ensures r.None? <==> n.status.None?
    ensures r.Some? ==> n.status == Some(JString(StatusName(r.value)))
  {
    if n.status.None? then None else StatusOf(n.status.value.s)
  }

  /** The estimated effort of a well-typed node, read back as the enumeration. */
  function EffortValue(n: ProjectNode): (r: Option<Effort>)
    requires WellTyped(n)
    ensures r.None? <==> n.estimatedEffort.None?
    ensures r.Some? ==> n.estimatedEffort == Some(JString(EffortName(r.value)))
  {
    if n.estimatedEffort.None? then None else EffortOf(n.estimatedEffort.value.s)
  }
}
