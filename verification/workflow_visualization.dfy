/** The three-tab workflow view: the technical workflow, the user journey and
    the database schema, each projected into diagram nodes and edges, plus the
    entity-node rendering of schema fields. */
module WorkflowVisualization {
  import opened Wrappers
  import opened Text
  import opened Schema

  datatype TechNodeData = TechNodeData(caption: string, description: string, details: seq<string>,
                                       technologies: seq<string>, estimatedTime: string,
                                       dependencies: seq<string>)
  datatype UserNodeData = UserNodeData(caption: string, description: string, userActions: seq<string>,
                                       systemResponses: seq<string>, painPoints: seq<string>,
                                       successMetrics: seq<string>)

  /** A generated node; its `data` object may be missing. */
  datatype TechNode = TechNode(id: string, kind: string, position: Position, data: Option<TechNodeData>)
  datatype UserNode = UserNode(id: string, kind: string, position: Position, data: Option<UserNodeData>)
  datatype TechEdge = TechEdge(id: string, source: string, target: string, caption: string, kind: string)
  /** `condition` is optional; the empty string is as falsy as a missing one. */
  datatype UserEdge = UserEdge(id: string, source: string, target: string, caption: string,
                               condition: Option<string>)

  /** Each part of the generated workflow, and each list inside it, may be missing. */
  datatype TechWorkflow = TechWorkflow(nodes: Option<seq<TechNode>>, edges: Option<seq<TechEdge>>)
  datatype UserWorkflow = UserWorkflow(nodes: Option<seq<UserNode>>, edges: Option<seq<UserEdge>>)
  datatype SchemaDiagram = SchemaDiagram(entities: Option<seq<Entity>>, relationships: Option<seq<GraphRel>>)
  datatype WorkflowData = WorkflowData(technical: Option<TechWorkflow>, user: Option<UserWorkflow>,
                                       schema: Option<SchemaDiagram>)

  datatype Tab = Technical | User | SchemaTab

  /** A diagram node's payload: the workflow node's own data, or an entity's. */
  datatype NodeData = TechData(tech: TechNodeData) | UserData(user: UserNodeData)
                    | EntityData(caption: string, fields: seq<Field>, relationships: seq<EntityRel>)

  datatype FlowNode = FlowNode(id: string, kind: string, position: Position, data: NodeData)

  /** A diagram edge; `className` is empty where the source sets none. */
  datatype FlowEdge = FlowEdge(id: string, source: string, target: string, caption: string,
                               kind: string, animated: bool, stroke: string, marker: string,
                               className: string)

  function EntityFlowNode(e: Entity): FlowNode
  {
    FlowNode(e.name, "databaseEntity", e.position, EntityData(e.name, e.fields, e.relationships))
  }

  /** Every technical node carries its `data`; reading `node.data.label` of
      one that does not throws. */
  predicate TechNodesComplete(ns: seq<TechNode>) {
    forall i :: 0 <= i < |ns| ==> ns[i].data.Some?
  }

  predicate UserNodesComplete(ns: seq<UserNode>) {
    forall i :: 0 <= i < |ns| ==> ns[i].data.Some?
  }

  /** The nodes of the active tab. A missing part or list gives no nodes, and
      so does a single workflow node without `data`: the projection throws
      and its catch returns no nodes for the whole tab. */
  function Nodes(data: WorkflowData, tab: Tab): (r: seq<FlowNode>)
    ensures tab == SchemaTab ==>
      if data.schema.None? || data.schema.value.entities.None? then r == []
      else var es := data.schema.value.entities.value;
        |r| == |es| && forall i :: 0 <= i < |r| ==>
          r[i].id == es[i].name && r[i].kind == "databaseEntity" && r[i].position == es[i].position
          && r[i].data == EntityData(es[i].name, es[i].fields, es[i].relationships)
    ensures tab == Technical ==>
      if data.technical.None? || data.technical.value.nodes.None? then r == []
      else var ns := data.technical.value.nodes.value;
        && (!TechNodesComplete(ns) ==> r == [])
        && (TechNodesComplete(ns) ==> |r| == |ns| && forall i :: 0 <= i < |r| ==>
              r[i] == FlowNode(ns[i].id, ns[i].kind, ns[i].position, TechData(ns[i].data.value)))
    ensures tab == User ==>
      if data.user.None? || data.user.value.nodes.None? then r == []
      else var ns := data.user.value.nodes.value;
        && (!UserNodesComplete(ns) ==> r == [])
        && (UserNodesComplete(ns) ==> |r| == |ns| && forall i :: 0 <= i < |r| ==>
              r[i] == FlowNode(ns[i].id, ns[i].kind, ns[i].position, UserData(ns[i].data.value)))
  {
    match tab
    case SchemaTab =>
      if data.schema.None? || data.schema.value.entities.None? then []
      else var es := data.schema.value.entities.value;
        seq(|es|, (i: int) requires 0 <= i < |es| => EntityFlowNode(es[i]))
    case Technical =>
      if data.technical.None? || data.technical.value.nodes.None? then []
      else var ns := data.technical.value.nodes.value;
        if !TechNodesComplete(ns) then []
        else seq(|ns|, (i: int) requires 0 <= i < |ns| =>
               FlowNode(ns[i].id, ns[i].kind, ns[i].position, TechData(ns[i].data.value)))
    case User =>
      if data.user.None? || data.user.value.nodes.None? then []
      else var ns := data.user.value.nodes.value;
        if !UserNodesComplete(ns) then []
        else seq(|ns|, (i: int) requires 0 <= i < |ns| =>
               FlowNode(ns[i].id, ns[i].kind, ns[i].position, UserData(ns[i].data.value)))
  }

  /** The schema tab draws the same entity nodes as the stand-alone schema
      screens: same ids, in the same order. */
  lemma SchemaNodesMatchSchemaScreens(data: WorkflowData)
    requires data.schema.Some? && data.schema.value.entities.Some?
    ensures var es := data.schema.value.entities.value;
      |Nodes(data, SchemaTab)| == |EntityNodes(es)|
      && forall i :: 0 <= i < |es| ==> Nodes(data, SchemaTab)[i].id == EntityNodes(es)[i].id
  {
  }

  /** The stroke of a schema relationship, by its exact (case-sensitive) type. */
  function RelationshipColor(relType: string): (c: string)
    ensures c == "#93c5fd" <==> relType == "ONE_TO_MANY"
    ensures c == "#fb7185" <==> relType == "MANY_TO_ONE"
    ensures c == "#6ee7b7" <==> relType == "ONE_TO_ONE"
    ensures c == "#fcd34d" <==> relType == "MANY_TO_MANY"
  {
    match relType
    case "ONE_TO_MANY" => "#93c5fd"
    case "MANY_TO_ONE" => "#fb7185"
    case "ONE_TO_ONE" => "#6ee7b7"
    case "MANY_TO_MANY" => "#fcd34d"
    case _ => "#d1d5db"
  }

  /** Any other spelling, lower case included, is grey. */
  lemma RelationshipColorDefault(relType: string)
    requires relType !in {"ONE_TO_MANY", "MANY_TO_ONE", "ONE_TO_ONE", "MANY_TO_MANY"}
    ensures RelationshipColor(relType) == "#d1d5db"
  {
  }

  /** The class of a relationship: the lower-cased type with only its first
      `_` turned into `-`. */
  function RelationshipClass(relType: string): (c: string)
    ensures |c| == |relType| && IsLower(c)
    ensures '_' !in relType ==> c == ToLower(relType)
  {
    ReplaceFirst(ToLower(relType), '_', '-')
  }

  /** Only the first underscore becomes a dash: `MANY_TO_MANY` gives
      `many-to_many`, and every later underscore stays. */
  lemma RelationshipClassFirstOnly(relType: string, k: nat)
    requires FirstAt(relType, '_', k)
    ensures RelationshipClass(relType) == ToLower(relType)[k := '-']
    ensures forall j :: k < j < |relType| && relType[j] == '_' ==> RelationshipClass(relType)[j] == '_'
  {
    var lower := ToLower(relType);
    assert FirstAt(lower, '_', k);
    ReplaceFirstAt(lower, '_', '-', k);
  }

  /** The relationship badge of the entity details: the type itself, first `_` made `-`. */
  function RelationshipBadge(relType: string): (c: string)
    ensures |c| == |relType|
    ensures '_' !in relType ==> c == relType
  {
    ReplaceFirst(relType, '_', '-')
  }

  /** The badge's class is the badge lower-cased: lower-casing and replacing
      the first underscore commute. */
  lemma BadgeClassAgree(relType: string)
    ensures RelationshipClass(relType) == ToLower(RelationshipBadge(relType))
  {
    ReplaceFirstLower(relType);
  }

  lemma ReplaceFirstLower(s: string)
    ensures ReplaceFirst(ToLower(s), '_', '-') == ToLower(ReplaceFirst(s, '_', '-'))
  {
    var lower := ToLower(s);
    assert forall k :: 0 <= k < |s| ==> (lower[k] == '_' <==> s[k] == '_');
    if '_' in s {
      FirstExists(s, '_');
      var k: nat :| FirstAt(s, '_', k);
      assert FirstAt(lower, '_', k);
      ReplaceFirstAt(s, '_', '-', k);
      ReplaceFirstAt(lower, '_', '-', k);
    } else {
      assert '_' !in lower;
    }
  }

  function TechFlowEdge(e: TechEdge): FlowEdge
  {
    var success := e.kind == "success";
    var color := if success then "#34d399" else "#60a5fa";
    FlowEdge(e.id, e.source, e.target, e.caption, if success then "smoothstep" else "straight",
             success, color, color, "")
  }

  /** `edge.condition ? … : …`. */
  predicate HasCondition(e: UserEdge) {
    e.condition.Some? && e.condition.value != ""
  }

  function UserFlowEdge(e: UserEdge): FlowEdge
  {
    var cond := HasCondition(e);
    var color := if cond then "#fbbf24" else "#a78bfa";
    FlowEdge(e.id, e.source, e.target, e.caption, if cond then "step" else "default",
             cond, color, color, "")
  }

  function SchemaFlowEdge(r: GraphRel): FlowEdge
  {
    var color := RelationshipColor(r.relType);
    FlowEdge(r.id, r.source, r.target, r.caption, "straight", true, color, color, RelationshipClass(r.relType))
  }

  /** Every edge keeps its id, ends and label, and its arrow head takes the
      colour of its line. */
  predicate Keeps(e: FlowEdge, id: string, source: string, target: string, caption: string) {
    e.id == id && e.source == source && e.target == target && e.caption == caption && e.marker == e.stroke
  }

  /** The edges of the active tab: technical success edges are animated green
      smooth steps and the others straight blue lines; user edges with a
      condition are animated amber steps; schema edges are animated straight
      lines coloured and classed by type. A missing part or list gives none. */
  function Edges(data: WorkflowData, tab: Tab): (r: seq<FlowEdge>)
    ensures tab == Technical ==>
      if data.technical.None? || data.technical.value.edges.None? then r == []
      else var es := data.technical.value.edges.value;
        |r| == |es| && forall i :: 0 <= i < |r| ==>
          Keeps(r[i], es[i].id, es[i].source, es[i].target, es[i].caption)
          && (r[i].animated <==> es[i].kind == "success")
          && (if es[i].kind == "success" then r[i].kind == "smoothstep" && r[i].stroke == "#34d399"
              else r[i].kind == "straight" && r[i].stroke == "#60a5fa")
    ensures tab == User ==>
      if data.user.None? || data.user.value.edges.None? then r == []
      else var es := data.user.value.edges.value;
        |r| == |es| && forall i :: 0 <= i < |r| ==>
          Keeps(r[i], es[i].id, es[i].source, es[i].target, es[i].caption)
          && (r[i].animated <==> HasCondition(es[i]))
          && (if HasCondition(es[i]) then r[i].kind == "step" && r[i].stroke == "#fbbf24"
              else r[i].kind == "default" && r[i].stroke == "#a78bfa")
    ensures tab == SchemaTab ==>
      if data.schema.None? || data.schema.value.relationships.None? then r == []
      else var rs := data.schema.value.relationships.value;
        |r| == |rs| && forall i :: 0 <= i < |r| ==>
          Keeps(r[i], rs[i].id, rs[i].source, rs[i].target, rs[i].caption)
          && r[i].animated && r[i].kind == "straight"
          && r[i].stroke == RelationshipColor(rs[i].relType)
          && r[i].className == RelationshipClass(rs[i].relType)
  {
    match tab
    case Technical =>
      if data.technical.None? || data.technical.value.edges.None? then []
      else var es := data.technical.value.edges.value;
        seq(|es|, (i: int) requires 0 <= i < |es| => TechFlowEdge(es[i]))
    case User =>
      if data.user.None? || data.user.value.edges.None? then []
      else var es := data.user.value.edges.value;
        seq(|es|, (i: int) requires 0 <= i < |es| => UserFlowEdge(es[i]))
    case SchemaTab =>
      if data.schema.None? || data.schema.value.relationships.None? then []
      else var rs := data.schema.value.relationships.value;
        seq(|rs|, (i: int) requires 0 <= i < |rs| => SchemaFlowEdge(rs[i]))
  }

  datatype FieldIcon = PrimaryKeyIcon | ForeignKeyIcon | UniqueIcon | DefaultIcon

  /** Primary key over foreign key over UNIQUE over a plain field. */
  function GetFieldIcon(f: Field): (icon: FieldIcon)
    ensures icon == PrimaryKeyIcon <==> f.isPrimaryKey
    ensures icon == ForeignKeyIcon <==> !f.isPrimaryKey && f.isForeignKey
    ensures icon == UniqueIcon <==> !f.isPrimaryKey && !f.isForeignKey && HasUnique(f)
  {
    if f.isPrimaryKey then PrimaryKeyIcon
    else if f.isForeignKey then ForeignKeyIcon
    else if HasUnique(f) then UniqueIcon
    else DefaultIcon
  }

  /** The label of a field type: the lower-cased type looked up in a fixed
      table, or the type as given when the table has no entry. */
  function FieldTypeLabel(fieldType: string): (name: string)
    ensures var t := ToLower(fieldType);
      (t == "text" || t == "varchar" || t == "varchar(255)" ==> name == "text")
      && (t == "int4" || t == "integer" ==> name == "int4")
      && (t == "bool" || t == "boolean" ==> name == "bool")
      && (t == "timestamp" || t == "uuid" || t == "date" ==> name == t)
      && (t !in LabelKeys ==> name == fieldType)
  {
    match ToLower(fieldType)
    case "text" => "text"
    case "varchar" => "text"
    case "varchar(255)" => "text"
    case "int4" => "int4"
    case "integer" => "int4"
    case "bool" => "bool"
    case "boolean" => "bool"
    case "timestamp" => "timestamp"
    case "uuid" => "uuid"
    case "date" => "date"
    case _ => fieldType
  }

  const LabelKeys: set<string> :=
    {"text", "varchar", "varchar(255)", "int4", "integer", "bool", "boolean", "timestamp", "uuid", "date"}

  /** Labelling a label changes nothing. */
  lemma FieldTypeLabelIdempotent(fieldType: string)
    ensures FieldTypeLabel(FieldTypeLabel(fieldType)) == FieldTypeLabel(fieldType)
  {
    var name := FieldTypeLabel(fieldType);
    if ToLower(fieldType) in LabelKeys {
      assert name in {"text", "int4", "bool", "timestamp", "uuid", "date"};
      assert IsLower(name);
    }
  }

  /** The indicators and icon of one field row in an entity node: the key
      badges follow the key flags, UNIQUE shows only on a field that is
      neither key, and "required" or "nullable" follows `required`. */
  datatype FieldRow = FieldRow(primaryKey: bool, foreignKey: bool, unique: bool, icon: FieldIcon,
                               typeLabel: string, nonNullable: bool, nullable: bool)

  function Row(f: Field): (r: FieldRow)
    ensures r.nonNullable != r.nullable
    ensures r.unique ==> !r.primaryKey && !r.foreignKey
    ensures r.typeLabel == FieldTypeLabel(f.fieldType)
    ensures r.primaryKey == f.isPrimaryKey && r.foreignKey == f.isForeignKey
    ensures r.unique <==> !f.isPrimaryKey && !f.isForeignKey && HasUnique(f)
    ensures r.icon == GetFieldIcon(f) && r.nonNullable == f.required
  {
    FieldRow(f.isPrimaryKey, f.isForeignKey, !f.isPrimaryKey && !f.isForeignKey && HasUnique(f),
             GetFieldIcon(f), FieldTypeLabel(f.fieldType), f.required, !f.required)
  }

  /** The unique indicator and the unique icon appear together, and the
      indicators follow the icon's precedence. */
  lemma RowAgreesWithIcon(f: Field)
    ensures Row(f).unique <==> Row(f).icon == UniqueIcon
    ensures Row(f).primaryKey <==> Row(f).icon == PrimaryKeyIcon
  {
  }
}
