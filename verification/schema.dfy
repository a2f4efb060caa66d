/** The database-schema records the generated workflow carries, shared by the
    three schema views and the workflow view, and what those views have in
    common: one graph node per entity, the node-click lookup, and the
    loading/error/diagram precedence of the two screens that fetch a schema. */
module Schema {
  import opened Wrappers
  import opened Seqs

  /** A schema field. The optional flags of the source are `false` when absent. */
  datatype Field = Field(name: string, fieldType: string, required: bool, description: string,
                         constraints: Option<seq<string>>, isPrimaryKey: bool, isForeignKey: bool,
                         references: string)

  /** `field.constraints?.includes('UNIQUE')`. */
  predicate HasUnique(f: Field) {
    f.constraints.Some? && "UNIQUE" in f.constraints.value
  }

  /** Positions are JavaScript numbers, kept as reals and never computed with. */
  datatype Position = Position(x: real, y: real)

  /** A relationship as listed inside an entity. */
  datatype EntityRel = EntityRel(target: string, relType: string, description: string)

  datatype Entity = Entity(name: string, fields: seq<Field>, relationships: seq<EntityRel>, position: Position)

  /** A relationship of the whole graph, drawn as an edge. */
  datatype GraphRel = GraphRel(id: string, source: string, target: string, relType: string, caption: string)

  datatype SchemaGraph = SchemaGraph(entities: seq<Entity>, relationships: seq<GraphRel>)

  /** A diagram node for one entity: id and label are the entity's name. */
  datatype EntityNode = EntityNode(id: string, caption: string, fields: seq<Field>,
                                   relationships: seq<EntityRel>, position: Position)

  function EntityToNode(e: Entity): EntityNode
  {
    EntityNode(e.name, e.name, e.fields, e.relationships, e.position)
  }

  /** One node per entity, in order, named after it and carrying its fields. */
  function EntityNodes(entities: seq<Entity>): (r: seq<EntityNode>)
    ensures |r| == |entities|
    ensures forall i :: 0 <= i < |r| ==>
      r[i].id == entities[i].name && r[i].caption == entities[i].name
      && r[i].fields == entities[i].fields && r[i].relationships == entities[i].relationships
      && r[i].position == entities[i].position
  {
    seq(|entities|, (i: int) requires 0 <= i < |entities| => EntityToNode(entities[i]))
  }

  /** The node ids are the entity names, so the ids are distinct exactly when the names are. */
  lemma EntityNodeIds(entities: seq<Entity>, i: nat, k: nat)
    requires i < |entities| && k < |entities|
    ensures EntityNodes(entities)[i].id == EntityNodes(entities)[k].id <==> entities[i].name == entities[k].name
  {
  }

  /** A node click: the first entity whose name is the node's id, if any. */
  function FindEntity(entities: seq<Entity>, nodeId: string): (r: Option<Entity>)
    ensures r.Some? <==> exists i :: 0 <= i < |entities| && entities[i].name == nodeId
    ensures r.Some? ==> r.value.name == nodeId && r.value in entities
  {
    Find(entities, (e: Entity) => e.name == nodeId)
  }

  /** Clicking the node drawn for an entity selects the first entity of that
      name: the entity itself when names are distinct. */
  lemma ClickSelectsEntity(entities: seq<Entity>, i: nat)
    requires i < |entities|
    requires forall k :: 0 <= k < i ==> entities[k].name != entities[i].name
    ensures FindEntity(entities, EntityNodes(entities)[i].id) == Some(entities[i])
  {
    FindIsFirst(entities, (e: Entity) => e.name == entities[i].name, i);
  }

  /** The state of a screen that fetches the schema on mount. `error` is a
      string whose empty value is falsy. */
  datatype LoadState = LoadState(loading: bool, error: string, schema: Option<SchemaGraph>,
                                 selected: Option<Entity>)

  const LoadError: string := "Failed to load schema"

  function Initial(): LoadState
  {
    LoadState(true, "", None, None)
  }

  /** The fetch completes: a success stores the schema, a failure records the
      error; loading ends either way. */
  function Loaded(s: LoadState, reply: Reply<SchemaGraph>): (r: LoadState)
    ensures !r.loading && r.selected == s.selected
    ensures reply.Succeeded? ==> r.schema == Some(reply.data) && r.error == s.error
    ensures reply.Failed? ==> r.schema == s.schema && r.error == LoadError
  {
    match reply
    case Succeeded(data) => s.(loading := false, schema := Some(data))
    case Failed => s.(loading := false, error := LoadError)
  }

  /** What the screen shows. */
  datatype Screen = Spinner | ErrorMessage(message: string) | Nothing | Diagram(nodes: seq<EntityNode>)

  /** Loading wins over an error, an error over a missing schema. */
  function Render(s: LoadState): (r: Screen)
    ensures s.loading <==> r == Spinner
    ensures r.ErrorMessage? <==> !s.loading && s.error != ""
    ensures r.ErrorMessage? ==> r.message == s.error
    ensures r == Nothing <==> !s.loading && s.error == "" && s.schema.None?
    ensures r.Diagram? ==> s.schema.Some? && r.nodes == EntityNodes(s.schema.value.entities)
  {
    if s.loading then Spinner
    else if s.error != "" then ErrorMessage(s.error)
    else if s.schema.None? then Nothing
    else Diagram(EntityNodes(s.schema.value.entities))
  }

  /** After the fetch completes, the screen shows the diagram on success and
      the error message on failure. */
  lemma LoadOutcome(reply: Reply<SchemaGraph>)
    ensures reply.Succeeded? ==> Render(Loaded(Initial(), reply)) == Diagram(EntityNodes(reply.data.entities))
    ensures reply.Failed? ==> Render(Loaded(Initial(), reply)) == ErrorMessage(LoadError)
  {
  }

  /** A node click on the loaded diagram. */
  function ClickNode(s: LoadState, nodeId: string): (r: LoadState)
    requires s.schema.Some?
    ensures r.loading == s.loading && r.error == s.error && r.schema == s.schema
    ensures r.selected == FindEntity(s.schema.value.entities, nodeId)
  {
    s.(selected := FindEntity(s.schema.value.entities, nodeId))
  }
}
