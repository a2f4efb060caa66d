/** The Supabase-style schema screen: table nodes whose field icons and type
    colours follow their own tables, dashed relationship edges, and an entity
    sidebar. Nodes, click lookup and screen precedence are those of `Schema`. */
module DatabaseSchemaVisualizer {
  import opened Text
  import opened Schema
  import DatabaseFlow

  datatype FieldIcon = KeyIcon | StarIcon | CircleDotIcon | CircleIcon

  /** The icon inside a table node: primary key over UNIQUE over required over
      nullable; a foreign key gets no icon of its own. */
  function NodeFieldIcon(f: Field): (icon: FieldIcon)
    ensures icon == KeyIcon <==> f.isPrimaryKey
    ensures icon == StarIcon <==> !f.isPrimaryKey && HasUnique(f)
    ensures icon == CircleDotIcon <==> !f.isPrimaryKey && !HasUnique(f) && f.required
    ensures icon == CircleIcon <==> !f.isPrimaryKey && !HasUnique(f) && !f.required
  {
    if f.isPrimaryKey then KeyIcon
    else if HasUnique(f) then StarIcon
    else if f.required then CircleDotIcon
    else CircleIcon
  }

  /** The module-level copy used by the sidebar, written out separately. */
  function SidebarFieldIcon(f: Field): (icon: FieldIcon)
    ensures f.isPrimaryKey ==> icon == KeyIcon
    ensures !f.isPrimaryKey && HasUnique(f) ==> icon == StarIcon
    ensures !f.isPrimaryKey && !HasUnique(f) ==> (icon == CircleDotIcon <==> f.required)
    ensures !f.isPrimaryKey && !HasUnique(f) ==> (icon == CircleIcon <==> !f.required)
  {
    if f.isPrimaryKey then KeyIcon
    else if HasUnique(f) then StarIcon
    else if f.required then CircleDotIcon
    else CircleIcon
  }

  /** The two copies agree on every field, and neither looks at the foreign-key flag. */
  lemma FieldIconsAgree(f: Field)
    ensures SidebarFieldIcon(f) == NodeFieldIcon(f)
    ensures NodeFieldIcon(f.(isForeignKey := !f.isForeignKey)) == NodeFieldIcon(f)
  {
  }

  /** The class colouring a field's type, chosen by its lower-cased spelling. */
  function FieldTypeColor(fieldType: string): (c: string)
    ensures var t := ToLower(fieldType);
      (c == "text-green-400" <==> t == "text" || t == "varchar")
      && (c == "text-blue-400" <==> t == "int4" || t == "integer" || t == "uuid")
      && (c == "text-purple-400" <==> t == "bool" || t == "boolean")
      && (c == "text-orange-400" <==> t == "timestamp" || t == "date")
      && (c == "text-cyan-400" <==> t == "decimal")
      && (c == "text-gray-400" <==> t !in {"text", "varchar", "int4", "integer", "uuid", "bool", "boolean",
                                          "timestamp", "date", "decimal"})
  {
    match ToLower(fieldType)
    case "text" => "text-green-400"
    case "varchar" => "text-green-400"
    case "int4" => "text-blue-400"
    case "integer" => "text-blue-400"
    case "uuid" => "text-blue-400"
    case "bool" => "text-purple-400"
    case "boolean" => "text-purple-400"
    case "timestamp" => "text-orange-400"
    case "date" => "text-orange-400"
    case "decimal" => "text-cyan-400"
    case _ => "text-gray-400"
  }

  /** A sized varchar is not in this table and falls to the grey default. */
  lemma SizedVarcharIsGrey(fieldType: string)
    requires fieldType == "varchar(255)"
    ensures FieldTypeColor(fieldType) == "text-gray-400"
  {
    assert ToLower(fieldType) == fieldType;
  }

  /** The colour ignores ASCII case. */
  lemma FieldTypeColorCaseInsensitive(fieldType: string)
    ensures FieldTypeColor(ToLower(fieldType)) == FieldTypeColor(fieldType)
  {
    ToLowerIdempotent(fieldType);
  }

  datatype Edge = Edge(id: string, source: string, target: string, caption: string, kind: string, animated: bool)

  function RelEdge(r: GraphRel): Edge
  {
    Edge(r.id, r.source, r.target, r.caption, "supabaseRelationship", false)
  }

  /** One dashed, unanimated edge per relationship, keeping its id, ends and label. */
  function Edges(rels: seq<GraphRel>): (r: seq<Edge>)
    ensures |r| == |rels|
    ensures forall i :: 0 <= i < |r| ==>
      r[i].id == rels[i].id && r[i].source == rels[i].source
      && r[i].target == rels[i].target && r[i].caption == rels[i].caption
      && r[i].kind == "supabaseRelationship" && !r[i].animated
  {
    seq(|rels|, (i: int) requires 0 <= i < |rels| => RelEdge(rels[i]))
  }

  /** This screen and the generated-schema screen draw the same relationships:
      edge for edge, the ids, ends and labels agree, and only the styling differs. */
  lemma EdgesMatchDatabaseFlow(rels: seq<GraphRel>)
    ensures var a, b := Edges(rels), DatabaseFlow.Edges(rels);
      |a| == |b| && forall i :: 0 <= i < |a| ==>
        a[i].id == b[i].id && a[i].source == b[i].source
        && a[i].target == b[i].target && a[i].caption == b[i].caption
  {
  }

  /** The sidebar's relationship caption: the type with its first `_` made `-`. */
  function RelationshipCaption(rel: EntityRel): (c: string)
    ensures |c| == |rel.relType|
    ensures '_' !in rel.relType ==> c == rel.relType
  {
    ReplaceFirst(rel.relType, '_', '-')
  }
}
