/** The "AI-Generated Database Schema" screen: entity nodes with per-field
    icons and type colours, and relationship edges styled by cardinality.
    Its nodes, node-click lookup and screen precedence are those of `Schema`. */
module DatabaseFlow {
  import opened Text
  import opened Schema

  const KeyIcon: string := "\U{1F511}"
  const LinkIcon: string := "\U{1F517}"
  const StarIcon: string := "\U{2B50}"
  const PageIcon: string := "\U{1F4C4}"

  /** Primary key over foreign key over UNIQUE over a plain field. */
  function FieldIcon(f: Field): (icon: string)
    ensures icon == KeyIcon <==> f.isPrimaryKey
    ensures icon == LinkIcon <==> !f.isPrimaryKey && f.isForeignKey
    ensures icon == StarIcon <==> !f.isPrimaryKey && !f.isForeignKey && HasUnique(f)
    ensures icon == PageIcon <==> !f.isPrimaryKey && !f.isForeignKey && !HasUnique(f)
  {
    if f.isPrimaryKey then KeyIcon
    else if f.isForeignKey then LinkIcon
    else if HasUnique(f) then StarIcon
    else PageIcon
  }

  /** The colour of a field's type, chosen by its lower-cased spelling. */
  function TypeColor(fieldType: string): (c: string)
    ensures var t := ToLower(fieldType);
      (c == "#4ade80" <==> t == "text" || t == "varchar(255)" || t == "varchar")
      && (c == "#60a5fa" <==> t == "int4" || t == "integer")
      && (c == "#f59e0b" <==> t == "bool" || t == "boolean")
      && (c == "#a78bfa" <==> t == "timestamp")
      && (c == "#f472b6" <==> t == "uuid")
      && (c == "#22d3ee" <==> t == "date")
  {
    match ToLower(fieldType)
    case "text" => "#4ade80"
    case "varchar(255)" => "#4ade80"
    case "varchar" => "#4ade80"
    case "int4" => "#60a5fa"
    case "integer" => "#60a5fa"
    case "bool" => "#f59e0b"
    case "boolean" => "#f59e0b"
    case "timestamp" => "#a78bfa"
    case "uuid" => "#f472b6"
    case "date" => "#22d3ee"
    case _ => "#94a3b8"
  }

  /** Any type outside the table gets the slate default. */
  lemma TypeColorDefault(fieldType: string)
    requires var t := ToLower(fieldType);
      t !in {"text", "varchar(255)", "varchar", "int4", "integer", "bool", "boolean", "timestamp", "uuid", "date"}
    ensures TypeColor(fieldType) == "#94a3b8"
  {
  }

  /** The colour ignores ASCII case. */
  lemma TypeColorCaseInsensitive(fieldType: string)
    ensures TypeColor(ToLower(fieldType)) == TypeColor(fieldType)
  {
    ToLowerIdempotent(fieldType);
  }

  datatype Edge = Edge(id: string, source: string, target: string, caption: string, kind: string, stroke: string)

  function RelEdge(r: GraphRel): Edge
  {
    if r.relType == "ONE_TO_MANY" then Edge(r.id, r.source, r.target, r.caption, "smoothstep", "#3b82f6")
    else Edge(r.id, r.source, r.target, r.caption, "straight", "#10b981")
  }

  /** One edge per relationship, in order: one-to-many ones are blue smooth
      steps, every other type (however spelled) a straight green line. */
  function Edges(rels: seq<GraphRel>): (r: seq<Edge>)
    ensures |r| == |rels|
    ensures forall i :: 0 <= i < |r| ==>
      r[i].id == rels[i].id && r[i].source == rels[i].source
      && r[i].target == rels[i].target && r[i].caption == rels[i].caption
    ensures forall i :: 0 <= i < |r| ==>
      (r[i].kind == "smoothstep" <==> rels[i].relType == "ONE_TO_MANY")
      && (r[i].stroke == "#3b82f6" <==> rels[i].relType == "ONE_TO_MANY")
      && (r[i].kind == "straight" <==> r[i].stroke == "#10b981")
    ensures forall i :: 0 <= i < |r| ==>
      if rels[i].relType == "ONE_TO_MANY" then r[i].kind == "smoothstep" && r[i].stroke == "#3b82f6"
      else r[i].kind == "straight" && r[i].stroke == "#10b981"
  {
    seq(|rels|, (i: int) requires 0 <= i < |rels| => RelEdge(rels[i]))
  }
}
