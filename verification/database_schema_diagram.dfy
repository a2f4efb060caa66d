/** The static schema diagram: tables laid out three to a row, each showing
    at most three columns, relationship lines keyed by table, target and
    position, and a details panel for the selected table. */
module DatabaseSchemaDiagram {
  import opened Wrappers
  import opened Seqs
  import opened Text
  import opened Schema

  /** A table; its columns are schema fields. */
  datatype Table = Table(name: string, columns: seq<Field>, relationships: seq<EntityRel>)

  /** The two selections: a table by name and a relationship line by key. */
  datatype Selection = Selection(table: Option<string>, relationship: Option<string>)

  const ColumnWidth: nat := 310
  const RowHeight: nat := 250

  /** The pixel offsets of the table at `index`: three tables per row. */
  function TablePosition(index: nat): (pos: (nat, nat))
    ensures pos.0 % ColumnWidth == 0 && pos.0 / ColumnWidth < 3
    ensures pos.1 % RowHeight == 0
    ensures index == 3 * (pos.1 / RowHeight) + pos.0 / ColumnWidth
  {
    ((index % 3) * ColumnWidth, (index / 3) * RowHeight)
  }

  /** Every table sits in one of the three columns. */
  lemma ThreeColumns(index: nat)
    ensures TablePosition(index).0 in {0, 310, 620}
  {
  }

  /** No two tables get the same offset. */
  lemma PositionsDistinct(i: nat, k: nat)
    requires i != k
    ensures TablePosition(i) != TablePosition(k)
  {
  }

  /** The first three columns are listed; the rest are counted in a
      "more columns" line that appears only when some are hidden. */
  function ColumnPreview(columns: seq<Field>): (r: (seq<Field>, Option<nat>))
    ensures |r.0| <= 3 && |r.0| <= |columns| && r.0 == columns[..|r.0|]
    ensures r.1.Some? <==> |columns| > 3
    ensures r.1.Some? ==> r.1.value > 0
    ensures |r.0| + r.1.GetOr(0) == |columns|
  {
    if |columns| > 3 then (columns[..3], Some(|columns| - 3)) else (columns, None)
  }

  const KeyIcon: string := "\U{1F511}"
  const LinkIcon: string := "\U{1F517}"
  const ChartIcon: string := "\U{1F4CA}"

  /** Primary key over foreign key over a regular column; UNIQUE plays no part. */
  function ColumnIcon(c: Field): (icon: string)
    ensures icon == KeyIcon <==> c.isPrimaryKey
    ensures icon == LinkIcon <==> !c.isPrimaryKey && c.isForeignKey
    ensures icon == ChartIcon <==> !c.isPrimaryKey && !c.isForeignKey
  {
    if c.isPrimaryKey then KeyIcon else if c.isForeignKey then LinkIcon else ChartIcon
  }

  /** The table the details panel shows: none while no table (or the empty
      name, which is falsy) is selected, else the first table of that name. */
  function TableDetails(tables: seq<Table>, selected: Option<string>): (r: Option<Table>)
    ensures selected.None? || selected.value == "" ==> r.None?
    ensures selected.Some? && selected.value != "" ==>
      (r.Some? <==> exists i :: 0 <= i < |tables| && tables[i].name == selected.value)
    ensures r.Some? ==> r.value in tables && r.value.name == selected.value
  {
    if selected.None? || selected.value == "" then None
    else Find(tables, (t: Table) => t.name == selected.value)
  }

  /** Clicking a table selects it, and the panel then shows the first table of that name. */
  lemma ClickShowsTable(tables: seq<Table>, i: nat)
    requires i < |tables| && tables[i].name != ""
    requires forall k :: 0 <= k < i ==> tables[k].name != tables[i].name
    ensures TableDetails(tables, Some(tables[i].name)) == Some(tables[i])
  {
    FindIsFirst(tables, (t: Table) => t.name == tables[i].name, i);
  }

  /** The key of a relationship line: `table-target-index`. Read back, the
      key is `table-target`, a dash, and the index in decimal, and that dash
      is the key's last one. */
  function RelKey(tableName: string, target: string, idx: nat): (k: string)
    ensures var d := |tableName| + 1 + |target|;
      && d < |k| && k[..d] == tableName + "-" + target && k[d] == '-'
      && k[d + 1..] == NatToString(idx)
      && forall p :: d < p < |k| ==> k[p] != '-'
  {
    var head, digits := tableName + "-" + target, NatToString(idx);
    var k := head + "-" + digits;
    assert k[..|head|] == head && k[|head| + 1..] == digits;
    k
  }

  /** A string has at most one dash with no dash after it. */
  lemma LastDashUnique(k: string, d1: nat, d2: nat)
    requires d1 < |k| && k[d1] == '-' && forall p :: d1 < p < |k| ==> k[p] != '-'
    requires d2 < |k| && k[d2] == '-' && forall p :: d2 < p < |k| ==> k[p] != '-'
    ensures d1 == d2
  {
  }

  /** Within one table the key determines the relationship's target and position. */
  lemma RelKeyInjective(tableName: string, t1: string, i1: nat, t2: string, i2: nat)
    requires RelKey(tableName, t1, i1) == RelKey(tableName, t2, i2)
    ensures t1 == t2 && i1 == i2
  {
    var k := RelKey(tableName, t1, i1);
    var d1, d2 := |tableName| + 1 + |t1|, |tableName| + 1 + |t2|;
    LastDashUnique(k, d1, d2);
    var p := tableName + "-";
    assert (p + t1)[|p|..] == t1 && (p + t2)[|p|..] == t2;
    NatToStringInjective(i1, i2);
  }

  /** A line is highlighted when its key is the selected relationship. */
  predicate LineActive(s: Selection, t: Table, idx: nat)
    requires idx < |t.relationships|
  {
    s.relationship == Some(RelKey(t.name, t.relationships[idx].target, idx))
  }

  /** Clicking a relationship's entry in the details panel selects its key,
      the same key the diagram line's own handler would set (the lines do
      not receive pointer events, so the panel is the way to set it). */
  function SelectRelationship(s: Selection, t: Table, idx: nat): (r: Selection)
    requires idx < |t.relationships|
    ensures r.table == s.table && LineActive(r, t, idx)
  {
    s.(relationship := Some(RelKey(t.name, t.relationships[idx].target, idx)))
  }

  /** Selecting an entry in the panel highlights exactly that table's line with
      the same position, because the panel and the diagram build the same key. */
  lemma PanelSelectsDiagramLine(tables: seq<Table>, s: Selection, idx: nat)
    requires TableDetails(tables, s.table).Some?
    requires idx < |TableDetails(tables, s.table).value.relationships|
    ensures var t := TableDetails(tables, s.table).value;
      var r := SelectRelationship(s, t, idx);
      forall k :: 0 <= k < |t.relationships| ==> (LineActive(r, t, k) <==> k == idx)
  {
    var t := TableDetails(tables, s.table).value;
    forall k | 0 <= k < |t.relationships| && LineActive(SelectRelationship(s, t, idx), t, k)
      ensures k == idx
    {
      RelKeyInjective(t.name, t.relationships[k].target, k, t.relationships[idx].target, idx);
    }
  }

  /** The relationships part of the details panel: the table it lists and
      whether the "No relationships defined" note is shown. */
  datatype Section = Section(table: Table, noRelationshipsNote: bool)

  /** The details panel: a heading, and the relationships part when a table
      is found. */
  datatype Panel = Panel(heading: string, section: Option<Section>)

  const NoTableHeading: string := "Select a Table"

  /** The heading follows the selected name (any truthy one), while the
      relationships part follows the table lookup. */
  function DetailsPanel(tables: seq<Table>, s: Selection): (p: Panel)
    ensures p.section.Some? <==> TableDetails(tables, s.table).Some?
    ensures p.section.Some? ==> p.section.value.table == TableDetails(tables, s.table).value
    ensures p.section.Some? ==>
      (p.section.value.noRelationshipsNote <==> |p.section.value.table.relationships| == 0)
    ensures p.section.Some? ==> p.heading == p.section.value.table.name + " Details"
    ensures p.heading == NoTableHeading <==> s.table.None? || s.table.value == ""
  {
    var heading := if s.table.Some? && s.table.value != "" then s.table.value + " Details" else NoTableHeading;
    assert heading != NoTableHeading <==> s.table.Some? && s.table.value != "" by {
      if s.table.Some? && s.table.value != "" {
        assert heading[|heading| - 1] == 's' != NoTableHeading[|NoTableHeading| - 1];
      }
    }
    match TableDetails(tables, s.table)
    case None => Panel(heading, None)
    case Some(t) => Panel(heading, Some(Section(t, |t.relationships| == 0)))
  }

  /** A selected name that no table has still gets a "... Details" heading,
      over an empty panel. */
  lemma HeadingWithoutTable(tables: seq<Table>, s: Selection)
    requires s.table.Some? && s.table.value != ""
    requires forall i :: 0 <= i < |tables| ==> tables[i].name != s.table.value
    ensures DetailsPanel(tables, s) == Panel(s.table.value + " Details", None)
  {
  }

  /** After a click on a table, the panel is headed by its name and lists its
      relationships, with the note exactly when it has none. */
  lemma ClickShowsPanel(tables: seq<Table>, s: Selection, i: nat)
    requires i < |tables| && tables[i].name != ""
    requires forall k :: 0 <= k < i ==> tables[k].name != tables[i].name
    ensures var p := DetailsPanel(tables, s.(table := Some(tables[i].name)));
      p.heading == tables[i].name + " Details"
      && p.section == Some(Section(tables[i], |tables[i].relationships| == 0))
  {
    ClickShowsTable(tables, i);
  }

  /** The diagram tests the selected key against the lines of every table,
      and keys of different tables can coincide: selecting the only line of
      table "a-b" (to "c") also lights up the only line of table "a" (to
      "b-c"), both keyed "a-b-c-0". */
  lemma KeyCollidesAcrossTables(t1: Table, t2: Table)
    requires t1.name == "a-b" && |t1.relationships| == 1 && t1.relationships[0].target == "c"
    requires t2.name == "a" && |t2.relationships| == 1 && t2.relationships[0].target == "b-c"
    ensures t1 != t2
    ensures var s := SelectRelationship(Selection(Some("a-b"), None), t1, 0);
      LineActive(s, t1, 0) && LineActive(s, t2, 0)
  {
    assert t1.name != t2.name;
    assert RelKey(t1.name, "c", 0) == RelKey(t2.name, "b-c", 0) by {
      assert NatToString(0) == "0";
    }
  }

  /** A line identified by its table, target and position, instead of the
      three joined with dashes. */
  datatype LineRef = LineRef(table: string, target: string, index: nat)

  function LineRefOf(t: Table, idx: nat): LineRef
  {
    LineRef(t.name, if idx < |t.relationships| then t.relationships[idx].target else "", idx)
  }

  /** The corrected highlight: a line is active when its reference is the
      selected one. */
  predicate RefActive(selected: Option<LineRef>, t: Table, idx: nat)
  {
    selected == Some(LineRefOf(t, idx))
  }

  /** With the reference as the key, and tables named distinctly, selecting
      a line highlights that line and no other line of any table. */
  lemma RefSelectsOneLine(tables: seq<Table>, i: nat, idx: nat, j: nat, k: nat)
    requires forall a, b :: 0 <= a < b < |tables| ==> tables[a].name != tables[b].name
    requires i < |tables| && idx < |tables[i].relationships|
    requires j < |tables| && k < |tables[j].relationships|
    ensures RefActive(Some(LineRefOf(tables[i], idx)), tables[j], k) <==> i == j && k == idx
  {
  }
}
