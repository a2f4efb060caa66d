# Priscus client, modelled in Dafny

Priscus is a React client for an AI project planner. A user describes a
project idea. The backend scores it (an overall score plus per-pillar
scores, advantages, features and recommendations). From that analysis it
generates a Kanban board and a three-part workflow: technical steps, a user
journey and a database schema. The client lists stored projects and shows
each project's details. It also draws the schema in three different
diagram screens, shows a detailed UI design, and talks to an MCP server.
The MCP server's project list arrives as a text blob that the client parses
line by line.

This project models the client's non-I/O logic as pure Dafny functions over
immutable datatypes, and proves what the code promises about it:

- the MCP text parser;
- the Kanban drag-and-drop updates and the column partition;
- the wizard state machine of the app shell;
- the project list's replace, delete and preview rules;
- the form's trim-and-validate check;
- the project details tabs and the generate handlers;
- the classifiers and projections of the analysis, workflow, schema and design screens.

Every backend call is an input. A `Reply` is either a success carrying its
data, or `Failed`, which stands for an unsuccessful reply, a network error
or an unparsable body.

Modules:

- Shared helpers: `Wrappers` (Option, Reply), `Seqs` (find, indexOf, filter, count) and `Text` (JavaScript `trim`, ASCII `toLowerCase`, `includes`, single-character `replace` and `split`, number formatting).
- `Schema`: the records the schema screens share.
- One module per source file: `McpService`, `KanbanBoard`, `ProjectAnalysis`, `Projects` (the project record and list updates), `ProjectForm`, `ProjectManagement`, `ProjectDetails`, `App`, `WorkflowVisualization`, `DatabaseSchemaDiagram`, `DatabaseSchemaVisualizer`, `DatabaseFlow` and `DetailedDesignVisualizer`.

## Model

| member | source | states |
|---|---|---|
| McpService.ResponseText | src/services/mcpService.ts:180-184 | the text is present only when `content`, `content[0]` and a non-empty `content[0].text` all exist |
| McpService.ExtractText | src/services/mcpService.ts:220-225 | returns `content[0].text` when present and non-empty, else the literal 'No response text available'; never empty |
| McpService.FirstMatch | src/services/mcpService.ts:190 | a result is the regex engine's match of `• (.+?) \(ID: (.+?)\)` (leftmost start, shortest title, shortest id); no result means no position matches at all |
| McpService.EngineMatchUnique | src/services/mcpService.ts:190 | the engine's match is determined: two leftmost-lazy matches coincide |
| McpService.PrefilterRedundant | src/services/mcpService.ts:189-191 | the `includes('•') && includes('(ID:')` pre-filter never rejects a line the pattern matches |
| McpService.ProjectLine | src/services/mcpService.ts:188-213 | a line yields a project iff it contains both markers and the pattern matches it; the project carries the given description, and each flag is true exactly when the line contains "Analysis: ✅", "Kanban: ✅" or "Workflow: ✅" |
| McpService.ParseLineAt | src/services/mcpService.ts:188-213 | a line of the text yields a project iff it contains both markers and the pattern matches it |
| McpService.ParsedTitleAndId | src/services/mcpService.ts:190-193 | title and id are non-empty; the id has no `)` after its first character; the line contains `• title (ID: id)` |
| McpService.MatchedText | src/services/mcpService.ts:190-193 | the matched text is bullet, space, title, ` (ID: `, id, `)` |
| McpService.DescriptionIndex | src/services/mcpService.ts:196 | as written, the description index is one past the FIRST line equal to the project line |
| McpService.ParsedDescription | src/services/mcpService.ts:196-197 | the description is the line at the description index with only surrounding whitespace removed, so it neither starts nor ends with whitespace; it is '' when that index is past the last line |
| McpService.ParseLinesCharacterized | src/services/mcpService.ts:188-215 | each project comes from one project line, in line order, and every project line yields exactly one project; each project's three flags are exactly the substring tests on its own line |
| McpService.ParseProjects | src/services/mcpService.ts:179-218 | no text gives no projects; otherwise there are at most as many projects as lines |
| McpService.NoBulletNoProjects | src/services/mcpService.ts:188-189 | a text without '•' yields no projects |
| McpService.ParseAgreesWithExtract | src/services/mcpService.ts:179-225 | parsing the response and parsing its extracted text agree, because the fallback text has no bullet |
| McpService.ParseAgreesWithoutDuplicates | src/services/mcpService.ts:196-197 | without repeated lines the `indexOf` rule and the own-line rule give the same projects |
| McpService.DescriptionFromFirstCopy | src/services/mcpService.ts:196-197 | a later copy of a project line takes the description after the first copy |
| McpService.DescriptionFromOwnLine | src/services/mcpService.ts:196-197 | under the corrected rule, a project's description is the trimmed line right after its own line |
| McpService.DuplicateLineSharesDescription | src/services/mcpService.ts:196-197 | on a concrete text, the second copy of a project line gets the first copy's description; the corrected rule gives its own |
| McpService.ParseProjectsCorrected | src/services/mcpService.ts:196-197 | the corrected parser: the same contract, with the description taken from the line after the project's own line |
| Text.JoinSplit | src/services/mcpService.ts:185 | splitting on '\n' loses nothing: joining the pieces gives the text back |
| Text.TrimIdempotent | src/components/ProjectForm.tsx:15 | trim is idempotent |
| Text.TrimEmptyIff | src/components/ProjectForm.tsx:14 | a trimmed value is empty exactly when the input is all whitespace |
| Text.ToLowerIdempotent | src/components/DatabaseFlow.tsx:47-48 | lower-casing is idempotent |
| KanbanBoard.DragStart | src/components/KanbanBoard.tsx:119-122 | the dragged card is the first task with the active id, none if there is none; tasks unchanged |
| KanbanBoard.MoveTask | src/components/KanbanBoard.tsx:133-136 | length and order kept; every matching task gets the new pipeline, with no check that it names a column; every other field and task unchanged |
| KanbanBoard.DragEnd | src/components/KanbanBoard.tsx:124-137 | always clears the dragged card; without a drop target the tasks are unchanged |
| KanbanBoard.MoveTaskIdempotent | src/components/KanbanBoard.tsx:133-136 | the same drop twice equals one drop |
| KanbanBoard.MoveTaskAbsent | src/components/KanbanBoard.tsx:133-136 | a drop of an unknown id changes nothing |
| KanbanBoard.MoveTaskBack | src/components/KanbanBoard.tsx:133-136 | dragging a task back to its original column restores the list when all tasks with that id were there |
| KanbanBoard.Column | src/components/KanbanBoard.tsx:96 | a column holds exactly the tasks whose pipeline is its id |
| KanbanBoard.ColumnKeepsOrder | src/components/KanbanBoard.tsx:96 | columns keep board order (filtering distributes over concatenation) |
| KanbanBoard.TaskCount | src/components/KanbanBoard.tsx:102 | the header count is the column's length |
| KanbanBoard.DropColumns | src/components/KanbanBoard.tsx:96-136 | after a drop, any other column is its old self minus the dragged task |
| KanbanBoard.AtMostOneColumn | src/components/KanbanBoard.tsx:149-155 | with distinct pipeline ids a task is shown in at most one column |
| KanbanBoard.UnknownPipelineHidden | src/components/KanbanBoard.tsx:149-155 | a task whose pipeline names no column is shown nowhere |
| KanbanBoard.ColumnsPartition | src/components/KanbanBoard.tsx:149-155 | with distinct pipeline ids the cards shown across all columns are exactly the tasks on a known pipeline |
| KanbanBoard.PriorityColor | src/components/KanbanBoard.tsx:53-60 | high, medium and low map to fixed colours; any other string is grey |
| ProjectAnalysis.ScoreColor | src/components/ProjectAnalysis.tsx:31-35 | scores split into at least 80, [60, 80) and below 60 |
| ProjectAnalysis.ScoreBgColor | src/components/ProjectAnalysis.tsx:37-41 | the background uses the same thresholds |
| ProjectAnalysis.ColorsAgree | src/components/ProjectAnalysis.tsx:31-41 | text and background always name the score's own band |
| ProjectAnalysis.BandMonotone | src/components/ProjectAnalysis.tsx:31-35 | a higher score never gets a worse band |
| ProjectAnalysis.BarColor | src/components/ProjectAnalysis.tsx:87-90 | the pillar bar uses the same three bands |
| ProjectAnalysis.PillarRows | src/components/ProjectAnalysis.tsx:77-96 | each pillar row's bar and text show the same band, and the bar width is the raw score |
| ProjectAnalysis.BarNotClamped | src/components/ProjectAnalysis.tsx:91 | a score above 100 gives a bar wider than 100% |
| ProjectAnalysis.NumberedRecommendations | src/components/ProjectAnalysis.tsx:155-162 | recommendations keep their order and are numbered from 1 in steps of one |
| ProjectAnalysis.LastNumberIsCount | src/components/ProjectAnalysis.tsx:158 | the last number is the count of recommendations |
| Projects.ReplaceById | src/App.tsx:293 | length and order kept; every entry with the update's id becomes the update; the others stay |
| Projects.ReplaceKeepsIds | src/App.tsx:293 | an update keeps every id in place |
| Projects.ReplaceAbsent | src/App.tsx:293 | an update whose id is not listed changes nothing |
| Projects.ReplaceIdempotent | src/App.tsx:293 | the same update twice equals once |
| Projects.ReplacedPresent | src/App.tsx:293 | the update appears in the list iff its id was there |
| Projects.RemoveById | src/components/ProjectManagement.tsx:55 | every project with the id is removed; every other one is kept |
| Projects.RemoveKeepsOrder | src/components/ProjectManagement.tsx:55 | survivors keep their order |
| Projects.RemoveAbsent | src/components/ProjectManagement.tsx:55 | deleting an unlisted id changes nothing |
| Projects.RemoveIdempotent | src/components/ProjectManagement.tsx:55 | deleting twice equals deleting once |
| Projects.RemoveAfterReplace | src/App.tsx:293 | a delete erases any earlier update of the same id |
| ProjectForm.HandleSubmit | src/components/ProjectForm.tsx:12-17 | submits iff neither field is all whitespace; the values are the inputs without surrounding whitespace |
| ProjectForm.SubmittedIsTrimmed | src/components/ProjectForm.tsx:15 | submitted values are non-empty, have no surrounding whitespace, and resubmitting them changes nothing |
| ProjectForm.SubmitDisabled | src/components/ProjectForm.tsx:51 | disabled iff loading or either field is blank |
| ProjectForm.ButtonMatchesHandler | src/components/ProjectForm.tsx:12-17 | an enabled button always submits exactly once; when not loading, disabled exactly when the handler would submit nothing |
| ProjectManagement.Fetched | src/components/ProjectManagement.tsx:29-46 | loading ends; a success hands its list over; a failure records 'Failed to fetch projects' and keeps the list |
| ProjectManagement.Preview | src/components/ProjectManagement.tsx:126-129 | up to 100 characters shown unchanged; longer ones become their first 100 characters plus "...", at most 103 |
| ProjectManagement.PreviewIdempotent | src/components/ProjectManagement.tsx:126-129 | a preview is its own preview |
| ProjectManagement.StatusMark | src/components/ProjectManagement.tsx:135-141 | ✅ iff the blob is present, else ⏳ |
| ProjectManagement.ProjectCard | src/components/ProjectManagement.tsx:106-158 | a card is highlighted iff its id is the selection's; status marks follow the blobs; the score is shown iff there is an analysis |
| ProjectManagement.Render | src/components/ProjectManagement.tsx:75-104 | loading over error over "No projects yet" over the grid; the error view shows the stored message, and the grid has one card per project |
| ProjectManagement.FailedFetchShowsError | src/components/ProjectManagement.tsx:37-45 | a failed first fetch ends on the error message |
| ProjectManagement.Delete | src/components/ProjectManagement.tsx:48-63 | the list is untouched unless the response is ok; the selection is cleared iff the deleted id is the selected project's |
| ProjectManagement.DeleteRemovesCard | src/components/ProjectManagement.tsx:54-55 | after an ok delete no project has the id, and all others remain |
| ProjectDetails.ScoreColor | src/components/ProjectDetails.tsx:99-103 | bands at 80 and 60 |
| ProjectDetails.ScoreColorsAgree | src/components/ProjectDetails.tsx:99-103 | the details screen and the analysis screen colour every score alike |
| ProjectDetails.FileIcon | src/components/ProjectDetails.tsx:105-112 | pdf and figma get their own icons; every other type gets the default |
| ProjectDetails.UnknownFileTypeIcon | src/components/ProjectDetails.tsx:105-112 | an unknown type gets the default icon, which equals the doc icon |
| ProjectDetails.StatusColor | src/components/ProjectDetails.tsx:114-121 | 'in progress', 'completed' and 'todo' in any ASCII case get their classes; anything else gets plain 'status-badge' |
| ProjectDetails.StatusColorCaseInsensitive | src/components/ProjectDetails.tsx:115 | the class ignores case |
| ProjectDetails.LengthOrZero | src/components/ProjectDetails.tsx:378 | `?.length \|\| 0`: a missing list counts 0 |
| ProjectDetails.AnalysisSummary | src/components/ProjectDetails.tsx:366-396 | the summary exists iff there is an analysis; its counts fall back to 0 |
| ProjectDetails.MissingListsCountZero | src/components/ProjectDetails.tsx:378-390 | missing lists count zero |
| ProjectDetails.TabDisabled | src/components/ProjectDetails.tsx:415-441 | the Analysis, Kanban and Workflow tabs are disabled iff their blob is missing; Overview never is |
| ProjectDetails.ClickTab | src/components/ProjectDetails.tsx:415-441 | a disabled tab ignores the click; an enabled one switches the view |
| ProjectDetails.Render | src/components/ProjectDetails.tsx:463-485 | Overview shows the overview; the analysis, kanban and workflow content appear only on their own tab and show that tab's blob; the content is blank iff the blob is missing or the view is 'database' |
| ProjectDetails.ClickedTabShowsContent | src/components/ProjectDetails.tsx:415-485 | tab clicks never blank the content area |
| ProjectDetails.GenerateKanban | src/components/ProjectDetails.tsx:123-150 | no-op without an analysis; a success merges the board, reports the copy upward and switches the view; a failure only ends loading |
| ProjectDetails.GenerateWorkflow | src/components/ProjectDetails.tsx:152-179 | the same for the workflow |
| ProjectDetails.GenerateKanbanKeepsFields | src/components/ProjectDetails.tsx:140-143 | a success changes only `kanban`, and the board is shown next |
| ProjectDetails.GenerateWorkflowKeepsFields | src/components/ProjectDetails.tsx:169-172 | a success changes only `workflow`, and the workflow is shown next |
| ProjectDetails.GeneratorsCommute | src/components/ProjectDetails.tsx:140-172 | two successes in either order give the same project |
| App.Submit | src/App.tsx:140-160 | a success stores the data, the id and the analysis and moves to 'analysis'; a failure changes only loading; loading ends false |
| App.GenerateKanban | src/App.tsx:162-186 | a no-op unless analysis, a non-empty id and project data are present; a success stores the board and moves to 'kanban'; loading ends false |
| App.GenerateWorkflow | src/App.tsx:188-212 | the same for the workflow and the 'workflow' step |
| App.SubmitEnablesGenerators | src/App.tsx:149-153 | a successful analysis with a non-empty id enables both generators |
| App.SelectProject | src/App.tsx:255-258 | the argument becomes the selection and the step becomes 'project-details'; nothing else changes |
| App.Navigate | src/App.tsx:222-238 | the navigation buttons change only the step |
| App.UpdateProject | src/App.tsx:290-294 | the update becomes the selection and replaces every list entry with its id; nothing else changes |
| App.ProjectsFetched | src/App.tsx:261 | the list screen's fetch replaces only the list |
| App.MainView | src/App.tsx:250-300 | the list, form and MCP steps show their screens; the analysis, kanban, workflow and details screens appear only on their own step and show that step's data; a step is blank iff the data it needs is missing |
| App.DetailsButton | src/App.tsx:240-247 | the extra button appears iff on the details step with a selection |
| App.ConsistentNeverBlank | src/App.tsx:269-296 | a consistent shell never shows a blank page |
| App.WizardKeepsConsistent | src/App.tsx:140-160 | the start state is consistent, and the analysis handler keeps it so |
| App.GeneratorsKeepConsistent | src/App.tsx:162-212 | the generators keep the shell consistent |
| App.NavigationKeepsConsistent | src/App.tsx:222-294 | card clicks, navigation and updates keep the shell consistent |
| App.DeleteProjectAsWritten | src/components/ProjectManagement.tsx:54-58 | the delete as written: deleting the selected project calls `onSelectProject(null)`, which moves to the details step with no project; only the list, the selection and the step change |
| App.DeleteSelectedBlanksPage | src/App.tsx:255-258 | deleting the selected project from the list leaves a blank page |
| App.DeleteProject | src/components/ProjectManagement.tsx:54-58 | the corrected delete clears the selection and stays on the list; only the list and the selection change |
| App.DeleteProjectKeepsConsistent | src/components/ProjectManagement.tsx:54-58 | the corrected delete keeps the shell consistent, and agrees with the original whenever the selection survives |
| WorkflowVisualization.Nodes | src/components/WorkflowVisualization.tsx:190-242 | one node per entity or workflow node, in order, with id = name or id; a missing part or list yields [], and so does a workflow node without `data` (the throw is caught and the tab gets no nodes) |
| WorkflowVisualization.SchemaNodesMatchSchemaScreens | src/components/WorkflowVisualization.tsx:192-206 | the schema tab's nodes have the same ids as the schema screens' nodes |
| WorkflowVisualization.Edges | src/components/WorkflowVisualization.tsx:244-338 | success edges are animated green smooth steps, others straight; edges with a condition are animated steps; schema edges are coloured and classed by type; a missing list yields [] |
| WorkflowVisualization.RelationshipColor | src/components/WorkflowVisualization.tsx:341-349 | four exact, case-sensitive names get colours; anything else is grey |
| WorkflowVisualization.RelationshipColorDefault | src/components/WorkflowVisualization.tsx:341-349 | any other spelling, lower case included, is grey |
| WorkflowVisualization.RelationshipClass | src/components/WorkflowVisualization.tsx:258 | same length, lower case |
| WorkflowVisualization.RelationshipClassFirstOnly | src/components/WorkflowVisualization.tsx:258 | only the first '_' becomes '-' and later ones stay (MANY_TO_MANY gives many-to_many) |
| WorkflowVisualization.BadgeClassAgree | src/components/WorkflowVisualization.tsx:491-492 | the badge class is the badge text lower-cased |
| WorkflowVisualization.GetFieldIcon | src/components/WorkflowVisualization.tsx:20-50 | primary key over foreign key over UNIQUE over default |
| WorkflowVisualization.FieldTypeLabel | src/components/WorkflowVisualization.tsx:52-66 | looks up the lower-cased type; an unknown type comes back unchanged, in its original case |
| WorkflowVisualization.FieldTypeLabelIdempotent | src/components/WorkflowVisualization.tsx:53-65 | every label maps to itself |
| WorkflowVisualization.Row | src/components/WorkflowVisualization.tsx:75-94 | the key badges follow the key flags; UNIQUE shows iff the field is neither key and has the constraint; "required" iff `required`, else "nullable"; the icon is the field's icon |
| WorkflowVisualization.RowAgreesWithIcon | src/components/WorkflowVisualization.tsx:80-85 | the indicators agree with the icon's precedence |
| Schema.EntityNodes | src/components/DatabaseSchemaVisualizer.tsx:232-241 | one node per entity, in order, with id = entity name |
| Schema.EntityNodeIds | src/components/DatabaseFlow.tsx:138-147 | node ids clash exactly when entity names do |
| Schema.FindEntity | src/components/DatabaseSchemaVisualizer.tsx:292-295 | a click selects an entity named like the node, or nothing when none is |
| Schema.ClickSelectsEntity | src/components/DatabaseFlow.tsx:179-182 | clicking an entity's node selects the first entity of that name |
| Schema.Loaded | src/components/DatabaseSchemaVisualizer.tsx:187-206 | loading ends; a success stores the schema; a failure records 'Failed to load schema' |
| Schema.Render | src/components/DatabaseSchemaVisualizer.tsx:208-230 | loading over error over missing schema over the diagram |
| Schema.LoadOutcome | src/components/DatabaseFlow.tsx:112-136 | after the fetch the screen shows the diagram on success and the error on failure |
| Schema.ClickNode | src/components/DatabaseFlow.tsx:179-182 | a click changes only the selection |
| DatabaseFlow.FieldIcon | src/components/DatabaseFlow.tsx:40-45 | primary key over foreign key over UNIQUE over default |
| DatabaseFlow.TypeColor | src/components/DatabaseFlow.tsx:47-61 | matches on the lower-cased type, including 'varchar(255)' |
| DatabaseFlow.TypeColorDefault | src/components/DatabaseFlow.tsx:47-61 | any other type gets '#94a3b8' |
| DatabaseFlow.TypeColorCaseInsensitive | src/components/DatabaseFlow.tsx:48 | the colour ignores case |
| DatabaseFlow.Edges | src/components/DatabaseFlow.tsx:149-160 | one edge per relationship, keeping its id, ends and label; ONE_TO_MANY is a blue (#3b82f6) smooth step, any other type a straight green (#10b981) line |
| DatabaseSchemaVisualizer.NodeFieldIcon | src/components/DatabaseSchemaVisualizer.tsx:48-53 | primary key over UNIQUE over required over nullable |
| DatabaseSchemaVisualizer.SidebarFieldIcon | src/components/DatabaseSchemaVisualizer.tsx:396-401 | primary key over UNIQUE; otherwise the filled circle iff required and the empty circle iff not |
| DatabaseSchemaVisualizer.FieldIconsAgree | src/components/DatabaseSchemaVisualizer.tsx:396-401 | the module-level copy agrees with the node's, and neither reads `isForeignKey` |
| DatabaseSchemaVisualizer.FieldTypeColor | src/components/DatabaseSchemaVisualizer.tsx:55-75 | classifies by lower-cased type; grey exactly when the lower-cased type is none of the ten listed names |
| DatabaseSchemaVisualizer.FieldTypeColorCaseInsensitive | src/components/DatabaseSchemaVisualizer.tsx:55-56 | the colour ignores ASCII case |
| DatabaseSchemaVisualizer.SizedVarcharIsGrey | src/components/DatabaseSchemaVisualizer.tsx:55-75 | 'varchar(255)' falls to the grey default |
| DatabaseSchemaVisualizer.Edges | src/components/DatabaseSchemaVisualizer.tsx:243-250 | one unanimated edge per relationship, keeping its id, ends and label |
| DatabaseSchemaVisualizer.EdgesMatchDatabaseFlow | src/components/DatabaseSchemaVisualizer.tsx:243-250 | this screen's edges and the generated-schema screen's edges (src/components/DatabaseFlow.tsx:149-160) agree edge for edge on id, ends and label |
| DatabaseSchemaVisualizer.RelationshipCaption | src/components/DatabaseSchemaVisualizer.tsx:382 | the sidebar caption has the type's length, and a type without '_' is unchanged |
| DatabaseSchemaDiagram.TablePosition | src/components/DatabaseSchemaDiagram.tsx:72-73 | table i sits at left (i mod 3)·310 and top (i div 3)·250 |
| DatabaseSchemaDiagram.ThreeColumns | src/components/DatabaseSchemaDiagram.tsx:72 | left is 0, 310 or 620 |
| DatabaseSchemaDiagram.PositionsDistinct | src/components/DatabaseSchemaDiagram.tsx:72-73 | distinct indices get distinct offsets |
| DatabaseSchemaDiagram.ColumnPreview | src/components/DatabaseSchemaDiagram.tsx:82-108 | the first min(3, n) columns are shown; "n−3 more" appears iff n > 3; shown plus hidden equals n |
| DatabaseSchemaDiagram.ColumnIcon | src/components/DatabaseSchemaDiagram.tsx:44-48 | primary key over foreign key over regular |
| DatabaseSchemaDiagram.TableDetails | src/components/DatabaseSchemaDiagram.tsx:39-42 | nothing when nothing is selected, else a table with that name if there is one |
| DatabaseSchemaDiagram.ClickShowsTable | src/components/DatabaseSchemaDiagram.tsx:39-42 | clicking a table shows the first table of its name |
| DatabaseSchemaDiagram.DetailsPanel | src/components/DatabaseSchemaDiagram.tsx:148-155 | the relationships part is shown iff the table lookup finds a table, lists that table, and carries the "No relationships defined" note iff it has no relationships; a found table heads the panel as "name Details"; the heading is "Select a Table" iff no name (or the empty one) is selected |
| DatabaseSchemaDiagram.HeadingWithoutTable | src/components/DatabaseSchemaDiagram.tsx:148-150 | a selected name no table has still reads "name Details", over an empty panel |
| DatabaseSchemaDiagram.ClickShowsPanel | src/components/DatabaseSchemaDiagram.tsx:39-155 | after a click on a table, the panel is headed by its name and lists its relationships, with the note iff there are none |
| DatabaseSchemaDiagram.RelKey | src/components/DatabaseSchemaDiagram.tsx:119-133 | the key is `table-target`, a dash, then the index in decimal, and that dash is the key's last one |
| DatabaseSchemaDiagram.RelKeyInjective | src/components/DatabaseSchemaDiagram.tsx:119 | within a table, the key `table-target-idx` determines target and position |
| DatabaseSchemaDiagram.SelectRelationship | src/components/DatabaseSchemaDiagram.tsx:133 | a click selects the line's key and keeps the table selection |
| DatabaseSchemaDiagram.PanelSelectsDiagramLine | src/components/DatabaseSchemaDiagram.tsx:119-161 | among the shown table's own lines, a panel entry highlights exactly the line with the same position (other tables' lines may share the key) |
| DatabaseSchemaDiagram.KeyCollidesAcrossTables | src/components/DatabaseSchemaDiagram.tsx:115-119 | as written, selecting the line of table "a-b" to "c" also highlights the line of table "a" to "b-c" |
| DatabaseSchemaDiagram.RefSelectsOneLine | src/components/DatabaseSchemaDiagram.tsx:115-119 | with a structured key and distinctly named tables, a selection highlights exactly one line across all tables |
| DetailedDesignVisualizer.Toggle | src/components/DetailedDesignVisualizer.tsx:152 | the selected card clears the selection; any other card becomes the selection |
| DetailedDesignVisualizer.ToggleTwice | src/components/DetailedDesignVisualizer.tsx:152 | two clicks restore the selection iff it was none or that card |
| DetailedDesignVisualizer.Highlighted | src/components/DetailedDesignVisualizer.tsx:149-151 | a card is ringed iff its id is the selection |
| DetailedDesignVisualizer.ClickFlipsRing | src/components/DetailedDesignVisualizer.tsx:149-152 | a click flips the clicked card's ring |
| DetailedDesignVisualizer.WireframeDetails | src/components/DetailedDesignVisualizer.tsx:201-206 | nothing for no selection or an empty one; an unknown id renders nothing |
| DetailedDesignVisualizer.FlowDetails | src/components/DetailedDesignVisualizer.tsx:318-323 | the same lookup for flows |
| DetailedDesignVisualizer.ClickOpensDetails | src/components/DetailedDesignVisualizer.tsx:152-206 | clicking an unselected card opens its details |
| DetailedDesignVisualizer.StepPreview | src/components/DetailedDesignVisualizer.tsx:296-311 | the first min(3, n) steps numbered from 1; "+(n−3) more" iff n > 3 |
| DetailedDesignVisualizer.PreviewAccountsForAll | src/components/DetailedDesignVisualizer.tsx:296-311 | shown plus hidden equals n |
| DetailedDesignVisualizer.Connectors | src/components/DetailedDesignVisualizer.tsx:333 | a connector follows every step but the last |
| DetailedDesignVisualizer.ConnectorCount | src/components/DetailedDesignVisualizer.tsx:327-335 | there are n−1 connectors, and none for an empty flow |
| DetailedDesignVisualizer.GetDeviceIcon | src/components/DetailedDesignVisualizer.tsx:124-131 | Monitor for desktop and for any unknown type |
| DetailedDesignVisualizer.PriorityColor | src/components/DetailedDesignVisualizer.tsx:133-140 | high, medium and low get fixed classes; anything else is grey |
| DetailedDesignVisualizer.UpperBound | src/components/DetailedDesignVisualizer.tsx:539 | "∞" iff `maxWidth` is missing or 0 |

## Left out

- Network calls: every `fetch` is an input `Reply`. A success reply whose `data` (or `projectId`) is missing is not modelled. Such a reply would store `undefined` where the model stores a present value.
- Interleaving of asynchronous handlers: each handler is one atomic step from the state it was started in. The `loading := true` set before the request is never observable in the model.
- src/components/MCPDashboard.tsx, src/components/UIDesignGenerator.tsx and src/services/uiDesignService.ts: orchestration, DOM reads and mock payloads with no logic of their own.
- ReactFlow, dnd-kit and lucide internals. In particular, collision detection, which decides the drop target `over`, is an input.
- Rendering: JSX, CSS and styling, except the class and colour choices modelled above.
- Floating-point layout: the percentage positions of wireframe components and the bezier paths of the schema visualizer. Scores, positions and widths are `real`. The colour bands compare scores with 60 and 80, and the pillar bar uses the score as its width; no other arithmetic is done on them.
- Time and locale: `new Date().toISOString()` in the MCP parser (records carry no timestamp) and `toLocaleDateString` in the list and details screens.
- Unicode case mapping: `toLowerCase` maps only ASCII letters. No lookup key in the source contains other letters.
- UTF-16 code units: strings are sequences of characters, and `substring(0, 100)` counts characters.
- Inherited object keys: the lookups `typeMap[key] \|\| type` (src/components/WorkflowVisualization.tsx:65) and `typeColors[relType] \|\| '#d1d5db'` (src/components/WorkflowVisualization.tsx:348) would also find inherited keys such as "constructor", "toString" or "__proto__". The model looks up only the listed keys.
- WorkflowVisualization.RelationshipColor: "anything else is grey" excludes the names of inherited object properties ("constructor", "toString", "__proto__" and the like), for which the source returns the truthy inherited value instead of grey. The same exception applies to WorkflowVisualization.RelationshipColorDefault and WorkflowVisualization.FieldTypeLabel.
- Mock files, notes and tasks of the project details overview, the search box, the play/pause toggle and the design-system, typography and spacing lists: display only.
- ProjectDetails.FileIcon: models the icon literals exactly as the source stores them. They are UTF-8 emoji re-read as Windows-1252, and the "doc" and default icons lost a byte and became identical.
- ProjectDetails.Render: the 'database' view exists in the type but no tab sets it. The model keeps it and shows no content for it.
- DatabaseSchemaVisualizer.RelationshipCaption: states only length and the no-underscore case. Which underscore is replaced follows from `Text.ReplaceFirstAt`, as `WorkflowVisualization.RelationshipClassFirstOnly` shows.
- ProjectAnalysis.ScoreColor: scores are finite reals. A score that is `NaN` or `undefined` fails both comparisons and gets the red band in the source; the model cannot represent it. The same holds for ProjectAnalysis.ScoreBgColor, ProjectAnalysis.BarColor and ProjectDetails.ScoreColor.
- WorkflowVisualization.Nodes: a `null` element in a node list also throws and empties the tab in the source. The model's lists hold no nulls; a node whose `data` is missing is modelled.
- WorkflowVisualization.Edges: a schema relationship without `type` throws at `rel.type.toLowerCase()`, and the catch empties the edge list. The model's relationship type is always a string, so this path is not modelled, nor are `null` edges.
- DatabaseSchemaDiagram.PanelSelectsDiagramLine: promises exactness only among the shown table's own lines. Tables with the same name, or names and targets that join to the same key, light up lines of other tables too.
- The regex engine: `McpService.FirstMatch` specifies the leftmost, lazy match declaratively instead of running a backtracking engine.

## Findings

| source | as written | input that shows it | evidently intended | confidence | as-written member | corrected member |
|---|---|---|---|---|---|---|
| src/services/mcpService.ts:196-197 | the description index is `lines.indexOf(line) + 1`, so it comes from the line after the FIRST line equal to the project line | the text `• A (ID: 1)`, `first`, `• A (ID: 1)`, `second` (four lines): the second project gets description "first" | the line after the project's own line ("second") | not executed | McpService.DuplicateLineSharesDescription | McpService.ParseProjectsCorrected |
| src/components/ProjectManagement.tsx:56-58 | deleting the selected project calls `onSelectProject(null)`. The app's handler (src/App.tsx:255-258) stores the null selection and moves to 'project-details', where nothing renders | on the list screen with project p selected, delete p with an ok response: the step is 'project-details', the selection is null, and the main area and the project button are empty | clear the selection and stay on the list | not executed | App.DeleteSelectedBlanksPage | App.DeleteProjectKeepsConsistent |
| src/components/DatabaseSchemaDiagram.tsx:115-119 | a line is active when the selected key equals `${table.name}-${rel.target}-${idx}`, tested against the lines of every table | table "a-b" with one relationship to "c", and table "a" with one relationship to "b-c": both lines are keyed "a-b-c-0", so clicking one highlights both | a selection identifies one line of one table | not executed | DatabaseSchemaDiagram.KeyCollidesAcrossTables | DatabaseSchemaDiagram.RefSelectsOneLine |
