# Carbon dashboard: a Dafny model of the screen logic

This project models the logic inside the carbon-management dashboard's React components. The
dashboard is a front end over in-memory sample data, with no backend in code. Every screen keeps
its records in component state and changes them through small handlers. The model covers:

- **In-memory registries.** API keys, threshold rules, alerts, inspection tasks, task feedback
  and monitoring parameters. Each update is a pure function on a sequence: a guarded insert with
  a generated id, an update by id, or a delete by id.
- **Input gates.** The file-extension checks of the two upload screens, the manual-entry
  schema with its table of units per data type, and the parameter form schema.
- **List queries.** Case-insensitive search combined with equal-or-`all` filters. Also the
  stable sorts with their toggled direction, de-duplicated option lists, and the grouping of
  feedback by task with the latest entry on top.
- **The organisation tree.** The recursive node type, the rows a tree shows for an expansion
  state, and the per-level subordinate counts of the summary card.
- **Chart selection.** The data and colour fallbacks of the comparison, ranking and chart
  generator views, and the totals and growth sign of the comparison summary.

One module models each component, named after it. Four shared modules hold what the screens
have in common:

- `Common`: `Option`, the `all`-or-value filter `Choice`, and the `requestSort` toggle. The
  toggle is written the same way in CarbonSinkHistory.tsx and in Parameters.tsx:510-516.
- `Text`: JavaScript's `trim`, `\s`, `toLowerCase`, `includes`, `split('.').pop()`,
  `padStart` and string `<`.
- `Seqs`: `filter`, order-preserving subsequences, and `Array.from(new Set(xs))`.
- `Sorting`: `Array.prototype.sort` with a consistent comparator, which is stable, modelled as
  a stable insertion sort.

The random draws, the clock and the current date become parameters of the operations that use
them. A simulated upload, which the screens drive with timers, completes in one step.

## Model

| member | source | states |
|---|---|---|
| ApiKeys.InitialPanel | src/components/data-collection/ApiIntegration.tsx:145-149 | the panel opens on the three sample keys, an empty draft name, only the read permission ticked, the form closed and no key on display |
| ApiKeys.RandomSuffix | src/components/data-collection/ApiIntegration.tsx:166-170 | the random part has sixteen characters, the i-th being the alphabet character at the i-th draw, so each is a lower-case Latin letter or a digit |
| ApiKeys.FormatKeyShape | src/components/data-collection/ApiIntegration.tsx:172 | a stored key is the lower-cased name with white-space runs replaced, then '_' and the sixteen suffix characters; it holds no white space |
| ApiKeys.GenerateApiKey | src/components/data-collection/ApiIntegration.tsx:155-195 | a blank name changes nothing; otherwise exactly one active, never-used key with the draft's name, permissions, id and date goes in front of the unchanged registry, is the one shown, and the draft is reset |
| ApiKeys.EmptyPermissionsAccepted | src/components/data-collection/ApiIntegration.tsx:155-186 | a key with no permission ticked is generated all the same |
| ApiKeys.ToggleKeyStatus | src/components/data-collection/ApiIntegration.tsx:197-207 | a key's status changes exactly when it has the id, and nothing but the status changes |
| ApiKeys.ToggleKeyStatusInvolution | src/components/data-collection/ApiIntegration.tsx:197-207 | switching the same id twice gives back the registry |
| ApiKeys.DeleteKey | src/components/data-collection/ApiIntegration.tsx:214-215 | exactly the keys with another id remain, in order and with their multiplicity |
| ApiKeys.TogglePermission | src/components/data-collection/ApiIntegration.tsx:230-236 | the permission is present afterwards exactly when it was absent, others are untouched, an unticked one is appended, and a list without repeats stays without repeats |
| ApiKeys.TogglePermissionTwice | src/components/data-collection/ApiIntegration.tsx:230-236 | ticking twice gives back the same set of permissions, and the same list when the box started unticked |
| ManualEntry.ParseDataType | src/components/data-collection/ManualDataForm.tsx:49 | a data type is accepted exactly when it is one of the five type names, and decodes to the type of that name |
| ManualEntry.TypeNameRoundTrip | src/components/data-collection/ManualDataForm.tsx:49 | type names and types correspond one to one in both directions |
| ManualEntry.UnitTableWellFormed | src/components/data-collection/ManualDataForm.tsx:59-121 | every type offers two different units, the first being its default unit |
| ManualEntry.Validate | src/components/data-collection/ManualDataForm.tsx:48-55 | a form passes exactly when its type is known and building, date, value and unit are non-empty, and then every field is carried over unchanged |
| ManualEntry.ValidateIsLenient | src/components/data-collection/ManualDataForm.tsx:52-53 | a non-numeric value with a unit of another type passes the schema |
| ManualEntry.InitialForm | src/components/data-collection/ManualDataForm.tsx:173-187 | the form opens consistent, on electricity in kWh, dated today, with building and value empty |
| ManualEntry.HandleTypeChange | src/components/data-collection/ManualDataForm.tsx:189-193 | choosing a card makes the form consistent with that type's default unit and keeps building, date, value and notes |
| ManualEntry.UnitChoices | src/components/data-collection/ManualDataForm.tsx:343-346 | the selector offers exactly the units of the selected type: two different units, the default one first |
| ManualEntry.SelectUnit | src/components/data-collection/ManualDataForm.tsx:329-346 | picking an offered unit sets that unit and keeps the selected type |
| ManualEntry.ConsistencyPreserved | src/components/data-collection/ManualDataForm.tsx:173-193 | card clicks and offered units keep a consistent form consistent, and a consistent complete form passes the schema unchanged |
| FileImport.HandleFile | src/components/data-collection/FileImport.tsx:157-175 | a file whose lower-cased last extension is xlsx, xls or csv becomes the selection, with the CSV type exactly for csv, and nothing else changes; any other file changes nothing |
| FileImport.HandleFileDotted | src/components/data-collection/FileImport.tsx:159 | for a name `base.ext` only the lower-cased `ext` decides, whatever dots the base holds |
| FileImport.BareNameAccepted | src/components/data-collection/FileImport.tsx:159-161 | a name without a dot is its own extension, so a file called `CSV` is accepted as CSV |
| FileImport.ProgressTicksBounded | src/components/data-collection/FileImport.tsx:192-200 | the bar moves in steps of ten, never shows more than 100, and shows 100 after ten steps |
| FileImport.TicksFromZero | src/components/data-collection/FileImport.tsx:192-200 | after n steps from 0 the bar shows 10·n, or 100 from the tenth step on |
| FileImport.RandomCount | src/components/data-collection/FileImport.tsx:216-217 | a random count lies between 50 and 149 |
| FileImport.Upload | src/components/data-collection/FileImport.tsx:185-229 | without a selection nothing happens; otherwise one successful item with no failures goes in front of the unchanged history, carrying the selected file's name, the file type, the date, the formatted size and the two drawn counts; the bar shows 100, the selection is cleared and the file type is kept |
| FileImport.SampleHistoryBalanced | src/components/data-collection/FileImport.tsx:62-96 | in every seeded history item, imported plus failed records make up the records read |
| FileImport.UploadCanUnbalance | src/components/data-collection/FileImport.tsx:216-218 | a new item can report 50 records read and 149 imported with no failure |
| FileImport.UploadBalanced | src/components/data-collection/FileImport.tsx:185-229 | the corrected upload: the same item, with one draw giving both the records read and the records imported |
| FileImport.UploadBalancedKeepsHistoryBalanced | src/components/data-collection/FileImport.tsx:208-221 | with the corrected upload, a history of balanced items stays balanced |
| IntegrationLogs.FilteredLogs | src/components/data-collection/IntegrationLogs.tsx:165-175 | a log is listed exactly when it is in the list and matches the search, the status and the source, and the listing keeps list order, each kept exactly as often as it occurs |
| IntegrationLogs.EmptyQueryShowsAll | src/components/data-collection/IntegrationLogs.tsx:165-175 | an empty search with both filters on all lists every log in order |
| IntegrationLogs.NoDetailsSearch | src/components/data-collection/IntegrationLogs.tsx:166-170 | a log without details is found by a non-empty term exactly through its endpoint or message |
| IntegrationLogs.ClearShowsNothing | src/components/data-collection/IntegrationLogs.tsx:177-187 | after clearing the list is empty and no query lists anything |
| IntegrationLogs.RefreshIgnoresList | src/components/data-collection/IntegrationLogs.tsx:177-187 | reloading gives the seven samples whatever the list held, cleared or not |
| IntegrationLogs.RefreshShowsSamples | src/components/data-collection/IntegrationLogs.tsx:177-187 | after reloading, the empty query lists exactly the samples in order |
| IntegrationLogs.ResponseClass | src/components/data-collection/IntegrationLogs.tsx:300-304 | red exactly above 1000 ms, amber exactly in (500, 1000], grey exactly up to 500 ms |
| IntegrationLogs.ResponseClassMonotone | src/components/data-collection/IntegrationLogs.tsx:300-304 | a slower response never gets a faster colour |
| AlertThresholds.FilteredRules | src/components/alerts/AlertThresholds.tsx:178-189 | a rule is listed exactly when it is in the list and matches the search, the category and the level, in list order, each kept exactly as often as it occurs |
| AlertThresholds.EmptySearchShowsAll | src/components/alerts/AlertThresholds.tsx:179-183 | an empty search with both filters on all lists every rule in order, since every location contains the empty string |
| AlertThresholds.SetActive | src/components/alerts/AlertThresholds.tsx:191-194 | the rules with the id take the switch's value and every other rule is unchanged |
| AlertThresholds.SetActiveIdempotent | src/components/alerts/AlertThresholds.tsx:191-194 | setting a switch to the value it already shows changes nothing more |
| AlertThresholds.DeleteRule | src/components/alerts/AlertThresholds.tsx:219-220 | exactly the rules with another id remain, in order, each kept exactly as often as it occurs |
| AlertThresholds.DraftValue | src/components/alerts/AlertThresholds.tsx:453 | the value box holds the parsed number, or 0 when the text is no number |
| AlertThresholds.RuleFromDraft | src/components/alerts/AlertThresholds.tsx:246-260 | an added rule carries the draft's fields and the given id; an absent switch means active, absent flags mean SMS off and e-mail and system on |
| AlertThresholds.Merge | src/components/alerts/AlertThresholds.tsx:237-239 | the edited rule keeps its id and takes the draft's fields, keeping its own switch and flags only where the draft has none |
| AlertThresholds.StartEdit | src/components/alerts/AlertThresholds.tsx:202-217 | the dialog opens on the rule's own fields, complete exactly when the rule's location, metric and unit are non-empty |
| AlertThresholds.SaveRule | src/components/alerts/AlertThresholds.tsx:227-280 | an incomplete draft changes nothing; an edit merges the draft into exactly the rules with the edited id, in place; an add appends one rule with the count-based id; the dialog then closes and the draft is reset |
| AlertThresholds.EditRoundTrip | src/components/alerts/AlertThresholds.tsx:202-239 | opening a rule and saving it untouched leaves the list as it was |
| AlertThresholds.MockRulesNumbered | src/components/alerts/AlertThresholds.tsx:52-155 | the seeded rules are numbered TH-001 to TH-008 in list order |
| AlertThresholds.AddKeepsNumbering | src/components/alerts/AlertThresholds.tsx:246 | while the ids are numbered, an added rule's id is new and the numbering goes on |
| AlertThresholds.DeleteFirstOnly | src/components/alerts/AlertThresholds.tsx:219-220 | deleting an id only the first rule carries removes just that rule |
| AlertThresholds.DeleteFirstThenAdd | src/components/alerts/AlertThresholds.tsx:219-260 | after deleting the first of n rules, the added rule is TH-n, appended to the survivors |
| AlertThresholds.DeleteThenAddRepeatsId | src/components/alerts/AlertThresholds.tsx:246 | deleting TH-001 from the seed and adding a rule yields two rules with id TH-008 |
| AlertThresholds.NumberedFirstIdUnique | src/components/alerts/AlertThresholds.tsx:246 | in a list numbered by position no rule after the first carries the first rule's id |
| AlertThresholds.NumberedDeleteFirstThenAdd | src/components/alerts/AlertThresholds.tsx:219-260 | in any numbered list of eight rules, deleting TH-001 and adding a rule leaves two rules with id TH-008 |
| AlertsList.FilteredAlerts | src/components/alerts/AlertsList.tsx:165-177 | an alert is listed exactly when it is in the list and matches the search, status, level and type, in list order, each kept exactly as often as it occurs |
| AlertsList.FiltersCompose | src/components/alerts/AlertsList.tsx:165-177 | picking a status narrows the all-status listing to that status's alerts, in the same order |
| AlertsList.SetStatus | src/components/alerts/AlertsList.tsx:179-182 | the alerts with the id take the new status and every other alert is unchanged |
| AlertsList.DialogStatusChange | src/components/alerts/AlertsList.tsx:487-495 | a locked dialog changes nothing; otherwise the opened alert's id gets the picked status |
| AlertsList.CreateTask | src/components/alerts/AlertsList.tsx:190-210 | with an alert open and a non-blank description the alert moves to in progress and the task dialog closes; otherwise nothing changes |
| AlertsList.DialogCreateTask | src/components/alerts/AlertsList.tsx:509-511 | the task button does nothing in a locked dialog and creates the task otherwise |
| AlertsList.LockedDialogChangesNothing | src/components/alerts/AlertsList.tsx:487-511 | a dialog opened on a resolved or dismissed alert stays unchanged under any sequence of clicks |
| AlertsList.DialogTouchesOnlySelected | src/components/alerts/AlertsList.tsx:179-210 | no sequence of dialog clicks changes any alert whose id differs from the opened one |
| TasksList.FilteredTasks | src/components/alerts/TasksList.tsx:146-157 | a task is listed exactly when it is in the list and the search term occurs case-insensitively in its title, location, assignee or id and it passes the status and priority filters, in list order, each kept exactly as often as it occurs |
| TasksList.SaveTask | src/components/alerts/TasksList.tsx:159-196 | a draft missing title, location, assignee or due date changes nothing; otherwise one task carrying the draft's fields, the id `TASK-` plus the zero-padded list length plus one and today's date is appended after the unchanged list, the dialog closes and the draft is reset |
| TasksList.MockTasksNumbered | src/components/alerts/TasksList.tsx:47-125 | the six sample tasks are numbered TASK-001 to TASK-006 in list order |
| TasksList.SaveKeepsNumbering | src/components/alerts/TasksList.tsx:169-178 | appending with the count-based id keeps a numbered list numbered, and the new id differs from every existing one |
| TasksList.NumberedIdsDistinct | src/components/alerts/TasksList.tsx:169 | ids given by position are pairwise distinct |
| TasksList.SavesKeepIdsDistinct | src/components/alerts/TasksList.tsx:159-196 | any sequence of saves from a numbered list keeps every task id distinct, since the screen never deletes a task |
| TasksTracking.TaskTitle | src/components/alerts/TasksTracking.tsx:237-240 | the title of the first reference carrying the id, or the id itself when no reference carries it |
| TasksTracking.TaskRefsMatchTasks | src/components/alerts/TasksTracking.tsx:123-130 | the reference list agrees id for id and title for title with the task list's sample tasks, so every sample task's id is shown with its own title |
| TasksTracking.TitleOfUniqueId | src/components/alerts/TasksTracking.tsx:237-240 | a reference whose id no other reference shares is found by that id |
| TasksTracking.FilteredFeedbacks | src/components/alerts/TasksTracking.tsx:148-158 | a feedback entry is listed exactly when it is in the list, the search term occurs case-insensitively in its content, author or task id, and it passes the task and status filters, in list order, each kept exactly as often as it occurs |
| TasksTracking.AddToGroups | src/components/alerts/TasksTracking.tsx:161-168 | one step of the grouping fold: the keys stay in place, a new task id opens a one-entry group at the end, and the total number of grouped entries grows by one |
| TasksTracking.AddToGroupsItems | src/components/alerts/TasksTracking.tsx:163-166 | with distinct keys, the step appends the feedback to the group of its own task and to no other |
| TasksTracking.GroupKeys | src/components/alerts/TasksTracking.tsx:161-168 | the group keys are distinct, are exactly the task ids that occur in the list, and come in the order in which each task id first occurs, the insertion order `Object.keys` lists |
| TasksTracking.GroupItemsAt | src/components/alerts/TasksTracking.tsx:161-168 | each group holds exactly the entries of its task, in list order |
| TasksTracking.GroupSizes | src/components/alerts/TasksTracking.tsx:161-168 | the group sizes add up to the number of entries grouped |
| TasksTracking.GroupByTaskCorrect | src/components/alerts/TasksTracking.tsx:161-168 | the grouping is a partition of the list by task id: one non-empty group per task id present, distinct keys, groups in the order of first occurrence of their task ids, each group the in-order entries of its task, sizes summing to the list length |
| TasksTracking.OneTaskOneGroup | src/components/alerts/TasksTracking.tsx:154-168 | with one task picked in the task filter at most one group is shown |
| TasksTracking.NewestFirst | src/components/alerts/TasksTracking.tsx:414-416 | a group sorted with `b - a` on the times is a permutation of the group in which no entry is later than one before it, and entries of equal time keep their order in the group (the sort is stable) |
| TasksTracking.Latest | src/components/alerts/TasksTracking.tsx:414-417 | the header entry of a group is one of its entries, no entry of the group has a later timestamp, and among the entries of that time it is the one listed first |
| TasksTracking.ProgressColor | src/components/alerts/TasksTracking.tsx:242-247 | every progress value gets exactly one band: emerald from 100, blue from 70, amber from 30, rose below |
| TasksTracking.ProgressColorMonotone | src/components/alerts/TasksTracking.tsx:242-247 | more progress never shows a lower band |
| TasksTracking.RangeValue | src/components/alerts/TasksTracking.tsx:347-350 | the slider holds a multiple of five between 0 and 100, within two of an in-range raw value and at the nearer end for an out-of-range one |
| TasksTracking.RangeValueKeepsSteps | src/components/alerts/TasksTracking.tsx:347-350 | a value is kept as it is exactly when the slider offers it: a multiple of 5 from 0 to 100 |
| TasksTracking.SavedProgress | src/components/alerts/TasksTracking.tsx:186 | a progress field with no number is saved as 0, any number as itself |
| TasksTracking.SaveFeedback | src/components/alerts/TasksTracking.tsx:170-204 | a draft missing task, content or author changes nothing; otherwise one entry with the draft's fields, the id `FB-` plus the zero-padded list length plus one and the current time is appended after the unchanged list, the dialog closes and the draft is reset |
| TasksTracking.MockFeedbacksNumbered | src/components/alerts/TasksTracking.tsx:47-121 | the eight sample entries are numbered FB-001 to FB-008 in list order |
| TasksTracking.SaveKeepsNumbering | src/components/alerts/TasksTracking.tsx:180-188 | appending with the count-based id keeps a numbered list numbered, and the new id differs from every existing one |
| Parameters.ParseRequirement | src/pages/Parameters.tsx:84 | a requirement text is accepted exactly when it is one of the two spellings, and decodes to the requirement with that spelling |
| Parameters.ValidateForm | src/pages/Parameters.tsx:79-87 | a form is accepted exactly when category, name and unit are non-empty and the requirement is one of the two spellings; the accepted values carry the form's fields unchanged |
| Parameters.EditForm | src/pages/Parameters.tsx:532-545 | the edit dialog's form passes the schema exactly when the parameter has a non-empty category, name and unit |
| Parameters.EditRoundTrip | src/pages/Parameters.tsx:532-585 | saving the edit dialog unchanged gives back the parameter, except that a missing optional field comes back empty |
| Parameters.CategorySubcategories | src/pages/Parameters.tsx:447-452 | the subcategory choices of a category are exactly the non-empty subcategories of its parameters, each listed once, in the order of their first occurrence among the category's parameters |
| Parameters.FilteredParameters | src/pages/Parameters.tsx:481-492 | a parameter is listed exactly when it is in the list, the search is empty or occurs case-insensitively in its name or unit, and it passes the category, subcategory and requirement filters, in list order, each kept exactly as often as it occurs |
| Parameters.EmptyQueryShowsAll | src/pages/Parameters.tsx:481-492 | with an empty search and every filter on all, the whole list is shown in order |
| Parameters.SortedParameters | src/pages/Parameters.tsx:494-508 | the sorted list is a permutation of the filtered one, and without a sort it is the filtered list itself |
| Parameters.SortedParametersOrdered | src/pages/Parameters.tsx:494-508 | with a sort the list is ordered by the column's comparator and parameters with equal column text keep their relative order |
| Parameters.SortedByColumnText | src/pages/Parameters.tsx:497-505 | ascending, no later parameter's column text is below an earlier one's; descending, none is above |
| Parameters.MaxId | src/pages/Parameters.tsx:559 | the largest id of a non-empty list: no id exceeds it and some parameter carries it |
| Parameters.NewParameterId | src/pages/Parameters.tsx:559 | a new id is above every existing id, and 1 for an empty list |
| Parameters.AddParameter | src/pages/Parameters.tsx:557-572 | adding appends one parameter with the form's values and a fresh id after the unchanged list |
| Parameters.EditParameter | src/pages/Parameters.tsx:574-586 | every parameter with the edited id takes the form's values and keeps its id, every other parameter is unchanged |
| Parameters.DeleteParameter | src/pages/Parameters.tsx:547-548 | exactly the parameters with another id are kept, in their order, each kept exactly as often as it occurs |
| Parameters.DeleteKeepsIdsDistinct | src/pages/Parameters.tsx:547-548 | deleting keeps distinct ids distinct |
| Parameters.AddKeepsIdsDistinct | src/pages/Parameters.tsx:559-568 | adding keeps distinct ids distinct |
| Parameters.DeleteThenAddKeepsIdsDistinct | src/pages/Parameters.tsx:547-568 | unlike count-based ids, the max-plus-one id stays distinct from every id left after a deletion |
| Parameters.Submit | src/pages/Parameters.tsx:555-593 | a form the schema refuses changes nothing; an accepted one is added in add mode, applied to the edited parameter in edit mode, and the dialog closes |
| Buildings.FilteredBuildings | src/pages/Buildings.tsx:171-180 | a building is shown exactly when it is in the list, the search is empty or occurs case-insensitively in its name, code or location, and it has the selected card's type when one is selected, in list order, each kept exactly as often as it occurs |
| Buildings.NoFilterShowsAll | src/pages/Buildings.tsx:171-180 | with no search and no card selected every building is shown, in order |
| Buildings.ClickTypeCard | src/pages/Buildings.tsx:274 | a click clears the selection exactly when that card was selected and selects the card otherwise |
| Buildings.ClickTypeCardTwice | src/pages/Buildings.tsx:274 | a second click on the same card returns to no selection, a click on another card moves the selection to it |
| Buildings.StatusHueMatchesText | src/pages/Buildings.tsx:182-206 | two statuses share a badge colour exactly when they share a label, and exactly when they are the same status |
| Buildings.StatusOfText | src/pages/Buildings.tsx:195-206 | a label reads back as a status exactly when it is that status's label |
| Buildings.StatusTextRoundTrip | src/pages/Buildings.tsx:195-206 | reading back a status's label gives the status |
| Buildings.ViewDetails | src/pages/Buildings.tsx:208-211 | the building is selected and its dialog opened, and the shown list, the draft and the add dialog are untouched |
| Buildings.SaveNewBuilding | src/pages/Buildings.tsx:550-553 | the save button closes the add dialog and changes no other part of the page |
| Buildings.SaveAddsNothing | src/pages/Buildings.tsx:550-553 | saving leaves the shown buildings as they were, never more than the fixed sample list |
| OrgTree.Kids | src/components/organization/OrganizationTree.tsx:43 | a node's child list is non-empty exactly when the node has children in the sense of `hasChildren`, an absent list counting as none |
| OrgTree.TypeIcon | src/components/organization/OrganizationTree.tsx:18-27 | buildings get the building icon and organisations the people icon, exactly; every region level gets the pin |
| OrgTree.Rows | src/components/organization/OrganizationTree.tsx:36-87 | a node renders its own row first at its depth, then only deeper rows, and those only when it is expanded and has children; never more rows than the tree has nodes |
| OrgTree.ChildRows | src/components/organization/OrganizationTree.tsx:72-83 | the children's rows are all deeper than the parent, at least one per child and no more than the children's subtrees hold |
| OrgTree.InitialRows | src/components/organization/OrganizationTree.tsx:42 | initially the root row is followed by exactly one level-one row per child, in order, since only the root starts expanded |
| OrgTree.CollapsedChildRows | src/components/organization/OrganizationTree.tsx:42-83 | children none of whose subtrees has been flipped show their own rows only, in order, one level below the parent |
| OrgTree.CollapsedShowsOneRow | src/components/organization/OrganizationTree.tsx:72 | a collapsed node or one without children shows its own row only |
| OrgTree.ClickChevron | src/components/organization/OrganizationTree.tsx:42-83 | a chevron click flips that node's expansion and selects nothing; every node below it is back in its initial, collapsed state, since the subtree is unmounted on collapse and mounted afresh on expansion; every other node keeps its expansion |
| OrgTree.ClickChevronTwice | src/components/organization/OrganizationTree.tsx:42-83 | two clicks on one chevron drop exactly the flips below the node, so they restore the tree exactly when no node below it had been flipped |
| OrgTree.ReopenShowsChildrenCollapsed | src/components/organization/OrganizationTree.tsx:42-83 | collapsing an expanded node and opening it again shows each child as a single row one level down, however deep the subtree was open before |
| OrgTree.ClickRow | src/pages/Organization.tsx:89-92 | a row click selects the node's id, or no id when that id is empty (the page passes `selectedNode?.id \|\| null`), and changes no expansion |
| OrgTree.ClickRowHighlightsOnlyIt | src/components/organization/OrganizationTree.tsx:50-52 | after a row click exactly the rows with that node's id are highlighted, and none when the id is empty |
| OrgSummary.TypeOfText | src/pages/Organization.tsx:50-59 | a label reads back as a node type exactly when it is that type's label |
| OrgSummary.TypeTextRoundTrip | src/pages/Organization.tsx:50-59 | reading back a type's label gives the type |
| OrgSummary.ChildCount | src/pages/Organization.tsx:160 | the count is the number of children, 0 exactly when the node has none |
| OrgSummary.GrandchildCount | src/pages/Organization.tsx:167 | the summed child counts of a list of nodes are 0 exactly when none of them has children |
| OrgSummary.CityCount | src/pages/Organization.tsx:158-161 | the city row shows a province's child count and 0 for every other level |
| OrgSummary.CountyCountAsWritten | src/pages/Organization.tsx:162-170 | as written, the county cell is blank exactly for a province without a children list; otherwise a province shows its grandchildren and a city its children |
| OrgSummary.CountyCountBlankForBareProvince | src/pages/Organization.tsx:166-167 | a province without a children list gets a blank county cell |
| OrgSummary.CountyCount | src/pages/Organization.tsx:162-170 | corrected, the county row shows a province's grandchildren, a city's children, 0 otherwise, and agrees with the cell as written wherever that one is not blank |
| OrgSummary.DirectUnitCount | src/pages/Organization.tsx:172-180 | the direct-unit row shows a county's child count and 0 for every other level |
| OrgSummary.BuildingCount | src/pages/Organization.tsx:182-190 | the building row shows an organisation's child count and 0 for every other level |
| OrgSummary.NoChildrenAllZero | src/pages/Organization.tsx:158-190 | a node without children shows 0 in every row, the county row included once corrected |
| OrgSummary.AtMostOneLevelRow | src/pages/Organization.tsx:158-190 | at most one of the city, direct-unit and building rows is non-zero |
| OrgSummary.SaveNewOrganization | src/pages/Organization.tsx:335-338 | the save button closes the add dialog and leaves the tree, the selection and the draft as they were |
| CarbonSinkHistory.UniqueYears | src/components/carbon-sink/CarbonSinkHistory.tsx:175 | the year choices are exactly the years of the records, each once, newest first |
| CarbonSinkHistory.YearsOfItems | src/components/carbon-sink/CarbonSinkHistory.tsx:175 | the mapped years are exactly the years some record carries |
| CarbonSinkHistory.SortedDescendingDistinct | src/components/carbon-sink/CarbonSinkHistory.tsx:175 | sorting distinct years with `b.localeCompare(a)` puts every year strictly before the smaller ones |
| CarbonSinkHistory.UniqueRegions | src/components/carbon-sink/CarbonSinkHistory.tsx:176 | the region choices are exactly the regions of the records, each once, in the order of first appearance |
| CarbonSinkHistory.Stage | src/components/carbon-sink/CarbonSinkHistory.tsx:191-211 | a stage keeps a subsequence of its input, and all of it when its control is not set |
| CarbonSinkHistory.StageIsFilter | src/components/carbon-sink/CarbonSinkHistory.tsx:191-211 | a stage that is off equals filtering by its test when that test admits everything |
| CarbonSinkHistory.PipelineIsOneFilter | src/components/carbon-sink/CarbonSinkHistory.tsx:188-211 | the search, year, region and type stages together keep exactly the records that pass all four tests, in their original order |
| CarbonSinkHistory.HistoryView | src/components/carbon-sink/CarbonSinkHistory.tsx:213-227 | the table is a permutation of the surviving records, and those records unchanged when no sort is set |
| CarbonSinkHistory.HistoryViewSorted | src/components/carbon-sink/CarbonSinkHistory.tsx:213-224 | with a sort set, the column's values never decrease down the table when ascending and never increase when descending |
| CarbonSinkHistory.HistoryViewStable | src/components/carbon-sink/CarbonSinkHistory.tsx:213-224 | records with equal values in the sorted column keep their relative order |
| CarbonSinkHistory.FooterCount | src/components/carbon-sink/CarbonSinkHistory.tsx:406 | the footer counts exactly the visible records, whatever the sort |
| CarbonSinkHistory.ClickHeader | src/components/carbon-sink/CarbonSinkHistory.tsx:229-235 | a header click sorts by that column, descending exactly when it was already sorted ascending, and leaves the filters and the dialog alone |
| CarbonSinkHistory.ViewDetails | src/components/carbon-sink/CarbonSinkHistory.tsx:237-240 | the record is selected and its dialog opened, and the filters and the sort stay as they were |
| CarbonSinkUpload.HandleFile | src/components/carbon-sink/CarbonSinkFileUpload.tsx:74-91 | a file whose lower-cased last extension is xlsx or xls becomes the selection; any other file leaves the card exactly as it was |
| CarbonSinkUpload.CsvRefusedHere | src/components/carbon-sink/CarbonSinkFileUpload.tsx:76-77 | a CSV file the data-import screen accepts is refused by this card |
| CarbonSinkUpload.UpperCaseExcelAccepted | src/components/carbon-sink/CarbonSinkFileUpload.tsx:76-78 | an upper-case XLSX extension is accepted, since the extension is lower-cased first |
| CarbonSinkUpload.OnDrag | src/components/carbon-sink/CarbonSinkFileUpload.tsx:46-65 | entering or hovering highlights the drop zone, leaving or dropping clears it, and a drop hands its first file, if any, to the Excel gate |
| CarbonSinkUpload.TicksFromZero | src/components/carbon-sink/CarbonSinkFileUpload.tsx:108-117 | from 0 the bar moves in steps of five, reaches 100 after twenty ticks and never passes it |
| CarbonSinkUpload.TicksFrom | src/components/carbon-sink/CarbonSinkFileUpload.tsx:108-117 | from any multiple of five up to 100, n ticks add five per tick until the bar is held at 100 |
| CarbonSinkUpload.StartUpload | src/components/carbon-sink/CarbonSinkFileUpload.tsx:101-105 | without a selection nothing happens; with one the upload starts at progress 0 and keeps the selection |
| CarbonSinkUpload.CompleteUpload | src/components/carbon-sink/CarbonSinkFileUpload.tsx:119-130 | on completion the bar shows 100, the upload ends and the selection is cleared |
| CarbonSinkUpload.Upload | src/components/carbon-sink/CarbonSinkFileUpload.tsx:101-130 | without a selection nothing happens; otherwise the upload ends at 100 with the selection cleared |
| CarbonSinkUpload.UploadTwiceIsUploadOnce | src/components/carbon-sink/CarbonSinkFileUpload.tsx:101-102 | a second press after a completed upload does nothing, because the selection is gone |
| Comparison.Zip | src/components/visualization/ComparisonAnalysis.tsx:35-98 | the i-th month of a pair series carries the i-th month name, current value and previous value |
| Comparison.ZipBench | src/components/visualization/ComparisonAnalysis.tsx:99-128 | the i-th month of a benchmark series carries the i-th month name and value and the region's fixed benchmark |
| Comparison.Lookup | src/components/visualization/ComparisonAnalysis.tsx:134-138 | a region with an entry reads its own series, any other region the series of 惠安城区 |
| Comparison.GetData | src/components/visualization/ComparisonAnalysis.tsx:131-142 | year-on-year, month-on-month and benchmark read their own tables with the fallback region; any other type reads the year-on-year series of 惠安城区; only benchmark gives benchmark points |
| Comparison.TownsWithoutSeriesShowDefault | src/components/visualization/ComparisonAnalysis.tsx:285-288 | 崇武镇 and 黄塘镇 are offered but have no series, so they show the figures of 惠安城区 for every comparison type |
| Comparison.EverySeriesHasTwelveMonths | src/components/visualization/ComparisonAnalysis.tsx:35-142 | every type and region gives a twelve-month series |
| Comparison.Percentage | src/components/visualization/ComparisonAnalysis.tsx:231 | the percentage is defined exactly when the reference is non-zero; with a positive reference it is above zero exactly when the total exceeds it, and zero exactly when they are equal |
| Comparison.GrowthSummary | src/components/visualization/ComparisonAnalysis.tsx:224-250 | benchmark comparison sums actual values and benchmarks, every other type current and previous values, with the difference as a percentage of the second total |
| Comparison.PairSumsDominate | src/components/visualization/ComparisonAnalysis.tsx:240-241 | when every month is above its previous value the current total is above the previous total |
| Comparison.PreviousSumPositive | src/components/visualization/ComparisonAnalysis.tsx:241 | the previous total of a non-empty series of positive values is positive |
| Comparison.BenchSumsDominate | src/components/visualization/ComparisonAnalysis.tsx:229-230 | when every month is above a positive benchmark the actual total is above the benchmark total, which is positive |
| Comparison.YoySeriesRise | src/components/visualization/ComparisonAnalysis.tsx:35-66 | every month of every year-on-year series lies above last year's positive value |
| Comparison.BenchmarkSeriesAbove | src/components/visualization/ComparisonAnalysis.tsx:99-128 | every month of every benchmark series lies above its positive benchmark |
| Comparison.SampleShowsRise | src/components/visualization/ComparisonAnalysis.tsx:224-250 | for every region the year-on-year and benchmark summaries show a rise |
| RegionalRanking.GetData | src/components/visualization/RegionalRanking.tsx:52-63 | building and energy select their own datasets, every other filter the region dataset |
| RegionalRanking.SortDescending | src/components/visualization/RegionalRanking.tsx:65 | sorting any dataset with `b.value - a.value` gives a permutation of it, largest value first |
| RegionalRanking.Ranked | src/components/visualization/RegionalRanking.tsx:52-65 | the bars are a permutation of the selected dataset, largest value first |
| RegionalRanking.DatasetsDescending | src/components/visualization/RegionalRanking.tsx:19-48 | each of the three datasets is already listed largest first |
| RegionalRanking.SortKeepsDescending | src/components/visualization/RegionalRanking.tsx:65 | a dataset already listed largest first is left as it is by the stable sort |
| RegionalRanking.RankingKeepsDatasetOrder | src/components/visualization/RegionalRanking.tsx:65 | the in-place sort, repeated on every render, leaves every dataset in its listed order |
| RegionalRanking.Title | src/components/visualization/RegionalRanking.tsx:67-78 | building and energy have their own titles, every other filter the region title |
| RegionalRanking.TitleMatchesData | src/components/visualization/RegionalRanking.tsx:52-78 | the title is the region title exactly when the region dataset is shown |
| RegionalRanking.Caption | src/components/visualization/RegionalRanking.tsx:125 | the region filter shows the click hint, every other filter the ranking's title in the caption |
| RegionalRanking.HandleClick | src/components/visualization/RegionalRanking.tsx:80-84 | the callback receives the clicked bar's name exactly when the filter is `region` |
| RegionalRanking.UnknownFilterShowsRegionsWithoutClick | src/components/visualization/RegionalRanking.tsx:52-84 | an unknown filter shows the region bars but a click on them does nothing |
| ChartGenerator.ActiveData | src/components/visualization/ChartGenerator.tsx:93-106 | building, energy and time select their own datasets, every other source the region dataset |
| ChartGenerator.ActiveDataNonEmpty | src/components/visualization/ChartGenerator.tsx:48-106 | every source gives between five and twelve points, so a first point and a first colour always exist |
| ChartGenerator.Palette | src/components/visualization/ChartGenerator.tsx:109-122 | every scheme has five distinct colours, and every scheme other than blue, purple and orange the green ones |
| ChartGenerator.PalettesDiffer | src/components/visualization/ChartGenerator.tsx:109-122 | a scheme is drawn in green exactly when it is not blue, purple or orange |
| ChartGenerator.SeriesColor | src/components/visualization/ChartGenerator.tsx:145 | the line, bar and area charts draw in a colour of the palette, the first green one exactly when the scheme is not blue, purple or orange |
| ChartGenerator.PieColors | src/components/visualization/ChartGenerator.tsx:216-217 | slice i takes palette colour i modulo the palette's length, always a palette colour |
| ChartGenerator.PieColorsRepeat | src/components/visualization/ChartGenerator.tsx:216-217 | slices i and i plus the palette's length share a colour |
| ChartGenerator.PieColorsDistinct | src/components/visualization/ChartGenerator.tsx:216-217 | with no more slices than colours and a palette without repeats, every slice has its own colour |
| ChartGenerator.RegionPieReusesFirstColor | src/components/visualization/ChartGenerator.tsx:64-72 | the region pie has six slices and five colours, so its last slice repeats the first slice's colour |
| Common.RequestSort | src/components/carbon-sink/CarbonSinkHistory.tsx:229-235 | a request for the column currently sorted ascending turns it descending; every other request sorts that column ascending |
| Common.RequestSortCycle | src/components/carbon-sink/CarbonSinkHistory.tsx:229-235 | three requests for the same column from no sort give ascending, descending, ascending |
| Text.TrimEmptyIffBlank | src/components/data-collection/ApiIntegration.tsx:156 | trimming leaves nothing exactly when every character is white space |
| Text.ToLowerIdempotent | src/components/data-collection/ApiIntegration.tsx:172 | lower-casing twice is lower-casing once, and it keeps white space where it was |
| Text.ContainsIffOccurs | src/components/alerts/TasksList.tsx:147-151 | `includes` holds exactly when the term occurs at some position of the text |
| Text.ContainsEmpty | src/components/carbon-sink/CarbonSinkHistory.tsx:191-195 | every text contains the empty term |
| Text.ReplaceWhitespaceRuns | src/components/data-collection/ApiIntegration.tsx:172 | replacing the white-space runs leaves no white space, is no longer than the input, keeps a text without white space as it is and a non-empty text non-empty |
| Text.ReplaceWhitespaceRunsScans | src/components/data-collection/ApiIntegration.tsx:172 | the replacement equals a left-to-right scan of the text: each maximal white-space run becomes one separator and every other character is copied in order, so "a  b" gives "a_b", not "a__b" |
| Text.LastSegment | src/components/carbon-sink/CarbonSinkFileUpload.tsx:76 | the extension is a suffix of the name without any '.', and when it is shorter than the name a '.' precedes it |
| Text.LastSegmentOfDotted | src/components/carbon-sink/CarbonSinkFileUpload.tsx:76 | the extension of a name ending in '.' and a dot-free text is that text |
| Text.NatToString | src/components/alerts/TasksList.tsx:169 | `String(n)` is a non-empty string of decimal digits, without a leading zero from 10 on, one character exactly below 10 |
| Text.ParseNatToString | src/components/alerts/TasksList.tsx:169 | the digits of `String(n)` read back as n |
| Text.PadStart | src/components/alerts/TasksList.tsx:169 | padding keeps the text as its suffix, preceded only by the pad character, up to the width when it is shorter |
| Text.SeqIdDigits | src/components/alerts/TasksList.tsx:169 | the number part of an identifier has at least three digits and reads back as the counter |
| Text.SeqIdInjective | src/components/alerts/TasksList.tsx:169 | different counters give different identifiers under one prefix |
| Text.SeqIdsDistinct | src/components/alerts/TasksList.tsx:169 | identifiers numbered 1, 2, ... in list order are pairwise distinct |
| Text.SeqIdFresh | src/components/alerts/TasksList.tsx:169 | when a list is numbered 1, 2, ..., the count-based identifier of the next element is not yet taken |
| Text.StrLessIrreflexive | src/components/carbon-sink/CarbonSinkHistory.tsx:175 | no string comes before itself |
| Text.StrLessTransitive | src/components/carbon-sink/CarbonSinkHistory.tsx:175 | the string order is transitive |
| Text.StrLessTotal | src/components/carbon-sink/CarbonSinkHistory.tsx:175 | of two different strings one comes before the other |
| Seqs.Dedup | src/components/carbon-sink/CarbonSinkHistory.tsx:176 | `Array.from(new Set(s))` holds exactly the values of s, each once, in the order of first appearance |
| Seqs.FilterFilter | src/components/carbon-sink/CarbonSinkHistory.tsx:191-211 | filtering by one test and then another equals filtering once by both |
| Sorting.SortBySorted | src/pages/Parameters.tsx:494-508 | the sort of a consistent comparator yields a permutation of its input in which no element is before an earlier one |
| Sorting.SortByStable | src/pages/Parameters.tsx:494-508 | elements the comparator calls equal keep their relative order |
| Sorting.SortBySortedIsIdentity | src/components/visualization/RegionalRanking.tsx:65 | sorting an already sorted list leaves it as it is |
| Sorting.SortByHeadIsExtreme | src/components/alerts/TasksTracking.tsx:414-417 | the first element after sorting is an element of the input before which no input element comes |
| Sorting.ColumnIsStrictWeakOrder | src/components/carbon-sink/CarbonSinkHistory.tsx:215-223 | the `<`/`>` comparator of a numeric column, in either direction, is consistent |
| Sorting.TextColumnIsStrictWeakOrder | src/pages/Parameters.tsx:497-504 | the `<`/`>` comparator of a text column, in either direction, is consistent |

## Left out

- Rendering, layout, charts, icons, toasts, clipboard writes and `document.getElementById`: these are presentation with no state to reason about.
- Timers: `setTimeout`/`setInterval` in FileImport, CarbonSinkFileUpload, AlertsList and ManualDataForm are collapsed into atomic steps. The interval callbacks are modelled only as the tick functions. The race between the interval and the completion timeout is not modelled, and neither is the stale state the delayed callback of AlertsList.tsx:196-209 reads.
- ManualDataForm's submit handler (ManualDataForm.tsx:195-214) only logs and shows a toast after a delay. The model stops at ManualEntry.Validate, the schema check that guards it.
- Randomness and time: `Math.random`, `Date.now()` and `new Date()` are parameters. For example, the 16 key draws and the random record counts are inputs.
- Floating point: `formatFileSize` and the pie percentage labels are left out; file sizes are the formatted text. Numbers that are real in the source are `real` here: the latitude and longitude of a building, the area, growth rate and carbon sink of a carbon-sink record, and the value of an alert threshold and of its draft, so a fractional threshold typed into the value box is kept as the rational `parseFloat` reads; the parse itself is a parameter. Counts, ids and emission values are integers. The growth percentage is a rational. No rounding (`toFixed`) is modelled.
- Comparison.Percentage: `toFixed(1)` rounding is not modelled. A rise is judged on the unrounded value, and a zero denominator gives `None` instead of `Infinity`/`NaN`.
- The sign of the month-on-month summary is not proved: its sample series do not rise every month, so only the year-on-year and benchmark summaries get a lemma.
- The backend described only in help text: the ingestion endpoints, batch limits, heartbeat and rate limit. No code implements them. The heartbeat settings form (ApiIntegration.tsx:223) only shows a toast.
- Threshold rules are never evaluated against readings in the source, so no evaluation is modelled.
- Text.ToLower: folds ASCII `A`–`Z` only. This is exact for the Latin letters and CJK text the screens hold, but not for the whole Unicode case mapping of `toLowerCase`.
- String order is code-point order (`Text.StrLess`). JavaScript `<` compares UTF-16 code units, which gives the same order for every character outside the surrogate range, and so for all the text the tables sort. The year options are sorted with `localeCompare`, which agrees with code-point order on four-digit years. Neither is modelled for strings in general.
- The groups are listed in `Object.keys` order, modelled as insertion order. That is what JavaScript gives for keys that are not array indices, and every task id (`TASK-…`) is such a key.
- Organization.tsx imports two names that src/components/organization/OrganizationTree.tsx does not export. The first is `organizationData`, the fixed tree, so the tree functions are modelled over any tree. The second is the wrapper component `OrganizationTree`, which the page renders with `onSelectNode` and `selectedNodeId`. The model assumes this wrapper renders the root through `OrganizationTreeNode` at level 0 and passes both props on unchanged. OrgTree.Rows, OrgTree.InitialRows, OrgTree.ClickRow and OrgTree.ClickRowHighlightsOnlyIt rest on that assumption. The organisation search box filters nothing, so it is not modelled.
- `getCategorySubcategories` reads the static sample parameters, not the current list. Parameters.CategorySubcategories takes the list as a parameter and is applied to the sample list.
- FileImport's drag and drop handlers (FileImport.tsx:129-155) follow the same pattern as CarbonSinkUpload.OnDrag, which models it. They are not modelled separately.
- The Buildings type cards show static count labels, which are not modelled.
- RegionalRanking sorts a shared module-level array in place. The model is pure; RankingKeepsDatasetOrder shows the in-place sort changes nothing.
- Timestamps that do not parse (`NaN`) are not modelled: a feedback timestamp is an integer.

## Findings

| source | as written | input that shows it | evidently intended | confidence | as-written member | corrected member |
|---|---|---|---|---|---|---|
| src/components/data-collection/FileImport.tsx:216-217 | `recordCount` and `successCount` are drawn independently from 50–149, and `failedCount` is 0 | draws 50 and 149: 50 records read, 149 imported, 0 failed | a successful import reports as many records imported as read, like every seeded history item | not executed | FileImport.UploadCanUnbalance | FileImport.UploadBalancedKeepsHistoryBalanced |
| src/pages/Organization.tsx:166-167 | the province county count reduces over `selectedNode.children` with no `|| 0` fallback, unlike every other cell | a province whose `children` is absent: the cell renders blank | 0, as every other count shows for a node without children | not executed | OrgSummary.CountyCountBlankForBareProvince | OrgSummary.NoChildrenAllZero |
