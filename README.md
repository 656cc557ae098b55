# Code-action annotator and insert-annotation quick fix — a verified model

This project models two pieces of the Liberty Tools IntelliJ plugin's language-server client.

**The code-action annotator** (`LSPCodeActionAnnotator`) works on one file in three passes:

- **Collection.** Every language-server connection attached to the file contributes one item per diagnostic marker that the editor holds for that connection's server. A marker with a non-empty span binds to that span and its text. An empty marker binds to the element at its offset.
- **Request building.** Each item of a connection whose capabilities support code actions gives rise to one `textDocument/codeAction` request. The request names that item's diagnostic alone and uses its range. A callback stores each answer on its item. The pass then waits up to ten seconds for the requests.
- **Apply.** Every item becomes one annotation:
  - its severity is the diagnostic's severity mapped to an IntelliJ highlight level;
  - its message and tooltip are the diagnostic's message;
  - it carries one fix per resolved action.

**The insert-annotation quick fix** (`InsertAnnotationMissingQuickFix`) proposes inserting missing Java annotations. It produces either one code action for all the annotations or one code action per annotation. Each proposal:

- is labelled `Insert @A, @B` from the simple names;
- is bound to the nearest enclosing variable, else method, else class;
- is kept only when the context converts it into a code action.

Files:

- `lsp_types.dfy` (module `LspTypes`): the Language Server Protocol values involved.
- `sequences.dfy` (module `Sequences`): a sequence fact that the loops share.
- `code_action_annotator.dfy` (module `CodeActionAnnotator`):
  - the severity mapping;
  - the capability test;
  - the three passes, written as methods over an `Info` object, proved against specification functions (`Collected`, `Dispatched`, `Resolved`, `Annotations`);
  - each nested loop of the source is split into an outer-loop method and an inner-loop method.
- `annotator_properties.dfy` (module `AnnotatorProperties`): lemmas relating the passes, including:
  - which connections receive which requests;
  - request and annotation counts;
  - independence from the hash map's iteration order;
  - how a missing answer is isolated;
  - what annotation each marker ends up as.
- `insert_annotation_quick_fix.dfy` (module `InsertAnnotationQuickFix`):
  - the binding, the label and the emission policy;
  - the quick-fix class with its two constructors.

How the environment is modelled:

- **Language servers.** Their answers are an oracle map from (connection, item index) to the answer. A key is present when the callback that stores the answer on its item (LSPCodeActionAnnotator.java:228) has run before apply reads that item. A key is missing when the request timed out or failed, or the server never started. A key can also be missing when an answer came in time: the join (line 233) waits on the request futures added at line 227, not on the storing callbacks.
- **Iteration order.** Java's `HashMap` order is an explicit `order` parameter that must list every key exactly once.
- **Marker store.** It is a map keyed by (editor, server id).
- **Proposal conversion.** The conversion of a proposal into a code action is a function in the context.

## Model

Paths are relative to the repository root.

| member | source | states |
|---|---|---|
| CodeActionAnnotator.HighlightType | src/main/java/io/openliberty/tools/intellij/lsp4mp/lsp4ij/operations/codeactions/LSPCodeActionAnnotator.java:265-276 | Error maps to ERROR and Warning to WARNING, in both directions; Information and Hint, and only they, map to INFORMATION; no severity maps to WEAK_WARNING |
| CodeActionAnnotator.HighlightTypeMonotone | src/main/java/io/openliberty/tools/intellij/lsp4mp/lsp4ij/operations/codeactions/LSPCodeActionAnnotator.java:265-276 | a more severe diagnostic never gets a weaker highlight level |
| CodeActionAnnotator.SupportsCodeAction | src/main/java/io/openliberty/tools/intellij/lsp4mp/lsp4ij/operations/codeactions/LSPCodeActionAnnotator.java:240-245 | false for missing capabilities, a missing provider and the boolean false; true for the boolean true and for options |
| CodeActionAnnotator.SupportsCodeActionAgreesWithVariant | src/main/java/io/openliberty/tools/intellij/lsp4mp/lsp4ij/operations/codeactions/LSPCodeActionAnnotator.java:240-245 | the capability test holds exactly when the provider, read as a tagged variant, is not "unsupported" |
| CodeActionAnnotator.Info.constructor | src/main/java/io/openliberty/tools/intellij/lsp4mp/lsp4ij/operations/codeactions/LSPCodeActionAnnotator.java:185-186 | a new Info records the file and starts with an empty item map |
| CodeActionAnnotator.ChosenEditor | src/main/java/io/openliberty/tools/intellij/lsp4mp/lsp4ij/operations/codeactions/LSPCodeActionAnnotator.java:174-183 | there is no item map exactly when the file has no virtual file or no editor is given or open; otherwise the given editor is used, else the open one; this entry point never fails |
| CodeActionAnnotator.ChosenEditorForVirtualFile | src/main/java/io/openliberty/tools/intellij/lsp4mp/lsp4ij/operations/codeactions/LSPCodeActionAnnotator.java:133-144 | as written, its editor choice fails exactly when no editor is given, and otherwise always uses the given editor |
| CodeActionAnnotator.FallbackUnreachableForVirtualFile | src/main/java/io/openliberty/tools/intellij/lsp4mp/lsp4ij/operations/codeactions/LSPCodeActionAnnotator.java:133-144 | with no editor given but one open, the virtual-file entry point fails where the PSI-file entry point uses the open editor |
| CodeActionAnnotator.BindElement | src/main/java/io/openliberty/tools/intellij/lsp4mp/lsp4ij/operations/codeactions/LSPCodeActionAnnotator.java:192-197 | a marker binds to a span exactly when its width is positive; the span has the marker's offsets and exactly the document's characters over them; an empty marker binds to the element at its start offset |
| CodeActionAnnotator.ItemsOf | src/main/java/io/openliberty/tools/intellij/lsp4mp/lsp4ij/operations/codeactions/LSPCodeActionAnnotator.java:191-204 | one unresolved item per marker, in marker order, each bound as BindElement says |
| CodeActionAnnotator.DoCollectInformation | src/main/java/io/openliberty/tools/intellij/lsp4mp/lsp4ij/operations/codeactions/LSPCodeActionAnnotator.java:174-211 | returns null exactly when no editor is chosen; otherwise a fresh Info for the file whose map is the collection over the listed connections and the chosen editor's markers |
| CodeActionAnnotator.CollectConnections | src/main/java/io/openliberty/tools/intellij/lsp4mp/lsp4ij/operations/codeactions/LSPCodeActionAnnotator.java:188-206 | starting from an empty map, the map becomes the collection over the listed connections, taken in list order |
| CodeActionAnnotator.CollectMarkers | src/main/java/io/openliberty/tools/intellij/lsp4mp/lsp4ij/operations/codeactions/LSPCodeActionAnnotator.java:189-205 | the connection's list gains one unresolved item per marker of its server, in marker order; a server with no markers leaves the map unchanged |
| CodeActionAnnotator.CollectedKeys | src/main/java/io/openliberty/tools/intellij/lsp4mp/lsp4ij/operations/codeactions/LSPCodeActionAnnotator.java:188-206 | a connection has a map entry exactly when it is listed and its server has at least one marker in the editor |
| CodeActionAnnotator.CollectedItems | src/main/java/io/openliberty/tools/intellij/lsp4mp/lsp4ij/operations/codeactions/LSPCodeActionAnnotator.java:188-206 | with distinct connections, a connection's list is exactly the items of its server's markers, in marker order |
| CodeActionAnnotator.RequestParams | src/main/java/io/openliberty/tools/intellij/lsp4mp/lsp4ij/operations/codeactions/LSPCodeActionAnnotator.java:220-225 | a request's context names exactly the one diagnostic, its range is the diagnostic's range, and its document is the file's URI |
| CodeActionAnnotator.RequestCodeActions | src/main/java/io/openliberty/tools/intellij/lsp4mp/lsp4ij/operations/codeactions/LSPCodeActionAnnotator.java:219-229 | for a capable connection: one request per item, in item order; each item takes the answer stored for it and is otherwise unchanged |
| CodeActionAnnotator.ResolveConnections | src/main/java/io/openliberty/tools/intellij/lsp4mp/lsp4ij/operations/codeactions/LSPCodeActionAnnotator.java:217-231 | walking the map in the given order yields its resolution by the stored answers, and the requests of that walk |
| CodeActionAnnotator.ResolvedThroughEntries | src/main/java/io/openliberty/tools/intellij/lsp4mp/lsp4ij/operations/codeactions/LSPCodeActionAnnotator.java:217-231 | after visiting distinct connections, the keys are unchanged, each visited connection's entry is resolved and every other entry is as collected |
| CodeActionAnnotator.ResolvedThroughAll | src/main/java/io/openliberty/tools/intellij/lsp4mp/lsp4ij/operations/codeactions/LSPCodeActionAnnotator.java:217-231 | visiting every key once, in any order, gives the resolved map |
| CodeActionAnnotator.DoAnnotate | src/main/java/io/openliberty/tools/intellij/lsp4mp/lsp4ij/operations/codeactions/LSPCodeActionAnnotator.java:213-238 | the map becomes the resolution of the old map by the stored answers, and the dispatched requests are those of the walk over the old map in the given order |
| CodeActionAnnotator.AnnotationHolder.Create | src/main/java/io/openliberty/tools/intellij/lsp4mp/lsp4ij/operations/codeactions/LSPCodeActionAnnotator.java:260 | creating an annotation appends it to the holder's annotations |
| CodeActionAnnotator.BuildAnnotation | src/main/java/io/openliberty/tools/intellij/lsp4mp/lsp4ij/operations/codeactions/LSPCodeActionAnnotator.java:252-259 | the built annotation is the item's annotation: mapped severity, message as title and tooltip, the item's element, one fix per action in order |
| CodeActionAnnotator.Apply | src/main/java/io/openliberty/tools/intellij/lsp4mp/lsp4ij/operations/codeactions/LSPCodeActionAnnotator.java:247-263 | the holder gains exactly the annotations of every item of every connection, in walk order, after what it already held |
| CodeActionAnnotator.AnnotateConnections | src/main/java/io/openliberty/tools/intellij/lsp4mp/lsp4ij/operations/codeactions/LSPCodeActionAnnotator.java:250-262 | the holder gains the annotations of every walked connection's items, in walk order, after what it already held |
| CodeActionAnnotator.AnnotateItems | src/main/java/io/openliberty/tools/intellij/lsp4mp/lsp4ij/operations/codeactions/LSPCodeActionAnnotator.java:251-261 | the holder gains one annotation per item of the connection, in item order, after what it already held |
| AnnotatorProperties.DispatchedCount | src/main/java/io/openliberty/tools/intellij/lsp4mp/lsp4ij/operations/codeactions/LSPCodeActionAnnotator.java:217-231 | the number of requests is the sum, over connections that support code actions, of their item counts |
| AnnotatorProperties.AnnotationCount | src/main/java/io/openliberty/tools/intellij/lsp4mp/lsp4ij/operations/codeactions/LSPCodeActionAnnotator.java:250-262 | the number of annotations is the total item count, whether or not a connection supports code actions |
| AnnotatorProperties.DispatchedTo | src/main/java/io/openliberty/tools/intellij/lsp4mp/lsp4ij/operations/codeactions/LSPCodeActionAnnotator.java:217-231 | the requests sent to a connection are exactly the requests for its own items, in item order, and none when it is not walked |
| AnnotatorProperties.DispatchedPerConnection | src/main/java/io/openliberty/tools/intellij/lsp4mp/lsp4ij/operations/codeactions/LSPCodeActionAnnotator.java:217-231 | a capable connection receives one request per item, the j-th naming the j-th item's diagnostic; any other connection receives none |
| AnnotatorProperties.DispatchedShape | src/main/java/io/openliberty/tools/intellij/lsp4mp/lsp4ij/operations/codeactions/LSPCodeActionAnnotator.java:218-225 | every request goes to a walked, capable connection, and names exactly one diagnostic of one of its items, with that diagnostic's range and the file's URI |
| AnnotatorProperties.WalkOrderIrrelevant | src/main/java/io/openliberty/tools/intellij/lsp4mp/lsp4ij/operations/codeactions/LSPCodeActionAnnotator.java:217-262 | for any two iteration orders of the map: the same number of requests, the same number of annotations, and the same requests to each connection |
| AnnotatorProperties.ResolvedItem | src/main/java/io/openliberty/tools/intellij/lsp4mp/lsp4ij/operations/codeactions/LSPCodeActionAnnotator.java:226-236 | an item keeps its element and marker; it takes its own answer when its connection is capable and the answer was stored, and keeps its actions otherwise |
| AnnotatorProperties.ResolvedKeys | src/main/java/io/openliberty/tools/intellij/lsp4mp/lsp4ij/operations/codeactions/LSPCodeActionAnnotator.java:213-238 | resolution neither adds nor drops connections |
| AnnotatorProperties.FailureIsolated | src/main/java/io/openliberty/tools/intellij/lsp4mp/lsp4ij/operations/codeactions/LSPCodeActionAnnotator.java:226-236 | a request that fails or times out changes no other item's result |
| AnnotatorProperties.AnnotationsExactly | src/main/java/io/openliberty/tools/intellij/lsp4mp/lsp4ij/operations/codeactions/LSPCodeActionAnnotator.java:250-262 | an annotation is created exactly when it is the annotation of some item of a walked connection |
| AnnotatorProperties.AnnotationFromItem | src/main/java/io/openliberty/tools/intellij/lsp4mp/lsp4ij/operations/codeactions/LSPCodeActionAnnotator.java:250-262 | every created annotation is the annotation of some item of a walked connection |
| AnnotatorProperties.ItemAnnotated | src/main/java/io/openliberty/tools/intellij/lsp4mp/lsp4ij/operations/codeactions/LSPCodeActionAnnotator.java:250-262 | every item of a walked connection has its annotation created |
| AnnotatorProperties.PipelineAnnotation | src/main/java/io/openliberty/tools/intellij/lsp4mp/lsp4ij/operations/codeactions/LSPCodeActionAnnotator.java:174-263 | the j-th marker of a listed connection's server is annotated with its mapped severity, its message, its bound element, and one fix per action of its own answer (none if unsupported or unanswered) |
| AnnotatorProperties.OneMarkerTwoConnections | src/main/java/io/openliberty/tools/intellij/lsp4mp/lsp4ij/operations/codeactions/LSPCodeActionAnnotator.java:174-263 | one error marker held under the first of two capable servers' ids and none under the second's, answered with one action: only the first connection has an item and gets one request, and exactly one annotation with exactly one fix results |
| AnnotatorProperties.OneMarkerCollected | src/main/java/io/openliberty/tools/intellij/lsp4mp/lsp4ij/operations/codeactions/LSPCodeActionAnnotator.java:188-206 | with one marker held under the first server's id and none under the second's, only the first connection gets an entry, holding one unresolved item over the marker's span and text |
| AnnotatorProperties.SharedMarkerOneAnswer | src/main/java/io/openliberty/tools/intellij/lsp4mp/lsp4ij/operations/codeactions/LSPCodeActionAnnotator.java:174-263 | when two capable connections both hold the same error marker and only the first answers: two requests go out, one to each connection in walk order, and two annotations over the marker's span are created, the first with the answered fix and the second with none |
| AnnotatorProperties.SharedMarkerCollected | src/main/java/io/openliberty/tools/intellij/lsp4mp/lsp4ij/operations/codeactions/LSPCodeActionAnnotator.java:188-206 | when the same marker is held under both connections' server ids, each connection gets an entry holding one unresolved item for it |
| InsertAnnotationQuickFix.FirstOfKind | src/main/java/io/openliberty/tools/intellij/lsp4jakarta/lsp4ij/codeAction/proposal/quickfix/InsertAnnotationMissingQuickFix.java:76 | finds the first node of a kind, with none of that kind before it; none exactly when no node has that kind |
| InsertAnnotationQuickFix.ParentOfType | src/main/java/io/openliberty/tools/intellij/lsp4jakarta/lsp4ij/codeAction/proposal/quickfix/InsertAnnotationMissingQuickFix.java:76-84 | the nearest strict ancestor of a kind, present exactly when the node exists and has such an ancestor |
| InsertAnnotationQuickFix.GetBinding | src/main/java/io/openliberty/tools/intellij/lsp4jakarta/lsp4ij/codeAction/proposal/quickfix/InsertAnnotationMissingQuickFix.java:75-85 | the nearest variable ancestor if any, else the nearest method, else the nearest class, else none, each case stated in both directions |
| InsertAnnotationQuickFix.VariableWinsOverNearerMethod | src/main/java/io/openliberty/tools/intellij/lsp4jakarta/lsp4ij/codeAction/proposal/quickfix/InsertAnnotationMissingQuickFix.java:75-85 | precedence is by kind: an enclosing variable is chosen even over a nearer enclosing method |
| InsertAnnotationQuickFix.LastIndexOf | src/main/java/io/openliberty/tools/intellij/lsp4jakarta/lsp4ij/codeAction/proposal/quickfix/InsertAnnotationMissingQuickFix.java:122 | the last position of the character, or -1, with no occurrence after it |
| InsertAnnotationQuickFix.SimpleName | src/main/java/io/openliberty/tools/intellij/lsp4jakarta/lsp4ij/codeAction/proposal/quickfix/InsertAnnotationMissingQuickFix.java:122 | the longest suffix without a '.', preceded by a '.' when shorter than the name, and the whole name when it has no '.' |
| InsertAnnotationQuickFix.GetLabel | src/main/java/io/openliberty/tools/intellij/lsp4jakarta/lsp4ij/codeAction/proposal/quickfix/InsertAnnotationMissingQuickFix.java:118-130 | the label is "Insert " followed by "@" and each annotation's simple name, in order, joined by ", " |
| InsertAnnotationQuickFix.LabelAppend | src/main/java/io/openliberty/tools/intellij/lsp4jakarta/lsp4ij/codeAction/proposal/quickfix/InsertAnnotationMissingQuickFix.java:120-128 | one more annotation extends the label by ", " (after the first) and "@" with its simple name |
| InsertAnnotationQuickFix.LabelOfNone | src/main/java/io/openliberty/tools/intellij/lsp4jakarta/lsp4ij/codeAction/proposal/quickfix/InsertAnnotationMissingQuickFix.java:119-129 | no annotations give the label "Insert " |
| InsertAnnotationQuickFix.LabelOfOne | src/main/java/io/openliberty/tools/intellij/lsp4jakarta/lsp4ij/codeAction/proposal/quickfix/InsertAnnotationMissingQuickFix.java:118-130 | one annotation gives "Insert @" followed by its simple name |
| InsertAnnotationQuickFix.LabelOfQualifiedName | src/main/java/io/openliberty/tools/intellij/lsp4jakarta/lsp4ij/codeAction/proposal/quickfix/InsertAnnotationMissingQuickFix.java:118-130 | "a.b.C" gives "Insert @C" |
| InsertAnnotationQuickFix.Converted | src/main/java/io/openliberty/tools/intellij/lsp4jakarta/lsp4ij/codeAction/proposal/quickfix/InsertAnnotationMissingQuickFix.java:112-115 | at most one action; none exactly when conversion fails, otherwise the converted action |
| InsertAnnotationQuickFix.CodeActionList.Add | src/main/java/io/openliberty/tools/intellij/lsp4jakarta/lsp4ij/codeAction/proposal/quickfix/InsertAnnotationMissingQuickFix.java:114 | adding appends at the end and keeps the existing entries |
| InsertAnnotationQuickFix.InsertAnnotationMissingQuickFix.constructor | src/main/java/io/openliberty/tools/intellij/lsp4jakarta/lsp4ij/codeAction/proposal/quickfix/InsertAnnotationMissingQuickFix.java:52-54 | the annotations-only constructor selects per-annotation mode |
| InsertAnnotationQuickFix.InsertAnnotationMissingQuickFix.WithMode | src/main/java/io/openliberty/tools/intellij/lsp4jakarta/lsp4ij/codeAction/proposal/quickfix/InsertAnnotationMissingQuickFix.java:64-67 | the two-argument constructor keeps the given mode and annotations |
| InsertAnnotationQuickFix.InsertAnnotationMissingQuickFix.GetCodeActions | src/main/java/io/openliberty/tools/intellij/lsp4jakarta/lsp4ij/codeAction/proposal/quickfix/InsertAnnotationMissingQuickFix.java:69-73 | returns exactly the code actions that the fix's mode emits |
| InsertAnnotationQuickFix.InsertAnnotationMissingQuickFix.InsertAnnotations | src/main/java/io/openliberty/tools/intellij/lsp4jakarta/lsp4ij/codeAction/proposal/quickfix/InsertAnnotationMissingQuickFix.java:91-101 | the list keeps its entries and gains the emitted actions: one conversion of all annotations, or one per annotation in order |
| InsertAnnotationQuickFix.InsertAnnotationMissingQuickFix.InsertAnnotation | src/main/java/io/openliberty/tools/intellij/lsp4jakarta/lsp4ij/codeAction/proposal/quickfix/InsertAnnotationMissingQuickFix.java:103-116 | the list keeps its entries and gains the converted action of the labelled, bound proposal, only when conversion succeeds |
| InsertAnnotationQuickFix.OneActionCoversAll | src/main/java/io/openliberty/tools/intellij/lsp4jakarta/lsp4ij/codeAction/proposal/quickfix/InsertAnnotationMissingQuickFix.java:93-94 | one-action mode emits at most one action, converted from the proposal that names and inserts every annotation |
| InsertAnnotationQuickFix.PerAnnotationInOrder | src/main/java/io/openliberty/tools/intellij/lsp4jakarta/lsp4ij/codeAction/proposal/quickfix/InsertAnnotationMissingQuickFix.java:95-100 | per-annotation mode emits one action for exactly the annotations whose single proposal converts; the k-th comes from a strictly increasing source position; there are at most as many actions as annotations |
| InsertAnnotationQuickFix.PerAnnotationLabels | src/main/java/io/openliberty/tools/intellij/lsp4jakarta/lsp4ij/codeAction/proposal/quickfix/InsertAnnotationMissingQuickFix.java:95-105 | each per-annotation proposal is labelled with its single annotation's simple name |
| InsertAnnotationQuickFix.DefaultModeEmitsPerAnnotation | src/main/java/io/openliberty/tools/intellij/lsp4jakarta/lsp4ij/codeAction/proposal/quickfix/InsertAnnotationMissingQuickFix.java:52-73 | a fix built from the annotations alone returns the per-annotation actions |

## Left out

- Asynchrony:
  - the asynchronous requests, their callbacks and the ten-second join are replaced by the answer oracle;
  - a callback that runs after the join has returned, and so changes an item after apply may have read it, is not modelled;
  - the model does not tie the stored answers to the join: the join waits on the requests (line 227), not on the callbacks that store their answers (line 228), so the oracle may lack an answer the server sent in time;
  - the wall-clock timeout itself cannot be stated.
- The diagnostics-published listener is not modelled: it runs on the UI thread and replaces markers.
- Marker creation is not modelled; the marker store is an input.
- IntelliJ PSI, document and annotation-builder APIs are abstracted:
  - `getElementAtOffset` is an element reference at the offset;
  - `getParentOfType` is a walk over a given chain of parents;
  - `InsertAnnotationProposal` is a value of its name, binding and annotations, and its compilation-unit arguments are dropped;
  - `convertToCodeAction` is a function in the context.
- `PsiUtilsLSImpl.java` is not part of this model: it only delegates to IntelliJ services.
- `ServerEnvLanguage.java` is not part of this model: it is a constant language registration.
- Logging and the debug prints are not modelled.
- A null diagnostic severity is not modelled: the switch would throw on it. Java's fallback line 275 is unreachable for the four protocol severities.
- `ItemInfo` objects are values here. Code that held a reference to an item would see the answer appear in place; that aliasing is not modelled, and `DoAnnotate` instead replaces the map entry.
- Java's `context.copy()` per annotation is modelled as the same context value: the copy carries the same covering node and conversion.
- The virtual-file overload of `doCollectInformation` is modelled only for its editor choice (`ChosenEditorForVirtualFile`). Its loop is a copy of the PSI-file overload's loop. A null virtual file in that overload is not modelled. Nor is a virtual file without a PSI file: `findFile` at line 134 returns null and line 149 dereferences it, which the `IOException` handler does not catch.
- `getAnnotations` is a plain accessor and is represented by the `annotations` field.
- Markers are assumed to lie inside their document (`InDocument`), as editor range markers always do.
- Markers are assumed to carry their `Diagnostic` as the error-stripe tooltip (the casts at LSPCodeActionAnnotator.java:220 and :252). A null or non-`Diagnostic` tooltip would throw there and abort the whole request-building or apply pass for every connection; the model cannot express that.
- Collection looks a connection's markers up under the connection's own server id (LSPCodeActionAnnotator.java:189). Under which key a publish stores its markers is outside the model: the marker store is an input. The listener in this file stores them under the constant id "lsp4mp" (lines 72 and 119-120), whatever server published them.
- The end-to-end example `OneMarkerTwoConnections` takes a store holding one marker under the first connection's server id and none under the second's:
  - only the first connection gets an item;
  - the second connection sends no request.
- When both capable connections hold the marker and only the first answers, two requests go out and two annotations are created, and the second annotation has no fix (`SharedMarkerOneAnswer`).

## Findings

| source | as written | input that shows it | evidently intended | confidence | as-written member | corrected member |
|---|---|---|---|---|---|---|
| src/main/java/io/openliberty/tools/intellij/lsp4mp/lsp4ij/operations/codeactions/LSPCodeActionAnnotator.java:133-144 | the virtual-file overload calls `editor.getProject()` on its first line, before the null check that would fall back to the editor open for the file | a null editor for a file that is open in an editor | fall back to the open editor, as the PSI-file overload does | high, not executed | CodeActionAnnotator.ChosenEditorForVirtualFile | CodeActionAnnotator.ChosenEditor |
