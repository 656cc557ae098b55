/**
 * The code-action annotator of the MicroProfile language-server client.
 *
 * It works in three passes over one file:
 *  - collection: for every language-server connection attached to the file,
 *    every diagnostic marker (range highlighter) the editor holds for that
 *    server becomes one item, bound to a span of the document or, when the
 *    marker is empty, to the element at its offset;
 *  - request building: for every item of a connection that supports code
 *    actions, one textDocument/codeAction request naming that item's single
 *    diagnostic is dispatched, and each answer is stored on its item by a
 *    callback (an oracle map holds the answers stored before apply reads
 *    the items);
 *  - apply: every item becomes one annotation carrying its diagnostic's
 *    message and one fix per resolved action.
 */
module CodeActionAnnotator {
  import opened LspTypes
  import opened Sequences

  // ---------------------------------------------------------------------
  // Severity mapping
  // ---------------------------------------------------------------------

  /** The IntelliJ highlight levels this model distinguishes, weakest first. */
  datatype HighlightSeverity = INFORMATION | WEAK_WARNING | WARNING | ERROR

  function Rank(h: HighlightSeverity): nat
  {
    match h
    case INFORMATION => 0
    case WEAK_WARNING => 1
    case WARNING => 2
    case ERROR => 3
  }

  /**
   * The highlight kind of a diagnostic severity. Every severity maps to
   * exactly one kind: errors and warnings keep their level, hints and
   * information both become INFORMATION, and no severity becomes a weak
   * warning.
   */
  function HighlightType(severity: DiagnosticSeverity): (h: HighlightSeverity)
    ensures h == ERROR <==> severity == Error
    ensures h == WARNING <==> severity == Warning
    ensures h == INFORMATION <==> severity == Information || severity == Hint
    ensures h != WEAK_WARNING
  {
    match severity
    case Error => ERROR
    case Hint => INFORMATION
    case Information => INFORMATION
    case Warning => WARNING
  }

  /** A more severe diagnostic never gets a weaker highlight. */
  lemma HighlightTypeMonotone(s1: DiagnosticSeverity, s2: DiagnosticSeverity)
    requires SeverityCode(s1) <= SeverityCode(s2)
    ensures Rank(HighlightType(s2)) <= Rank(HighlightType(s1))
  {
  }

  // ---------------------------------------------------------------------
  // Capability predicate
  // ---------------------------------------------------------------------

  /**
   * Whether a server's capabilities let the annotator ask it for code
   * actions: the provider must be present and be either the boolean true
   * or a structured options value.
   */
  function SupportsCodeAction(capabilities: Option<ServerCapabilities>): (b: bool)
    ensures capabilities.None? ==> !b
    ensures capabilities.Some? && capabilities.value.codeActionProvider.None? ==> !b
    ensures capabilities.Some? && capabilities.value.codeActionProvider == Some(Left(false)) ==> !b
    ensures capabilities.Some? && capabilities.value.codeActionProvider == Some(Left(true)) ==> b
    ensures (capabilities.Some? && capabilities.value.codeActionProvider.Some? &&
             capabilities.value.codeActionProvider.value.Right?) ==> b
  {
    && capabilities.Some?
    && capabilities.value.codeActionProvider.Some?
    && ((capabilities.value.codeActionProvider.value.Left? && capabilities.value.codeActionProvider.value.left)
        || capabilities.value.codeActionProvider.value.Right?)
  }

  /** The capability as a tagged variant, read off by pattern matching. */
  datatype CodeActionSupport = Unsupported | Supported | SupportedWithOptions(options: CodeActionOptions)

  function CodeActionSupportOf(capabilities: Option<ServerCapabilities>): CodeActionSupport
  {
    match capabilities
    case None => Unsupported
    case Some(caps) =>
      match caps.codeActionProvider
      case None => Unsupported
      case Some(Left(enabled)) => if enabled then Supported else Unsupported
      case Some(Right(options)) => SupportedWithOptions(options)
  }

  /** The predicate and the tagged variant agree on every capability value. */
  lemma SupportsCodeActionAgreesWithVariant(capabilities: Option<ServerCapabilities>)
    ensures SupportsCodeAction(capabilities) <==> !CodeActionSupportOf(capabilities).Unsupported?
  {
  }

  // ---------------------------------------------------------------------
  // Files, editors, connections and markers
  // ---------------------------------------------------------------------

  datatype VirtualFile = VirtualFile(uri: string)

  /** A PSI file; it may have no virtual file behind it. */
  datatype PsiFile = PsiFile(virtualFile: Option<VirtualFile>)

  /** An open editor: its identity and the text of its document. */
  datatype Editor = Editor(id: nat, documentText: string)

  /** One connection to a running language server; `id` is the object's identity. */
  datatype LanguageServerWrapper = LanguageServerWrapper(id: nat, serverId: string, capabilities: Option<ServerCapabilities>)

  /** A diagnostic marker: a document range and the diagnostic it shows. */
  datatype RangeHighlighter = RangeHighlighter(startOffset: nat, endOffset: nat, diagnostic: Diagnostic)

  /**
   * The markers an editor holds, keyed by (editor id, server id). A missing
   * key is the null array the marker store answers when it has none.
   */
  type MarkerStore = map<(nat, string), seq<RangeHighlighter>>

  /** What an item is bound to: a span carrying its text, or the element at an offset. */
  datatype PsiElementRef = LSPPsiElement(start: nat, end: nat, text: string) | ElementAtOffset(offset: nat)

  /** One marker to annotate, with the actions resolved for it (None while unresolved). */
  datatype ItemInfo = ItemInfo(element: PsiElementRef, highlighter: RangeHighlighter, actions: Option<seq<Action>>)

  type ItemMap = map<LanguageServerWrapper, seq<ItemInfo>>

  /** The information handed from one pass to the next. */
  class Info {
    const file: VirtualFile
    var itemInfos: ItemMap

    constructor (file: VirtualFile)
      ensures this.file == file && itemInfos == map[]
    {
      this.file := file;
      itemInfos := map[];
    }
  }

  predicate Distinct<T(==)>(s: seq<T>)
  {
    forall j :: 0 <= j < |s| ==> s[j] !in s[..j]
  }

  lemma DistinctInit<T>(s: seq<T>)
    requires Distinct(s) && s != []
    ensures Distinct(s[..|s| - 1])
    ensures s[|s| - 1] !in s[..|s| - 1]
  {
    var init := s[..|s| - 1];
    forall j | 0 <= j < |init|
      ensures init[j] !in init[..j]
    {
      assert init[..j] == s[..j];
    }
  }

  /** `order` lists every key of `m` exactly once: one iteration order of a hash map. */
  predicate Enumerates(order: seq<LanguageServerWrapper>, m: ItemMap)
  {
    && Distinct(order)
    && (forall w :: w in order ==> w in m)
    && (forall w :: w in m ==> w in order)
  }

  function ItemsIn(m: ItemMap, w: LanguageServerWrapper): seq<ItemInfo>
  {
    if w in m then m[w] else []
  }

  function MarkersOf(store: MarkerStore, editor: Editor, serverId: string): seq<RangeHighlighter>
  {
    if (editor.id, serverId) in store then store[(editor.id, serverId)] else []
  }

  /** Every marker lies inside the text. */
  ghost predicate Within(highlighters: seq<RangeHighlighter>, text: string)
  {
    forall h :: h in highlighters ==> h.startOffset <= h.endOffset <= |text|
  }

  /** Every marker of the editor lies inside its document, as editor range markers always do. */
  ghost predicate InDocument(store: MarkerStore, editor: Editor)
  {
    forall key :: key in store && key.0 == editor.id ==> Within(store[key], editor.documentText)
  }

  // ---------------------------------------------------------------------
  // Collection pass
  // ---------------------------------------------------------------------

  /**
   * The element a marker binds to: a marker of positive width binds to the
   * span it covers, carrying exactly the document's text over that range;
   * an empty marker binds to the element at its start offset.
   */
  function BindElement(h: RangeHighlighter, text: string): (element: PsiElementRef)
    requires h.startOffset <= h.endOffset <= |text|
    ensures element.LSPPsiElement? <==> h.endOffset - h.startOffset > 0
    ensures element.LSPPsiElement? ==>
      element.start == h.startOffset && element.end == h.endOffset &&
      |element.text| == element.end - element.start &&
      forall k :: 0 <= k < |element.text| ==> element.text[k] == text[h.startOffset + k]
    ensures element.ElementAtOffset? ==> element.offset == h.startOffset
  {
    if h.endOffset - h.startOffset > 0 then
      LSPPsiElement(h.startOffset, h.endOffset, text[h.startOffset..h.endOffset])
    else
      ElementAtOffset(h.startOffset)
  }

  /** The items of a marker array, one per marker and in marker order, all unresolved. */
  function ItemsOf(highlighters: seq<RangeHighlighter>, text: string): (items: seq<ItemInfo>)
    requires Within(highlighters, text)
    ensures |items| == |highlighters|
    ensures forall j :: 0 <= j < |items| ==>
      items[j].highlighter == highlighters[j] && items[j].actions.None? &&
      items[j].element == BindElement(highlighters[j], text)
  {
    seq(|highlighters|, j requires 0 <= j < |highlighters| =>
      ItemInfo(BindElement(highlighters[j], text), highlighters[j], None))
  }

  lemma ItemsOfAppend(highlighters: seq<RangeHighlighter>, h: RangeHighlighter, text: string)
    requires Within(highlighters + [h], text)
    ensures ItemsOf(highlighters + [h], text) == ItemsOf(highlighters, text) + [ItemInfo(BindElement(h, text), h, None)]
  {
    var hs := highlighters + [h];
    assert forall g :: g in highlighters ==> g in hs;
    assert ItemsOf(hs, text)[|highlighters|] == ItemInfo(BindElement(h, text), h, None);
  }

  /** Appends items to a connection's list, creating the list on first use. */
  function AddItems(m: ItemMap, w: LanguageServerWrapper, items: seq<ItemInfo>): ItemMap
  {
    if items == [] then m else m[w := ItemsIn(m, w) + items]
  }

  lemma AddItemsAppend(m: ItemMap, w: LanguageServerWrapper, items: seq<ItemInfo>, item: ItemInfo)
    ensures var added := AddItems(m, w, items);
            AddItems(m, w, items + [item]) == added[w := ItemsIn(added, w) + [item]]
  {
    var added := AddItems(m, w, items);
    if items == [] {
      assert items + [item] == [item];
      assert added == m;
    } else {
      assert added == m[w := ItemsIn(m, w) + items];
      assert ItemsIn(added, w) == ItemsIn(m, w) + items;
      assert items + [item] != [];
      assert ItemsIn(m, w) + items + [item] == ItemsIn(m, w) + (items + [item]);
    }
  }

  /** The item map that collection builds over the connections in the given order. */
  function Collected(wrappers: seq<LanguageServerWrapper>, store: MarkerStore, editor: Editor): ItemMap
    requires InDocument(store, editor)
  {
    if wrappers == [] then map[]
    else
      var w := wrappers[|wrappers| - 1];
      var markers := MarkersOf(store, editor, w.serverId);
      assert Within(markers, editor.documentText);
      AddItems(Collected(wrappers[..|wrappers| - 1], store, editor), w, ItemsOf(markers, editor.documentText))
  }

  /** Which editor collection reads the markers of, or why there is no item map. */
  datatype EditorChoice = NoInfo | NullPointer | Uses(editor: Editor)

  /**
   * The PSI-file entry point's choice: no item map without a virtual file;
   * otherwise the given editor, else the editor open for the file, else no
   * item map. It never fails.
   */
  function ChosenEditor(file: PsiFile, editor: Option<Editor>, editorForFile: Option<Editor>): (choice: EditorChoice)
    ensures !choice.NullPointer?
    ensures choice.NoInfo? <==> file.virtualFile.None? || (editor.None? && editorForFile.None?)
    ensures choice.Uses? && editor.Some? ==> choice.editor == editor.value
    ensures choice.Uses? && editor.None? ==> choice.editor == editorForFile.value
  {
    if file.virtualFile.None? then NoInfo
    else if editor.Some? then Uses(editor.value)
    else if editorForFile.Some? then Uses(editorForFile.value)
    else NoInfo
  }

  /**
   * The virtual-file entry point's choice as written: it asks the editor for
   * its project before any null check, so a missing editor fails there.
   */
  function ChosenEditorForVirtualFile(virtualFile: VirtualFile, editor: Option<Editor>, editorForFile: Option<Editor>): (choice: EditorChoice)
    ensures choice.NullPointer? <==> editor.None?
    ensures choice.Uses? ==> editor.Some? && choice.editor == editor.value
    ensures editor.Some? ==> choice == Uses(editor.value)
  {
    if editor.None? then NullPointer else Uses(editor.value)
  }

  /**
   * With no editor given but one open for the file, the virtual-file entry
   * point fails before its fallback, where the PSI-file entry point uses
   * the open editor.
   */
  lemma FallbackUnreachableForVirtualFile(virtualFile: VirtualFile, editorForFile: Editor)
    ensures ChosenEditorForVirtualFile(virtualFile, None, Some(editorForFile)) == NullPointer
    ensures ChosenEditor(PsiFile(Some(virtualFile)), None, Some(editorForFile)) == Uses(editorForFile)
  {
  }

  /**
   * Collection of the PSI file's items, from the markers of the chosen
   * editor: a fresh map built from the connections `getLSWrappers` answers
   * (None stands for the I/O error that is logged, leaving the map empty),
   * or no map (null) when no editor is chosen.
   */
  method DoCollectInformation(file: PsiFile, editor: Option<Editor>, editorForFile: Option<Editor>,
                              wrappers: Option<seq<LanguageServerWrapper>>, store: MarkerStore)
    returns (info: Info?)
    requires ChosenEditor(file, editor, editorForFile).Uses? ==> InDocument(store, ChosenEditor(file, editor, editorForFile).editor)
    ensures info == null <==> ChosenEditor(file, editor, editorForFile).NoInfo?
    ensures info != null ==>
      fresh(info) && info.file == file.virtualFile.value &&
      info.itemInfos == Collected(if wrappers.Some? then wrappers.value else [], store,
                                  ChosenEditor(file, editor, editorForFile).editor)
  {
    if file.virtualFile.None? {
      return null;
    }
    var chosen := if editor.Some? then editor else editorForFile;
    if chosen.None? {
      return null;
    }
    var ed := chosen.value;
    info := new Info(file.virtualFile.value);
    var connections := if wrappers.Some? then wrappers.value else [];
    CollectConnections(info, connections, ed, store);
  }

  /** The outer loop of collection: every connection's markers, connection by connection. */
  method CollectConnections(info: Info, connections: seq<LanguageServerWrapper>, ed: Editor, store: MarkerStore)
    requires InDocument(store, ed)
    requires info.itemInfos == map[]
    modifies info
    ensures info.itemInfos == Collected(connections, store, ed)
  {
    var i := 0;
    while i < |connections|
      invariant 0 <= i <= |connections|
      invariant info.itemInfos == Collected(connections[..i], store, ed)
    {
      CollectMarkers(info, connections[i], ed, store);
      assert connections[..i + 1][..i] == connections[..i];
      i := i + 1;
    }
    assert connections[..i] == connections;
  }

  /**
   * The inner loop of collection for one connection: one unresolved item per
   * marker of the connection's server, appended in marker order.
   */
  method CollectMarkers(info: Info, wrapper: LanguageServerWrapper, ed: Editor, store: MarkerStore)
    requires InDocument(store, ed)
    modifies info
    ensures info.itemInfos ==
      AddItems(old(info.itemInfos), wrapper, ItemsOf(MarkersOf(store, ed, wrapper.serverId), ed.documentText))
  {
    var key := (ed.id, wrapper.serverId);
    if key in store {
      var highlighters := store[key];
      assert Within(highlighters, ed.documentText);
      ghost var before := info.itemInfos;
      var j := 0;
      while j < |highlighters|
        invariant 0 <= j <= |highlighters|
        invariant info.itemInfos == AddItems(before, wrapper, ItemsOf(highlighters[..j], ed.documentText))
      {
        var h := highlighters[j];
        var element;
        if h.endOffset - h.startOffset > 0 {
          element := LSPPsiElement(h.startOffset, h.endOffset, ed.documentText[h.startOffset..h.endOffset]);
        } else {
          element := ElementAtOffset(h.startOffset);
        }
        var itemInfos := if wrapper in info.itemInfos then info.itemInfos[wrapper] else [];
        info.itemInfos := info.itemInfos[wrapper := itemInfos + [ItemInfo(element, h, None)]];
        PrefixStep(highlighters, j);
        ItemsOfAppend(highlighters[..j], h, ed.documentText);
        AddItemsAppend(before, wrapper, ItemsOf(highlighters[..j], ed.documentText), ItemInfo(element, h, None));
        j := j + 1;
      }
      assert highlighters[..j] == highlighters;
    } else {
      assert ItemsOf([], ed.documentText) == [];
    }
  }

  /** A connection gets a map entry exactly when it is listed and holds at least one marker. */
  lemma {:induction false} CollectedKeys(wrappers: seq<LanguageServerWrapper>, store: MarkerStore, editor: Editor,
                                         w: LanguageServerWrapper)
    requires InDocument(store, editor)
    ensures w in Collected(wrappers, store, editor) <==> w in wrappers && MarkersOf(store, editor, w.serverId) != []
  {
    if wrappers != [] {
      var init := wrappers[..|wrappers| - 1];
      CollectedKeys(init, store, editor, w);
      assert wrappers == init + [wrappers[|wrappers| - 1]];
    }
  }

  /**
   * With distinct connections, a connection's list holds exactly one item per
   * marker, in marker order.
   */
  lemma {:induction false} CollectedItems(wrappers: seq<LanguageServerWrapper>, store: MarkerStore, editor: Editor,
                                          w: LanguageServerWrapper)
    requires InDocument(store, editor)
    requires Distinct(wrappers)
    requires w in wrappers
    ensures ItemsIn(Collected(wrappers, store, editor), w) == ItemsOf(MarkersOf(store, editor, w.serverId), editor.documentText)
  {
    var init := wrappers[..|wrappers| - 1];
    var last := wrappers[|wrappers| - 1];
    assert wrappers == init + [last];
    if w == last {
      CollectedKeys(init, store, editor, w);
      forall k | 0 <= k < |init|
        ensures init[k] != w
      {
        assert wrappers[k] != wrappers[|wrappers| - 1];
      }
    } else {
      DistinctInit(wrappers);
      CollectedItems(init, store, editor, w);
    }
  }

  // ---------------------------------------------------------------------
  // Request-building pass
  // ---------------------------------------------------------------------

  /** Identifies an item: its connection and its position in that connection's list. */
  type ItemKey = (LanguageServerWrapper, nat)

  /** One textDocument/codeAction request and the connection it is sent to. */
  datatype CodeActionRequest = CodeActionRequest(target: LanguageServerWrapper, params: CodeActionParams)

  /** A request for one diagnostic: it names that diagnostic alone and uses its range. */
  function RequestParams(file: VirtualFile, diagnostic: Diagnostic): (params: CodeActionParams)
    ensures params.context.diagnostics == [diagnostic]
    ensures params.range == diagnostic.range
    ensures params.textDocument.uri == file.uri
  {
    CodeActionParams(TextDocumentIdentifier(file.uri), diagnostic.range, CodeActionContext([diagnostic]))
  }

  function RequestsOf(file: VirtualFile, w: LanguageServerWrapper, items: seq<ItemInfo>): seq<CodeActionRequest>
  {
    if SupportsCodeAction(w.capabilities) then
      seq(|items|, j requires 0 <= j < |items| => CodeActionRequest(w, RequestParams(file, items[j].highlighter.diagnostic)))
    else []
  }

  /** The requests dispatched when the map is walked in the given order. */
  function Dispatched(file: VirtualFile, m: ItemMap, order: seq<LanguageServerWrapper>): seq<CodeActionRequest>
  {
    if order == [] then []
    else
      var w := order[|order| - 1];
      Dispatched(file, m, order[..|order| - 1]) + RequestsOf(file, w, ItemsIn(m, w))
  }

  lemma DispatchedStep(file: VirtualFile, m: ItemMap, order: seq<LanguageServerWrapper>, i: nat)
    requires i < |order|
    ensures Dispatched(file, m, order[..i + 1]) == Dispatched(file, m, order[..i]) + RequestsOf(file, order[i], ItemsIn(m, order[i]))
  {
    assert order[..i + 1][..i] == order[..i];
  }

  lemma RequestsOfStep(file: VirtualFile, w: LanguageServerWrapper, items: seq<ItemInfo>, j: nat)
    requires SupportsCodeAction(w.capabilities) && j < |items|
    ensures RequestsOf(file, w, items)[..j + 1] ==
            RequestsOf(file, w, items)[..j] + [CodeActionRequest(w, RequestParams(file, items[j].highlighter.diagnostic))]
  {
    PrefixStep(RequestsOf(file, w, items), j);
  }

  function ResolveItems(w: LanguageServerWrapper, items: seq<ItemInfo>, answers: map<ItemKey, Option<seq<Action>>>): seq<ItemInfo>
  {
    seq(|items|, j requires 0 <= j < |items| =>
      if (w, j) in answers then items[j].(actions := answers[(w, j)]) else items[j])
  }

  /**
   * The item map after the answers are stored: an item of a connection that
   * supports code actions takes the answer to its request if that answer
   * was stored (`answers` has its key); every other item is left as it was.
   */
  function Resolved(m: ItemMap, answers: map<ItemKey, Option<seq<Action>>>): ItemMap
  {
    map w | w in m :: ResolvedEntry(w, m[w], answers)
  }

  function ResolvedEntry(w: LanguageServerWrapper, items: seq<ItemInfo>, answers: map<ItemKey, Option<seq<Action>>>): seq<ItemInfo>
  {
    if SupportsCodeAction(w.capabilities) then ResolveItems(w, items, answers) else items
  }

  /** The map once the connections of `done` have been visited, in that order. */
  function ResolvedThrough(m: ItemMap, done: seq<LanguageServerWrapper>, answers: map<ItemKey, Option<seq<Action>>>): ItemMap
  {
    if done == [] then m
    else
      var w := done[|done| - 1];
      var visited := ResolvedThrough(m, done[..|done| - 1], answers);
      if w in m && SupportsCodeAction(w.capabilities) then visited[w := ResolveItems(w, m[w], answers)] else visited
  }

  lemma ResolvedThroughStep(m: ItemMap, order: seq<LanguageServerWrapper>, answers: map<ItemKey, Option<seq<Action>>>, i: nat)
    requires i < |order|
    ensures var w := order[i];
            ResolvedThrough(m, order[..i + 1], answers) ==
            if w in m && SupportsCodeAction(w.capabilities) then ResolvedThrough(m, order[..i], answers)[w := ResolveItems(w, m[w], answers)]
            else ResolvedThrough(m, order[..i], answers)
  {
    assert order[..i + 1][..i] == order[..i];
  }

  /** Visiting distinct connections resolves exactly the visited entries. */
  lemma {:induction false} ResolvedThroughEntries(m: ItemMap, done: seq<LanguageServerWrapper>,
                                                  answers: map<ItemKey, Option<seq<Action>>>)
    requires Distinct(done)
    ensures ResolvedThrough(m, done, answers).Keys == m.Keys
    ensures forall w :: w in m ==>
      ResolvedThrough(m, done, answers)[w] == if w in done then ResolvedEntry(w, m[w], answers) else m[w]
  {
    if done != [] {
      var init := done[..|done| - 1];
      DistinctInit(done);
      ResolvedThroughEntries(m, init, answers);
      assert forall w :: w in done <==> w in init || w == done[|done| - 1];
    }
  }

  /** Visiting every key of the map once, in any order, yields the resolved map. */
  lemma ResolvedThroughAll(m: ItemMap, order: seq<LanguageServerWrapper>, answers: map<ItemKey, Option<seq<Action>>>)
    requires Enumerates(order, m)
    ensures ResolvedThrough(m, order, answers) == Resolved(m, answers)
  {
    ResolvedThroughEntries(m, order, answers);
  }

  /**
   * The requests for the items of one connection that supports code actions:
   * one per item, in item order, each naming that item's diagnostic; each
   * item takes the answer stored for it, if any.
   */
  method RequestCodeActions(file: VirtualFile, wrapper: LanguageServerWrapper, items: seq<ItemInfo>,
                            answers: map<ItemKey, Option<seq<Action>>>)
    returns (resolved: seq<ItemInfo>, requests: seq<CodeActionRequest>)
    requires SupportsCodeAction(wrapper.capabilities)
    ensures resolved == ResolveItems(wrapper, items, answers)
    ensures requests == RequestsOf(file, wrapper, items)
  {
    resolved := items;
    requests := [];
    var j := 0;
    while j < |items|
      invariant 0 <= j <= |items| == |resolved|
      invariant |requests| == j
      invariant forall k :: 0 <= k < j ==>
        requests[k].target == wrapper && requests[k].params == RequestParams(file, items[k].highlighter.diagnostic)
      invariant forall k :: 0 <= k < |items| ==>
        resolved[k] == if k < j && (wrapper, k) in answers then items[k].(actions := answers[(wrapper, k)]) else items[k]
    {
      var diagnostic := resolved[j].highlighter.diagnostic;
      var params := CodeActionParams(TextDocumentIdentifier(file.uri), diagnostic.range, CodeActionContext([diagnostic]));
      requests := requests + [CodeActionRequest(wrapper, params)];
      if (wrapper, j) in answers {
        resolved := resolved[j := resolved[j].(actions := answers[(wrapper, j)])];
      }
      j := j + 1;
    }
  }

  /**
   * The request-building pass. It walks the map in `order`, dispatches one
   * request per item of every connection that supports code actions, and
   * stores on each such item the answer stored for it. `answers` holds the
   * answers whose storing callback ran before apply reads the items: the
   * join waits on the requests, not on those callbacks, so an answer that
   * came in time can still be missing.
   */
  method DoAnnotate(info: Info, order: seq<LanguageServerWrapper>, answers: map<ItemKey, Option<seq<Action>>>)
    returns (requests: seq<CodeActionRequest>)
    requires Enumerates(order, info.itemInfos)
    modifies info
    ensures info.itemInfos == Resolved(old(info.itemInfos), answers)
    ensures requests == Dispatched(info.file, old(info.itemInfos), order)
  {
    var resolved;
    resolved, requests := ResolveConnections(info.file, info.itemInfos, order, answers);
    info.itemInfos := resolved;
  }

  /** The loop of the request-building pass, over the map walked in `order`. */
  method ResolveConnections(file: VirtualFile, collected: ItemMap, order: seq<LanguageServerWrapper>,
                            answers: map<ItemKey, Option<seq<Action>>>)
    returns (resolved: ItemMap, requests: seq<CodeActionRequest>)
    requires Enumerates(order, collected)
    ensures resolved == Resolved(collected, answers)
    ensures requests == Dispatched(file, collected, order)
  {
    resolved := collected;
    requests := [];
    var i := 0;
    while i < |order|
      invariant 0 <= i <= |order|
      invariant resolved == ResolvedThrough(collected, order[..i], answers)
      invariant requests == Dispatched(file, collected, order[..i])
    {
      var wrapper := order[i];
      DispatchedStep(file, collected, order, i);
      ResolvedThroughStep(collected, order, answers, i);
      if SupportsCodeAction(wrapper.capabilities) {
        var items, sent := RequestCodeActions(file, wrapper, collected[wrapper], answers);
        requests := requests + sent;
        resolved := resolved[wrapper := items];
      }
      i := i + 1;
    }
    assert order[..i] == order;
    ResolvedThroughAll(collected, order, answers);
  }

  // ---------------------------------------------------------------------
  // Apply pass
  // ---------------------------------------------------------------------

  /** A fix that runs one resolved action against the connection that proposed it. */
  datatype LSPCodeActionIntentionAction = LSPCodeActionIntentionAction(action: Action, wrapper: LanguageServerWrapper)

  datatype Annotation = Annotation(severity: HighlightSeverity, message: string, range: PsiElementRef,
                                   tooltip: string, fixes: seq<LSPCodeActionIntentionAction>)

  /** The sink annotations are created into. */
  class AnnotationHolder {
    var annotations: seq<Annotation>

    constructor ()
      ensures annotations == []
    {
      annotations := [];
    }

    method Create(annotation: Annotation)
      modifies this
      ensures annotations == old(annotations) + [annotation]
    {
      annotations := annotations + [annotation];
    }
  }

  function Fixes(w: LanguageServerWrapper, actions: Option<seq<Action>>): seq<LSPCodeActionIntentionAction>
  {
    match actions
    case None => []
    case Some(resolved) =>
      seq(|resolved|, k requires 0 <= k < |resolved| => LSPCodeActionIntentionAction(resolved[k], w))
  }

  function AnnotationOf(w: LanguageServerWrapper, item: ItemInfo): Annotation
  {
    var diagnostic := item.highlighter.diagnostic;
    Annotation(HighlightType(diagnostic.severity), diagnostic.message, item.element, diagnostic.message,
               Fixes(w, item.actions))
  }

  function AnnotationsOf(w: LanguageServerWrapper, items: seq<ItemInfo>): seq<Annotation>
  {
    seq(|items|, j requires 0 <= j < |items| => AnnotationOf(w, items[j]))
  }

  /** The annotations created when the map is walked in the given order. */
  function Annotations(m: ItemMap, order: seq<LanguageServerWrapper>): seq<Annotation>
  {
    if order == [] then []
    else
      var w := order[|order| - 1];
      Annotations(m, order[..|order| - 1]) + AnnotationsOf(w, ItemsIn(m, w))
  }

  lemma AnnotationsStep(m: ItemMap, order: seq<LanguageServerWrapper>, i: nat)
    requires i < |order|
    ensures Annotations(m, order[..i + 1]) == Annotations(m, order[..i]) + AnnotationsOf(order[i], ItemsIn(m, order[i]))
  {
    assert order[..i + 1][..i] == order[..i];
  }

  lemma AnnotationsAppend(before: seq<Annotation>, m: ItemMap, order: seq<LanguageServerWrapper>, i: nat)
    requires i < |order| && order[i] in m
    ensures before + Annotations(m, order[..i + 1]) == before + Annotations(m, order[..i]) + AnnotationsOf(order[i], m[order[i]])
  {
    AnnotationsStep(m, order, i);
  }

  /**
   * The annotation built for one item: the diagnostic's mapped severity,
   * its message as both title and tooltip, the item's element as range,
   * and one fix per resolved action, in action order (none when the item
   * was not resolved).
   */
  method BuildAnnotation(wrapper: LanguageServerWrapper, item: ItemInfo) returns (builder: Annotation)
    ensures builder == AnnotationOf(wrapper, item)
  {
    var diagnostic := item.highlighter.diagnostic;
    builder := Annotation(HighlightType(diagnostic.severity), diagnostic.message, item.element, diagnostic.message, []);
    if item.actions.Some? {
      var actions := item.actions.value;
      var k := 0;
      while k < |actions|
        invariant 0 <= k <= |actions|
        invariant builder == AnnotationOf(wrapper, item).(fixes := Fixes(wrapper, item.actions)[..k])
      {
        builder := builder.(fixes := builder.fixes + [LSPCodeActionIntentionAction(actions[k], wrapper)]);
        PrefixStep(Fixes(wrapper, item.actions), k);
        k := k + 1;
      }
      assert Fixes(wrapper, item.actions)[..k] == Fixes(wrapper, item.actions);
    }
  }

  /**
   * The apply pass: one annotation per item of every connection, whether or
   * not that connection supports code actions, created in walk order.
   */
  method Apply(annotationResult: Info, order: seq<LanguageServerWrapper>, holder: AnnotationHolder)
    requires Enumerates(order, annotationResult.itemInfos)
    modifies holder
    ensures holder.annotations == old(holder.annotations) + Annotations(annotationResult.itemInfos, order)
  {
    AnnotateConnections(holder, annotationResult.itemInfos, order);
  }

  /** The outer loop of the apply pass, over the map walked in `order`. */
  method AnnotateConnections(holder: AnnotationHolder, m: ItemMap, order: seq<LanguageServerWrapper>)
    requires forall w :: w in order ==> w in m
    modifies holder
    ensures holder.annotations == old(holder.annotations) + Annotations(m, order)
  {
    var i := 0;
    while i < |order|
      invariant 0 <= i <= |order|
      invariant holder.annotations == old(holder.annotations) + Annotations(m, order[..i])
    {
      var wrapper := order[i];
      var items := m[wrapper];
      AnnotateItems(holder, wrapper, items);
      AnnotationsAppend(old(holder.annotations), m, order, i);
      i := i + 1;
    }
    assert order[..i] == order;
  }

  /** The inner loop of the apply pass: one annotation per item of one connection, in item order. */
  method AnnotateItems(holder: AnnotationHolder, wrapper: LanguageServerWrapper, items: seq<ItemInfo>)
    modifies holder
    ensures holder.annotations == old(holder.annotations) + AnnotationsOf(wrapper, items)
  {
    var j := 0;
    while j < |items|
      invariant 0 <= j <= |items|
      invariant holder.annotations == old(holder.annotations) + AnnotationsOf(wrapper, items)[..j]
    {
      var builder := BuildAnnotation(wrapper, items[j]);
      holder.Create(builder);
      PrefixStep(AnnotationsOf(wrapper, items), j);
      j := j + 1;
    }
    assert AnnotationsOf(wrapper, items)[..j] == AnnotationsOf(wrapper, items);
  }
}
