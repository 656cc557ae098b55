/**
 * Properties of the annotator that relate its passes to one another or
 * that hold for every iteration order of the item map: which requests are
 * sent to which connection, how many requests and annotations there are,
 * how an answer (or its absence) reaches an item, and what annotation a
 * marker ends up as.
 */
module AnnotatorProperties {
  import opened LspTypes
  import opened CodeActionAnnotator

  // ---------------------------------------------------------------------
  // Sums over a walk, and why the walk order does not matter
  // ---------------------------------------------------------------------

  function SumBy<T>(s: seq<T>, weight: T -> nat): nat
  {
    if s == [] then 0 else SumBy(s[..|s| - 1], weight) + weight(s[|s| - 1])
  }

  lemma {:induction false} SumByConcat<T>(a: seq<T>, b: seq<T>, weight: T -> nat)
    ensures SumBy(a + b, weight) == SumBy(a, weight) + SumBy(b, weight)
    decreases |b|
  {
    if b == [] {
      assert a + b == a;
    } else {
      var init := b[..|b| - 1];
      assert (a + b)[..|a + b| - 1] == a + init;
      SumByConcat(a, init, weight);
    }
  }

  /** Taking one element out of a sequence takes its weight out of the sum. */
  lemma SumByRemove<T>(s: seq<T>, j: nat, weight: T -> nat)
    requires j < |s|
    ensures multiset(s) == multiset(s[..j] + s[j + 1..]) + multiset{s[j]}
    ensures SumBy(s, weight) == SumBy(s[..j] + s[j + 1..], weight) + weight(s[j])
  {
    var before, x, after := s[..j], s[j], s[j + 1..];
    SplitAt(s, j);
    assert multiset(s) == multiset(before) + multiset{x} + multiset(after);
    SumByConcat(before + [x], after, weight);
    SumBySnoc(before, x, weight);
    SumByConcat(before, after, weight);
  }

  lemma SplitAt<T>(s: seq<T>, j: nat)
    requires j < |s|
    ensures s == (s[..j] + [s[j]]) + s[j + 1..]
  {
  }

  lemma SumBySnoc<T>(s: seq<T>, x: T, weight: T -> nat)
    ensures SumBy(s + [x], weight) == SumBy(s, weight) + weight(x)
  {
    assert (s + [x])[..|s|] == s;
  }

  lemma MultisetCancel<T>(a: multiset<T>, b: multiset<T>, x: T)
    requires a + multiset{x} == b + multiset{x}
    ensures a == b
  {
    assert a == a + multiset{x} - multiset{x};
    assert b == b + multiset{x} - multiset{x};
  }

  /** A sum over a sequence depends only on the multiset of its elements. */
  lemma {:induction false} SumByMultiset<T>(s1: seq<T>, s2: seq<T>, weight: T -> nat)
    requires multiset(s1) == multiset(s2)
    ensures SumBy(s1, weight) == SumBy(s2, weight)
    decreases |s1|
  {
    if s1 == [] {
      assert |s2| == |multiset(s2)| == 0;
    } else {
      var x := s1[|s1| - 1];
      var init := s1[..|s1| - 1];
      assert s1 == init + [x];
      assert multiset(s1) == multiset(init) + multiset{x};
      assert x in multiset(s2);
      var j :| 0 <= j < |s2| && s2[j] == x;
      var rest := s2[..j] + s2[j + 1..];
      SumByRemove(s2, j, weight);
      MultisetCancel(multiset(init), multiset(rest), x);
      SumByMultiset(init, rest, weight);
    }
  }

  lemma {:induction false} DistinctMultiplicity<T>(s: seq<T>, x: T)
    requires Distinct(s)
    ensures multiset(s)[x] == if x in s then 1 else 0
    decreases |s|
  {
    if s != [] {
      var init := s[..|s| - 1];
      assert s == init + [s[|s| - 1]];
      DistinctInit(s);
      DistinctMultiplicity(init, x);
    }
  }

  /** Two iteration orders of the same map list the same connections. */
  lemma EnumerationsAgree(o1: seq<LanguageServerWrapper>, o2: seq<LanguageServerWrapper>, m: ItemMap)
    requires Enumerates(o1, m) && Enumerates(o2, m)
    ensures multiset(o1) == multiset(o2)
  {
    forall x
      ensures multiset(o1)[x] == multiset(o2)[x]
    {
      DistinctMultiplicity(o1, x);
      DistinctMultiplicity(o2, x);
    }
  }

  // ---------------------------------------------------------------------
  // Requests: how many, to whom, and what they carry
  // ---------------------------------------------------------------------

  /** The number of requests a connection's items give rise to. */
  function SupportedWeight(m: ItemMap): LanguageServerWrapper -> nat
  {
    (w: LanguageServerWrapper) => if SupportsCodeAction(w.capabilities) then |ItemsIn(m, w)| else 0
  }

  /** The number of annotations a connection's items give rise to. */
  function ItemWeight(m: ItemMap): LanguageServerWrapper -> nat
  {
    (w: LanguageServerWrapper) => |ItemsIn(m, w)|
  }

  /** One request per item of every connection that supports code actions. */
  lemma {:induction false} DispatchedCount(file: VirtualFile, m: ItemMap, order: seq<LanguageServerWrapper>)
    ensures |Dispatched(file, m, order)| == SumBy(order, SupportedWeight(m))
    decreases |order|
  {
    if order != [] {
      DispatchedCount(file, m, order[..|order| - 1]);
    }
  }

  /** One annotation per item of every connection, supported or not. */
  lemma {:induction false} AnnotationCount(m: ItemMap, order: seq<LanguageServerWrapper>)
    ensures |Annotations(m, order)| == SumBy(order, ItemWeight(m))
    decreases |order|
  {
    if order != [] {
      AnnotationCount(m, order[..|order| - 1]);
    }
  }

  /** The requests of a walk that are sent to `w`, in sending order. */
  function RequestsTo(requests: seq<CodeActionRequest>, w: LanguageServerWrapper): (sent: seq<CodeActionRequest>)
    ensures forall r :: r in sent ==> r in requests && r.target == w
    ensures |sent| <= |requests|
  {
    if requests == [] then []
    else
      var earlier := RequestsTo(requests[..|requests| - 1], w);
      var last := requests[|requests| - 1];
      if last.target == w then earlier + [last] else earlier
  }

  lemma {:induction false} RequestsToConcat(a: seq<CodeActionRequest>, b: seq<CodeActionRequest>, w: LanguageServerWrapper)
    ensures RequestsTo(a + b, w) == RequestsTo(a, w) + RequestsTo(b, w)
    decreases |b|
  {
    if b == [] {
      assert a + b == a;
    } else {
      var init := b[..|b| - 1];
      assert (a + b)[..|a + b| - 1] == a + init;
      RequestsToConcat(a, init, w);
    }
  }

  lemma {:induction false} RequestsToUniform(requests: seq<CodeActionRequest>, v: LanguageServerWrapper, w: LanguageServerWrapper)
    requires forall k :: 0 <= k < |requests| ==> requests[k].target == v
    ensures RequestsTo(requests, w) == if v == w then requests else []
    decreases |requests|
  {
    if requests != [] {
      var init := requests[..|requests| - 1];
      RequestsToUniform(init, v, w);
      assert init + [requests[|requests| - 1]] == requests;
    }
  }

  /**
   * Over a walk that lists each connection at most once, the requests sent
   * to a connection are exactly the requests for its own items, in item
   * order, whatever the other connections are.
   */
  lemma {:induction false} DispatchedTo(file: VirtualFile, m: ItemMap, order: seq<LanguageServerWrapper>,
                                        w: LanguageServerWrapper)
    requires Distinct(order)
    ensures RequestsTo(Dispatched(file, m, order), w) == if w in order then RequestsOf(file, w, ItemsIn(m, w)) else []
    decreases |order|
  {
    if order != [] {
      var init := order[..|order| - 1];
      var v := order[|order| - 1];
      assert order == init + [v];
      DistinctInit(order);
      DispatchedTo(file, m, init, w);
      RequestsToConcat(Dispatched(file, m, init), RequestsOf(file, v, ItemsIn(m, v)), w);
      RequestsToUniform(RequestsOf(file, v, ItemsIn(m, v)), v, w);
    }
  }

  /**
   * The cross product of markers and capable connections: a connection that
   * supports code actions receives one request per item, the j-th naming the
   * j-th item's diagnostic; any other connection receives none.
   */
  lemma DispatchedPerConnection(file: VirtualFile, m: ItemMap, order: seq<LanguageServerWrapper>,
                                w: LanguageServerWrapper)
    requires Enumerates(order, m)
    ensures var sent := RequestsTo(Dispatched(file, m, order), w);
      && |sent| == (if w in m && SupportsCodeAction(w.capabilities) then |m[w]| else 0)
      && (w in m && SupportsCodeAction(w.capabilities) ==>
            forall j :: 0 <= j < |sent| ==> sent[j].params == RequestParams(file, m[w][j].highlighter.diagnostic))
  {
    DispatchedTo(file, m, order, w);
  }

  /**
   * Every dispatched request goes to a listed connection that supports code
   * actions, and names exactly one diagnostic, that of one of its items,
   * with the diagnostic's own range.
   */
  lemma {:induction false} DispatchedShape(file: VirtualFile, m: ItemMap, order: seq<LanguageServerWrapper>,
                                           r: CodeActionRequest)
    requires r in Dispatched(file, m, order)
    ensures r.target in order && SupportsCodeAction(r.target.capabilities)
    ensures exists j ::
      (0 <= j < |ItemsIn(m, r.target)| && r.params == RequestParams(file, ItemsIn(m, r.target)[j].highlighter.diagnostic))
    ensures |r.params.context.diagnostics| == 1 && r.params.range == r.params.context.diagnostics[0].range
    ensures r.params.textDocument.uri == file.uri
    decreases |order|
  {
    var init := order[..|order| - 1];
    var v := order[|order| - 1];
    var tail := RequestsOf(file, v, ItemsIn(m, v));
    if r in Dispatched(file, m, init) {
      DispatchedShape(file, m, init, r);
      assert order == init + [v];
    } else {
      assert r in tail;
      var j :| 0 <= j < |tail| && tail[j] == r;
      assert r.params == RequestParams(file, ItemsIn(m, v)[j].highlighter.diagnostic);
    }
  }

  /**
   * The number of requests, the number of annotations and the requests each
   * connection receives do not depend on the hash map's iteration order.
   */
  lemma WalkOrderIrrelevant(file: VirtualFile, m: ItemMap, o1: seq<LanguageServerWrapper>, o2: seq<LanguageServerWrapper>,
                            w: LanguageServerWrapper)
    requires Enumerates(o1, m) && Enumerates(o2, m)
    ensures |Dispatched(file, m, o1)| == |Dispatched(file, m, o2)|
    ensures |Annotations(m, o1)| == |Annotations(m, o2)|
    ensures RequestsTo(Dispatched(file, m, o1), w) == RequestsTo(Dispatched(file, m, o2), w)
  {
    EnumerationsAgree(o1, o2, m);
    DispatchedCount(file, m, o1);
    DispatchedCount(file, m, o2);
    SumByMultiset(o1, o2, SupportedWeight(m));
    AnnotationCount(m, o1);
    AnnotationCount(m, o2);
    SumByMultiset(o1, o2, ItemWeight(m));
    DispatchedTo(file, m, o1, w);
    DispatchedTo(file, m, o2, w);
  }

  // ---------------------------------------------------------------------
  // Answers
  // ---------------------------------------------------------------------

  /**
   * An item keeps its element and marker; it takes the answer to its own
   * request when its connection supports code actions and the answer
   * was stored, and keeps its actions otherwise.
   */
  lemma ResolvedItem(m: ItemMap, answers: map<ItemKey, Option<seq<Action>>>, w: LanguageServerWrapper, j: nat)
    requires w in m && j < |m[w]|
    ensures w in Resolved(m, answers) && |Resolved(m, answers)[w]| == |m[w]|
    ensures var before, after := m[w][j], Resolved(m, answers)[w][j];
      && after.element == before.element
      && after.highlighter == before.highlighter
      && after.actions == (if SupportsCodeAction(w.capabilities) && (w, j) in answers then answers[(w, j)] else before.actions)
  {
  }

  /** Resolution neither adds nor drops connections. */
  lemma ResolvedKeys(m: ItemMap, answers: map<ItemKey, Option<seq<Action>>>)
    ensures Resolved(m, answers).Keys == m.Keys
  {
  }

  /**
   * A request that fails or times out (its answer missing) affects no other
   * item: every other item resolves as if that request had succeeded.
   */
  lemma FailureIsolated(m: ItemMap, answers: map<ItemKey, Option<seq<Action>>>, failed: ItemKey,
                        w: LanguageServerWrapper, j: nat)
    requires w in m && j < |m[w]| && failed != (w, j)
    ensures Resolved(m, answers - {failed})[w][j] == Resolved(m, answers)[w][j]
  {
  }

  // ---------------------------------------------------------------------
  // Annotations
  // ---------------------------------------------------------------------

  /**
   * The apply pass annotates exactly the items of the listed connections:
   * every item's annotation is created, and every created annotation is
   * that of some item.
   */
  lemma {:induction false} AnnotationsExactly(m: ItemMap, order: seq<LanguageServerWrapper>, a: Annotation)
    ensures a in Annotations(m, order) <==>
      exists w, j :: w in order && 0 <= j < |ItemsIn(m, w)| && a == AnnotationOf(w, ItemsIn(m, w)[j])
  {
    if a in Annotations(m, order) {
      AnnotationFromItem(m, order, a);
    }
    if exists w, j :: w in order && 0 <= j < |ItemsIn(m, w)| && a == AnnotationOf(w, ItemsIn(m, w)[j]) {
      var w, j :| w in order && 0 <= j < |ItemsIn(m, w)| && a == AnnotationOf(w, ItemsIn(m, w)[j]);
      ItemAnnotated(m, order, w, j);
    }
  }

  /** Every created annotation is that of some item of a listed connection. */
  lemma {:induction false} AnnotationFromItem(m: ItemMap, order: seq<LanguageServerWrapper>, a: Annotation)
    requires a in Annotations(m, order)
    ensures exists w, j :: w in order && 0 <= j < |ItemsIn(m, w)| && a == AnnotationOf(w, ItemsIn(m, w)[j])
    decreases |order|
  {
    var init := order[..|order| - 1];
    var v := order[|order| - 1];
    var tail := AnnotationsOf(v, ItemsIn(m, v));
    assert order == init + [v];
    if a in tail {
      var j :| 0 <= j < |tail| && tail[j] == a;
      assert v in order && a == AnnotationOf(v, ItemsIn(m, v)[j]);
    } else {
      AnnotationFromItem(m, init, a);
      var w, j :| w in init && 0 <= j < |ItemsIn(m, w)| && a == AnnotationOf(w, ItemsIn(m, w)[j]);
      assert w in order;
    }
  }

  /** Every item of a listed connection has its annotation created. */
  lemma {:induction false} ItemAnnotated(m: ItemMap, order: seq<LanguageServerWrapper>, w: LanguageServerWrapper, j: nat)
    requires w in order && j < |ItemsIn(m, w)|
    ensures AnnotationOf(w, ItemsIn(m, w)[j]) in Annotations(m, order)
    decreases |order|
  {
    var init := order[..|order| - 1];
    var v := order[|order| - 1];
    assert order == init + [v];
    if w == v {
      assert AnnotationsOf(v, ItemsIn(m, v))[j] == AnnotationOf(w, ItemsIn(m, w)[j]);
    } else {
      assert w in init;
      ItemAnnotated(m, init, w, j);
    }
  }

  /**
   * From marker to annotation: with distinct connections, the j-th marker
   * the editor holds for a listed connection's server is annotated with its
   * diagnostic's mapped severity, its message as title and tooltip, the
   * element it binds to, and one fix per action of the answer to its
   * request (none when the connection does not support code actions or no
   * answer was stored).
   */
  lemma PipelineAnnotation(wrappers: seq<LanguageServerWrapper>, store: MarkerStore, editor: Editor,
                           answers: map<ItemKey, Option<seq<Action>>>, w: LanguageServerWrapper, j: nat)
    requires InDocument(store, editor) && Distinct(wrappers) && w in wrappers
    requires j < |MarkersOf(store, editor, w.serverId)|
    ensures var m := Resolved(Collected(wrappers, store, editor), answers);
            var h := MarkersOf(store, editor, w.serverId)[j];
            && h.startOffset <= h.endOffset <= |editor.documentText|
            && w in m && j < |m[w]|
            && AnnotationOf(w, m[w][j]) ==
               Annotation(HighlightType(h.diagnostic.severity), h.diagnostic.message,
                          BindElement(h, editor.documentText), h.diagnostic.message,
                          if SupportsCodeAction(w.capabilities) && (w, j) in answers then Fixes(w, answers[(w, j)]) else [])
  {
    var collected := Collected(wrappers, store, editor);
    var markers := MarkersOf(store, editor, w.serverId);
    assert markers[j] in store[(editor.id, w.serverId)];
    CollectedKeys(wrappers, store, editor, w);
    CollectedItems(wrappers, store, editor, w);
    ResolvedItem(collected, answers, w, j);
  }

  /**
   * Two connections to different servers, both supporting code actions;
   * the editor holds one error marker over a non-empty span under the first
   * server's id and none under the second's, and the first server answered
   * its request with one action. Markers are looked up by the connection's
   * server id, so the second connection has no item and is sent no request,
   * and the apply pass creates exactly one annotation, over that span, with
   * exactly one fix.
   */
  lemma OneMarkerTwoConnections(file: VirtualFile, editor: Editor, first: LanguageServerWrapper,
                                second: LanguageServerWrapper, h: RangeHighlighter, action: Action)
    requires first.serverId != second.serverId
    requires SupportsCodeAction(first.capabilities) && SupportsCodeAction(second.capabilities)
    requires h.startOffset < h.endOffset <= |editor.documentText| && h.diagnostic.severity == Error
    ensures var store: MarkerStore := map[(editor.id, first.serverId) := [h]];
            var collected := Collected([first, second], store, editor);
            var resolved := Resolved(collected, map[(first, 0) := Some([action])]);
            && collected.Keys == {first}
            && Dispatched(file, collected, [first]) == [CodeActionRequest(first, RequestParams(file, h.diagnostic))]
            && Annotations(resolved, [first]) ==
               [Annotation(ERROR, h.diagnostic.message,
                           LSPPsiElement(h.startOffset, h.endOffset, editor.documentText[h.startOffset..h.endOffset]),
                           h.diagnostic.message, [LSPCodeActionIntentionAction(action, first)])]
  {
    var store: MarkerStore := map[(editor.id, first.serverId) := [h]];
    var collected := Collected([first, second], store, editor);
    var answers := map[(first, 0) := Some([action])];
    var resolved := Resolved(collected, answers);
    var element := LSPPsiElement(h.startOffset, h.endOffset, editor.documentText[h.startOffset..h.endOffset]);
    OneMarkerCollected(editor, first, second, h);
    ResolvedItem(collected, answers, first, 0);
    assert resolved[first] == [ItemInfo(element, h, Some([action]))];
    assert [first][..0] == [];
    assert Dispatched(file, collected, [first]) == RequestsOf(file, first, collected[first]);
    assert Annotations(resolved, [first]) == AnnotationsOf(first, resolved[first]);
    assert Fixes(first, Some([action])) == [LSPCodeActionIntentionAction(action, first)];
  }

  /** The collection half of the scenario above: one item, for the first connection only. */
  lemma OneMarkerCollected(editor: Editor, first: LanguageServerWrapper, second: LanguageServerWrapper, h: RangeHighlighter)
    requires first.serverId != second.serverId
    requires h.startOffset < h.endOffset <= |editor.documentText|
    ensures var store: MarkerStore := map[(editor.id, first.serverId) := [h]];
            var collected := Collected([first, second], store, editor);
            && collected.Keys == {first}
            && collected[first] ==
               [ItemInfo(LSPPsiElement(h.startOffset, h.endOffset, editor.documentText[h.startOffset..h.endOffset]), h, None)]
  {
    var store: MarkerStore := map[(editor.id, first.serverId) := [h]];
    var collected := Collected([first, second], store, editor);
    assert MarkersOf(store, editor, first.serverId) == [h];
    assert MarkersOf(store, editor, second.serverId) == [];
    forall w
      ensures w in collected <==> w == first
    {
      CollectedKeys([first, second], store, editor, w);
    }
    assert Distinct([first, second]);
    CollectedItems([first, second], store, editor, first);
  }

  /**
   * Two distinct connections that both hold the same error marker, both
   * supporting code actions, of which only the first answers: two requests
   * go out, one per connection, and two annotations over the marker's span
   * are created, the first with the answered fix and the second with none.
   */
  lemma SharedMarkerOneAnswer(file: VirtualFile, editor: Editor, first: LanguageServerWrapper,
                              second: LanguageServerWrapper, h: RangeHighlighter, action: Action)
    requires first != second
    requires SupportsCodeAction(first.capabilities) && SupportsCodeAction(second.capabilities)
    requires h.startOffset < h.endOffset <= |editor.documentText| && h.diagnostic.severity == Error
    ensures var store: MarkerStore := map[(editor.id, first.serverId) := [h], (editor.id, second.serverId) := [h]];
            var collected := Collected([first, second], store, editor);
            var resolved := Resolved(collected, map[(first, 0) := Some([action])]);
            var element := LSPPsiElement(h.startOffset, h.endOffset, editor.documentText[h.startOffset..h.endOffset]);
            var message := h.diagnostic.message;
            && Dispatched(file, collected, [first, second]) ==
               [CodeActionRequest(first, RequestParams(file, h.diagnostic)),
                CodeActionRequest(second, RequestParams(file, h.diagnostic))]
            && Annotations(resolved, [first, second]) ==
               [Annotation(ERROR, message, element, message, [LSPCodeActionIntentionAction(action, first)]),
                Annotation(ERROR, message, element, message, [])]
  {
    var store: MarkerStore := map[(editor.id, first.serverId) := [h], (editor.id, second.serverId) := [h]];
    var collected := Collected([first, second], store, editor);
    var answers := map[(first, 0) := Some([action])];
    var resolved := Resolved(collected, answers);
    var element := LSPPsiElement(h.startOffset, h.endOffset, editor.documentText[h.startOffset..h.endOffset]);
    SharedMarkerCollected(editor, first, second, h);
    ResolvedItem(collected, answers, first, 0);
    ResolvedItem(collected, answers, second, 0);
    var answered := ItemInfo(element, h, Some([action]));
    var unanswered := ItemInfo(element, h, None);
    assert resolved[first] == [answered];
    assert resolved[second] == [unanswered];
    TwoStepDispatched(file, collected, first, second, unanswered);
    TwoStepAnnotations(resolved, first, second, answered, unanswered);
    assert Fixes(first, Some([action])) == [LSPCodeActionIntentionAction(action, first)];
  }

  /** Walking two capable connections with one item each dispatches one request per connection. */
  lemma TwoStepDispatched(file: VirtualFile, m: ItemMap, first: LanguageServerWrapper, second: LanguageServerWrapper,
                          item: ItemInfo)
    requires SupportsCodeAction(first.capabilities) && SupportsCodeAction(second.capabilities)
    requires ItemsIn(m, first) == [item] && ItemsIn(m, second) == [item]
    ensures Dispatched(file, m, [first, second]) ==
            [CodeActionRequest(first, RequestParams(file, item.highlighter.diagnostic)),
             CodeActionRequest(second, RequestParams(file, item.highlighter.diagnostic))]
  {
    var order := [first, second];
    DispatchedStep(file, m, order, 0);
    DispatchedStep(file, m, order, 1);
    assert order[..0] == [] && order[..2] == order;
  }

  /** Walking two connections with one item each creates their two annotations, in walk order. */
  lemma TwoStepAnnotations(m: ItemMap, first: LanguageServerWrapper, second: LanguageServerWrapper,
                           firstItem: ItemInfo, secondItem: ItemInfo)
    requires ItemsIn(m, first) == [firstItem] && ItemsIn(m, second) == [secondItem]
    ensures Annotations(m, [first, second]) == [AnnotationOf(first, firstItem), AnnotationOf(second, secondItem)]
  {
    var order := [first, second];
    AnnotationsStep(m, order, 0);
    AnnotationsStep(m, order, 1);
    assert order[..0] == [] && order[..2] == order;
  }

  /** The collection half of the scenario above: one item for each connection. */
  lemma SharedMarkerCollected(editor: Editor, first: LanguageServerWrapper, second: LanguageServerWrapper, h: RangeHighlighter)
    requires first != second
    requires h.startOffset < h.endOffset <= |editor.documentText|
    ensures var store: MarkerStore := map[(editor.id, first.serverId) := [h], (editor.id, second.serverId) := [h]];
            var collected := Collected([first, second], store, editor);
            var item := ItemInfo(LSPPsiElement(h.startOffset, h.endOffset, editor.documentText[h.startOffset..h.endOffset]), h, None);
            && collected.Keys == {first, second}
            && collected[first] == [item] && collected[second] == [item]
  {
    var store: MarkerStore := map[(editor.id, first.serverId) := [h], (editor.id, second.serverId) := [h]];
    assert MarkersOf(store, editor, first.serverId) == [h];
    assert MarkersOf(store, editor, second.serverId) == [h];
    SharedMarkerKeys(editor, first, second, h);
    assert Distinct([first, second]);
    CollectedItems([first, second], store, editor, first);
    CollectedItems([first, second], store, editor, second);
  }

  lemma SharedMarkerKeys(editor: Editor, first: LanguageServerWrapper, second: LanguageServerWrapper, h: RangeHighlighter)
    requires h.startOffset < h.endOffset <= |editor.documentText|
    ensures var store: MarkerStore := map[(editor.id, first.serverId) := [h], (editor.id, second.serverId) := [h]];
            Collected([first, second], store, editor).Keys == {first, second}
  {
    var store: MarkerStore := map[(editor.id, first.serverId) := [h], (editor.id, second.serverId) := [h]];
    var collected := Collected([first, second], store, editor);
    assert MarkersOf(store, editor, first.serverId) == [h];
    assert MarkersOf(store, editor, second.serverId) == [h];
    forall w
      ensures w in collected <==> w == first || w == second
    {
      CollectedKeys([first, second], store, editor, w);
    }
  }
}
