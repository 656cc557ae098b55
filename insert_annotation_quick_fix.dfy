/**
 * The quick fix that proposes inserting missing Java annotations.
 *
 * Given the fully qualified names of the annotations, it builds either one
 * code action inserting all of them or one code action per annotation. Each
 * proposal is labelled "Insert @A, @B" from the simple names, is bound to the
 * nearest enclosing variable, else method, else class of the covering node,
 * and is kept only when the context manages to convert it into a code
 * action (an oracle here).
 */
module InsertAnnotationQuickFix {
  import opened LspTypes
  import opened Sequences

  // ---------------------------------------------------------------------
  // Binding
  // ---------------------------------------------------------------------

  /** The PSI element kinds the binding cares about; every other element is Other. */
  datatype NodeKind = Variable | Method | Class | Other

  datatype PsiNode = PsiNode(id: nat, kind: NodeKind)

  /** A node together with its parents, nearest first (up to the file). */
  datatype NodeInTree = NodeInTree(node: PsiNode, parents: seq<PsiNode>)

  predicate HasKind(nodes: seq<PsiNode>, kind: NodeKind)
  {
    exists k :: 0 <= k < |nodes| && nodes[k].kind == kind
  }

  /** Position `i` holds the first node of the kind. */
  predicate NearestAt(nodes: seq<PsiNode>, kind: NodeKind, i: nat)
  {
    && i < |nodes|
    && nodes[i].kind == kind
    && forall k :: 0 <= k < i ==> nodes[k].kind != kind
  }

  /** The position of the first node of the given kind, if any. */
  function FirstOfKind(nodes: seq<PsiNode>, kind: NodeKind): (i: Option<nat>)
    ensures i.Some? ==> NearestAt(nodes, kind, i.value)
    ensures i.None? <==> !HasKind(nodes, kind)
  {
    if nodes == [] then None
    else if nodes[0].kind == kind then Some(0)
    else
      match FirstOfKind(nodes[1..], kind)
      case None => None
      case Some(j) => Some(j + 1)
  }

  /**
   * The nearest strict ancestor of the given kind; none for a missing node.
   * The node itself is never a candidate.
   */
  function ParentOfType(covering: Option<NodeInTree>, kind: NodeKind): (parent: Option<PsiNode>)
    ensures parent.Some? <==> covering.Some? && HasKind(covering.value.parents, kind)
    ensures parent.Some? ==>
      exists i: nat :: NearestAt(covering.value.parents, kind, i) && covering.value.parents[i] == parent.value
  {
    if covering.None? then None
    else
      match FirstOfKind(covering.value.parents, kind)
      case None => None
      case Some(i) => Some(covering.value.parents[i])
  }

  /**
   * The element the annotation is inserted on: the nearest enclosing
   * variable if there is one, otherwise the nearest enclosing method,
   * otherwise the nearest enclosing class, otherwise none.
   */
  function GetBinding(covering: Option<NodeInTree>): (binding: Option<PsiNode>)
    ensures binding.Some? ==> binding.value.kind != Other
    ensures binding.Some? ==>
      (covering.Some? &&
       exists i: nat :: NearestAt(covering.value.parents, binding.value.kind, i) && covering.value.parents[i] == binding.value)
    ensures (binding.Some? && binding.value.kind == Variable) <==>
      covering.Some? && HasKind(covering.value.parents, Variable)
    ensures (binding.Some? && binding.value.kind == Method) <==>
      covering.Some? && !HasKind(covering.value.parents, Variable) && HasKind(covering.value.parents, Method)
    ensures (binding.Some? && binding.value.kind == Class) <==>
      (covering.Some? && !HasKind(covering.value.parents, Variable) && !HasKind(covering.value.parents, Method) &&
       HasKind(covering.value.parents, Class))
    ensures binding.None? <==>
      (covering.None? ||
       (!HasKind(covering.value.parents, Variable) && !HasKind(covering.value.parents, Method) &&
        !HasKind(covering.value.parents, Class)))
  {
    var variable := ParentOfType(covering, Variable);
    if variable.Some? then variable
    else
      var enclosingMethod := ParentOfType(covering, Method);
      if enclosingMethod.Some? then enclosingMethod
      else ParentOfType(covering, Class)
  }

  /**
   * Precedence is by kind, not by distance: an enclosing variable wins even
   * over a method that is nearer to the node (a method of an anonymous class
   * inside a field initializer, say).
   */
  lemma VariableWinsOverNearerMethod(covering: NodeInTree, methodAt: nat, variableAt: nat)
    requires methodAt < variableAt < |covering.parents|
    requires covering.parents[methodAt].kind == Method && covering.parents[variableAt].kind == Variable
    ensures GetBinding(Some(covering)).Some? && GetBinding(Some(covering)).value.kind == Variable
  {
    assert HasKind(covering.parents, Variable);
  }

  // ---------------------------------------------------------------------
  // Label
  // ---------------------------------------------------------------------

  /** The last position holding `c`, or -1 when there is none. */
  function LastIndexOf(s: string, c: char): (i: int)
    ensures -1 <= i < |s|
    ensures i >= 0 ==> s[i] == c
    ensures forall k :: i < k < |s| ==> s[k] != c
  {
    if s == [] then -1
    else if s[|s| - 1] == c then |s| - 1
    else LastIndexOf(s[..|s| - 1], c)
  }

  /**
   * The simple name of a qualified annotation name: its longest suffix
   * without a '.', which is the whole name when it has no '.'.
   */
  function SimpleName(annotation: string): (name: string)
    ensures '.' !in name
    ensures |name| <= |annotation| && name == annotation[|annotation| - |name|..]
    ensures |name| < |annotation| ==> annotation[|annotation| - |name| - 1] == '.'
    ensures '.' !in annotation ==> name == annotation
  {
    annotation[LastIndexOf(annotation, '.') + 1..|annotation|]
  }

  /** The parts, with the separator between each two neighbours. */
  function Join(parts: seq<string>, separator: string): string
  {
    if |parts| == 0 then ""
    else if |parts| == 1 then parts[0]
    else Join(parts[..|parts| - 1], separator) + separator + parts[|parts| - 1]
  }

  /** "@" and the simple name, for each annotation in order. */
  function Mentions(annotations: seq<string>): seq<string>
  {
    if annotations == [] then []
    else Mentions(annotations[..|annotations| - 1]) + ["@" + SimpleName(annotations[|annotations| - 1])]
  }

  /** "Insert " followed by "@" and the simple name of each annotation, comma separated. */
  function Label(annotations: seq<string>): string
  {
    "Insert " + Join(Mentions(annotations), ", ")
  }

  /**
   * Concatenation is associative. Dafny knows this already; calling the
   * lemma at the exact terms only keeps the label proofs cheap.
   */
  lemma Associative(a: string, b: string, c: string)
    ensures (a + b) + c == a + (b + c)
  {
  }

  lemma {:induction false} MentionsLength(annotations: seq<string>)
    ensures |Mentions(annotations)| == |annotations|
    decreases |annotations|
  {
    if annotations != [] {
      MentionsLength(annotations[..|annotations| - 1]);
    }
  }

  lemma MentionsAppend(annotations: seq<string>, annotation: string)
    ensures Mentions(annotations + [annotation]) == Mentions(annotations) + ["@" + SimpleName(annotation)]
  {
    assert (annotations + [annotation])[..|annotations|] == annotations;
  }

  lemma JoinAppend(parts: seq<string>, separator: string, part: string)
    requires parts != []
    ensures Join(parts + [part], separator) == Join(parts, separator) + separator + part
  {
    assert (parts + [part])[..|parts|] == parts;
  }

  /**
   * Adding an annotation extends the label by "@" and its simple name,
   * preceded by ", " unless it is the first.
   */
  lemma LabelAppend(annotations: seq<string>, annotation: string)
    ensures |annotations| == 0 ==> Label(annotations + [annotation]) == Label(annotations) + "@" + SimpleName(annotation)
    ensures |annotations| > 0 ==> Label(annotations + [annotation]) == Label(annotations) + ", " + "@" + SimpleName(annotation)
  {
    var simple := SimpleName(annotation);
    var mention := "@" + simple;
    var mentions := Mentions(annotations);
    MentionsAppend(annotations, annotation);
    MentionsLength(annotations);
    if |annotations| == 0 {
      assert mentions + [mention] == [mention];
      Associative("Insert ", "@", simple);
    } else {
      var joined := Join(mentions, ", ");
      JoinAppend(mentions, ", ", mention);
      Associative("Insert ", joined + ", ", mention);
      Associative("Insert ", joined, ", ");
      Associative("Insert " + joined + ", ", "@", simple);
    }
  }

  /** The label after one more loop step, in the builder's own order of appends. */
  lemma LabelStep(annotations: seq<string>, i: nat)
    requires i < |annotations|
    ensures i > 0 ==> Label(annotations[..i + 1]) == Label(annotations[..i]) + ", " + "@" + SimpleName(annotations[i])
    ensures i == 0 ==> Label(annotations[..i + 1]) == Label(annotations[..i]) + "@" + SimpleName(annotations[i])
  {
    PrefixStep(annotations, i);
    LabelAppend(annotations[..i], annotations[i]);
  }

  /** The label builder's loop computes the label. */
  method GetLabel(annotations: seq<string>) returns (name: string)
    ensures name == Label(annotations)
  {
    name := "Insert ";
    var i := 0;
    while i < |annotations|
      invariant 0 <= i <= |annotations|
      invariant name == Label(annotations[..i])
    {
      var annotation := annotations[i];
      var annotationName := annotation[LastIndexOf(annotation, '.') + 1..|annotation|];
      assert annotationName == SimpleName(annotation);
      LabelStep(annotations, i);
      if i > 0 {
        name := name + ", ";
      }
      name := name + "@";
      name := name + annotationName;
      i := i + 1;
    }
    assert annotations[..i] == annotations;
  }

  lemma LabelOfNone()
    ensures Label([]) == "Insert "
  {
  }

  /** A single annotation is labelled with its simple name alone. */
  lemma LabelOfOne(annotation: string)
    ensures Label([annotation]) == "Insert @" + SimpleName(annotation)
  {
    LabelAppend([], annotation);
    assert [] + [annotation] == [annotation];
    Associative("Insert ", "@", SimpleName(annotation));
  }

  lemma LabelOfQualifiedName()
    ensures Label(["a.b.C"]) == "Insert @C"
  {
    LabelOfOne("a.b.C");
    assert LastIndexOf("a.b.C", '.') == 3;
  }

  // ---------------------------------------------------------------------
  // Proposals and emission
  // ---------------------------------------------------------------------

  /** The correction that inserts the annotations on the binding, under the given name. */
  datatype InsertAnnotationProposal = InsertAnnotationProposal(name: string, binding: Option<PsiNode>, annotations: seq<string>)

  /**
   * What the quick fix reads from its context: the covering node and the
   * conversion of a proposal into a code action (None when it fails).
   */
  datatype JavaCodeActionContext = JavaCodeActionContext(
    coveringNode: Option<NodeInTree>,
    convert: (InsertAnnotationProposal, Diagnostic) -> Option<CodeAction>)

  /** The proposal for a group of annotations. */
  function ProposalFor(context: JavaCodeActionContext, annotations: seq<string>): InsertAnnotationProposal
  {
    InsertAnnotationProposal(Label(annotations), GetBinding(context.coveringNode), annotations)
  }

  /** The code action for a group of annotations: one if the conversion succeeds, none otherwise. */
  function Converted(context: JavaCodeActionContext, diagnostic: Diagnostic, annotations: seq<string>): (actions: seq<CodeAction>)
    ensures |actions| <= 1
    ensures context.convert(ProposalFor(context, annotations), diagnostic) ==
            if actions == [] then None else Some(actions[0])
  {
    match context.convert(ProposalFor(context, annotations), diagnostic)
    case None => []
    case Some(action) => [action]
  }

  /** The results of converting each annotation on its own, concatenated in annotation order. */
  function Concatenated(annotations: seq<string>, convertOne: string -> seq<CodeAction>): seq<CodeAction>
  {
    if annotations == [] then []
    else Concatenated(annotations[..|annotations| - 1], convertOne) + convertOne(annotations[|annotations| - 1])
  }

  /** The conversion of a single annotation's proposal. */
  function OneAtATime(context: JavaCodeActionContext, diagnostic: Diagnostic): string -> seq<CodeAction>
  {
    (annotation: string) => Converted(context, diagnostic, [annotation])
  }

  /** One conversion per annotation, in annotation order. */
  function PerAnnotation(context: JavaCodeActionContext, diagnostic: Diagnostic, annotations: seq<string>): seq<CodeAction>
  {
    Concatenated(annotations, OneAtATime(context, diagnostic))
  }

  /** The code actions a quick fix emits for one diagnostic. */
  function Emitted(annotations: seq<string>, generateOnlyOneCodeAction: bool, context: JavaCodeActionContext,
                   diagnostic: Diagnostic): seq<CodeAction>
  {
    if generateOnlyOneCodeAction then Converted(context, diagnostic, annotations)
    else PerAnnotation(context, diagnostic, annotations)
  }

  /** The list the emitted code actions are appended to. */
  class CodeActionList {
    var elements: seq<CodeAction>

    constructor ()
      ensures elements == []
    {
      elements := [];
    }

    method Add(action: CodeAction)
      modifies this
      ensures elements == old(elements) + [action]
    {
      elements := elements + [action];
    }
  }

  class InsertAnnotationMissingQuickFix {
    const annotations: seq<string>
    const generateOnlyOneCodeAction: bool

    /** The annotations alone: one code action per annotation. */
    constructor (annotations: seq<string>)
      ensures this.annotations == annotations && !generateOnlyOneCodeAction
    {
      this.annotations := annotations;
      generateOnlyOneCodeAction := false;
    }

    constructor WithMode(generateOnlyOneCodeAction: bool, annotations: seq<string>)
      ensures this.annotations == annotations && this.generateOnlyOneCodeAction == generateOnlyOneCodeAction
    {
      this.annotations := annotations;
      this.generateOnlyOneCodeAction := generateOnlyOneCodeAction;
    }

    /** The code actions for one diagnostic, in a fresh list. */
    method GetCodeActions(context: JavaCodeActionContext, diagnostic: Diagnostic) returns (codeActions: seq<CodeAction>)
      ensures codeActions == Emitted(annotations, generateOnlyOneCodeAction, context, diagnostic)
    {
      var list := new CodeActionList();
      InsertAnnotations(diagnostic, context, list);
      codeActions := list.elements;
    }

    /**
     * Appends the emitted code actions to the caller's list, keeping what
     * the list already held.
     */
    method InsertAnnotations(diagnostic: Diagnostic, context: JavaCodeActionContext, codeActions: CodeActionList)
      modifies codeActions
      ensures codeActions.elements == old(codeActions.elements) + Emitted(annotations, generateOnlyOneCodeAction, context, diagnostic)
    {
      if generateOnlyOneCodeAction {
        InsertAnnotation(diagnostic, context, codeActions, annotations);
      } else {
        var i := 0;
        while i < |annotations|
          invariant 0 <= i <= |annotations|
          invariant codeActions.elements == old(codeActions.elements) + PerAnnotation(context, diagnostic, annotations[..i])
        {
          var annotationContext := context;
          InsertAnnotation(diagnostic, annotationContext, codeActions, [annotations[i]]);
          PerAnnotationAppend(old(codeActions.elements), context, diagnostic, annotations, i);
          i := i + 1;
        }
        assert annotations[..i] == annotations;
      }
    }

    /**
     * Proposes inserting the given annotations on the binding of the
     * covering node, and appends the converted code action when there is one.
     */
    method InsertAnnotation(diagnostic: Diagnostic, context: JavaCodeActionContext, codeActions: CodeActionList,
                            annotations: seq<string>)
      modifies codeActions
      ensures codeActions.elements == old(codeActions.elements) + Converted(context, diagnostic, annotations)
    {
      var name := GetLabel(annotations);
      var parentType := GetBinding(context.coveringNode);
      var proposal := InsertAnnotationProposal(name, parentType, annotations);
      var codeAction := context.convert(proposal, diagnostic);
      if codeAction.Some? {
        codeActions.Add(codeAction.value);
      }
    }
  }

  // ---------------------------------------------------------------------
  // Emission properties
  // ---------------------------------------------------------------------

  /**
   * One-action mode emits at most one code action, and it is the
   * conversion of the proposal that names and inserts every annotation.
   */
  lemma OneActionCoversAll(annotations: seq<string>, context: JavaCodeActionContext, diagnostic: Diagnostic)
    ensures |Emitted(annotations, true, context, diagnostic)| <= 1
    ensures forall a :: a in Emitted(annotations, true, context, diagnostic) ==>
      context.convert(InsertAnnotationProposal(Label(annotations), GetBinding(context.coveringNode), annotations), diagnostic) == Some(a)
  {
  }

  lemma ConcatenatedStep(annotations: seq<string>, convertOne: string -> seq<CodeAction>, i: nat)
    requires i < |annotations|
    ensures Concatenated(annotations[..i + 1], convertOne) == Concatenated(annotations[..i], convertOne) + convertOne(annotations[i])
  {
    assert annotations[..i + 1][..i] == annotations[..i];
  }

  lemma PerAnnotationAppend(before: seq<CodeAction>, context: JavaCodeActionContext, diagnostic: Diagnostic,
                            annotations: seq<string>, i: nat)
    requires i < |annotations|
    ensures before + PerAnnotation(context, diagnostic, annotations[..i + 1]) ==
            before + PerAnnotation(context, diagnostic, annotations[..i]) + Converted(context, diagnostic, [annotations[i]])
  {
    ConcatenatedStep(annotations, OneAtATime(context, diagnostic), i);
  }

  /** The positions of the annotations whose conversion yields an action, in order. */
  function Sources(annotations: seq<string>, convertOne: string -> seq<CodeAction>): (sources: seq<nat>)
    ensures forall k :: 0 <= k < |sources| ==> sources[k] < |annotations|
  {
    if annotations == [] then []
    else
      var n := |annotations| - 1;
      Sources(annotations[..n], convertOne) + (if convertOne(annotations[n]) != [] then [n] else [])
  }

  predicate StrictlyIncreasing(positions: seq<nat>)
  {
    forall k, l :: 0 <= k < l < |positions| ==> positions[k] < positions[l]
  }

  lemma {:induction false} SourcesIncrease(annotations: seq<string>, convertOne: string -> seq<CodeAction>)
    ensures StrictlyIncreasing(Sources(annotations, convertOne))
    decreases |annotations|
  {
    if annotations != [] {
      var n := |annotations| - 1;
      var earlier := Sources(annotations[..n], convertOne);
      SourcesIncrease(annotations[..n], convertOne);
      var sources := Sources(annotations, convertOne);
      assert sources == earlier + (if convertOne(annotations[n]) != [] then [n] else []);
      forall k, l | 0 <= k < l < |sources|
        ensures sources[k] < sources[l]
      {
        if |earlier| <= l {
          assert sources[l] == n && sources[k] == earlier[k];
        } else {
          assert sources[l] == earlier[l] && sources[k] == earlier[k];
        }
      }
    }
  }

  /** An annotation's position is a source exactly when its conversion yields an action. */
  lemma {:induction false} SourcesComplete(annotations: seq<string>, convertOne: string -> seq<CodeAction>)
    ensures forall i :: 0 <= i < |annotations| ==>
      (i in Sources(annotations, convertOne) <==> convertOne(annotations[i]) != [])
    decreases |annotations|
  {
    if annotations != [] {
      var n := |annotations| - 1;
      var init := annotations[..n];
      SourcesComplete(init, convertOne);
      forall i | 0 <= i < n
        ensures annotations[i] == init[i]
      {
      }
    }
  }

  /**
   * When each conversion yields at most one action, the k-th concatenated
   * action is the one that the annotation at sources[k] yields.
   */
  lemma {:induction false} ConcatenatedFromSources(annotations: seq<string>, convertOne: string -> seq<CodeAction>)
    requires forall a :: |convertOne(a)| <= 1
    ensures var emitted, sources := Concatenated(annotations, convertOne), Sources(annotations, convertOne);
      && |emitted| == |sources|
      && forall k :: 0 <= k < |emitted| ==> convertOne(annotations[sources[k]]) == [emitted[k]]
    decreases |annotations|
  {
    if annotations != [] {
      var n := |annotations| - 1;
      var init := annotations[..n];
      ConcatenatedFromSources(init, convertOne);
      var earlier := Sources(init, convertOne);
      forall k | 0 <= k < |earlier|
        ensures annotations[earlier[k]] == init[earlier[k]]
      {
      }
    }
  }

  /**
   * Per-annotation mode emits one code action for exactly those annotations
   * whose proposal converts, in annotation order: the k-th action comes
   * from the annotation at sources[k], the sources increase strictly, and so
   * there are at most as many actions as annotations.
   */
  lemma PerAnnotationInOrder(annotations: seq<string>, context: JavaCodeActionContext, diagnostic: Diagnostic)
    ensures var emitted, sources := Emitted(annotations, false, context, diagnostic),
                                    Sources(annotations, OneAtATime(context, diagnostic));
      && |emitted| == |sources| <= |annotations|
      && StrictlyIncreasing(sources)
      && (forall k :: 0 <= k < |emitted| ==>
            context.convert(ProposalFor(context, [annotations[sources[k]]]), diagnostic) == Some(emitted[k]))
      && (forall i :: 0 <= i < |annotations| ==>
            (i in sources <==> context.convert(ProposalFor(context, [annotations[i]]), diagnostic).Some?))
  {
    var convertOne := OneAtATime(context, diagnostic);
    var sources := Sources(annotations, convertOne);
    SourcesIncrease(annotations, convertOne);
    SourcesComplete(annotations, convertOne);
    ConcatenatedFromSources(annotations, convertOne);
    SourcesBounded(sources, |annotations|);
  }

  /** A strictly increasing sequence of positions below n has at most n elements. */
  lemma {:induction false} SourcesBounded(sources: seq<nat>, n: nat)
    requires forall k :: 0 <= k < |sources| ==> sources[k] < n
    requires StrictlyIncreasing(sources)
    ensures |sources| <= n
    decreases n
  {
    if sources != [] {
      var init := sources[..|sources| - 1];
      assert forall k :: 0 <= k < |init| ==> init[k] < sources[|sources| - 1] <= n - 1;
      SourcesBounded(init, n - 1);
    }
  }

  /** Each per-annotation proposal is labelled with its single annotation. */
  lemma PerAnnotationLabels(context: JavaCodeActionContext, annotation: string)
    ensures ProposalFor(context, [annotation]).name == "Insert @" + SimpleName(annotation)
  {
    LabelOfOne(annotation);
  }

  /** A quick fix built from the annotations alone emits one code action per converting annotation. */
  method DefaultModeEmitsPerAnnotation(annotations: seq<string>, context: JavaCodeActionContext, diagnostic: Diagnostic)
    returns (codeActions: seq<CodeAction>)
    ensures codeActions == PerAnnotation(context, diagnostic, annotations)
  {
    var fix := new InsertAnnotationMissingQuickFix(annotations);
    codeActions := fix.GetCodeActions(context, diagnostic);
  }
}
