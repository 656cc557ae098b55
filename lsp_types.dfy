/**
 * The Language Server Protocol values that the annotator and the quick fix
 * exchange with a language server, as far as this model needs them.
 * Positions and ranges are line/character pairs; a diagnostic keeps its
 * range, its severity and its message.
 */
module LspTypes {

  /** A value that may be absent (Java's null). */
  datatype Option<+T> = None | Some(value: T)

  /** LSP4J's Either: a value of one of two types. */
  datatype Either<+L, +R> = Left(left: L) | Right(right: R)

  datatype Position = Position(line: nat, character: nat)

  datatype Range = Range(start: Position, end: Position)

  /** The four severities of the Language Server Protocol. */
  datatype DiagnosticSeverity = Error | Warning | Information | Hint

  /** The protocol's wire code of a severity: 1 is the most severe. */
  function SeverityCode(severity: DiagnosticSeverity): (code: int)
    ensures 1 <= code <= 4
    ensures code == 1 <==> severity == Error
    ensures code == 4 <==> severity == Hint
  {
    match severity
    case Error => 1
    case Warning => 2
    case Information => 3
    case Hint => 4
  }

  datatype Diagnostic = Diagnostic(range: Range, severity: DiagnosticSeverity, message: string)

  /** A server-side command a client can run. */
  datatype Command = Command(title: string, command: string, arguments: seq<string>)

  /** A concrete code action; its workspace edit is not modelled. */
  datatype CodeAction = CodeAction(title: string, kind: Option<string>, diagnostics: seq<Diagnostic>)

  /** What a server answers to textDocument/codeAction: commands or code actions. */
  type Action = Either<Command, CodeAction>

  datatype CodeActionOptions = CodeActionOptions(codeActionKinds: Option<seq<string>>)

  /** The part of a server's capabilities that the annotator consults. */
  datatype ServerCapabilities = ServerCapabilities(codeActionProvider: Option<Either<bool, CodeActionOptions>>)

  datatype TextDocumentIdentifier = TextDocumentIdentifier(uri: string)

  datatype CodeActionContext = CodeActionContext(diagnostics: seq<Diagnostic>)

  /** The parameters of a textDocument/codeAction request. */
  datatype CodeActionParams = CodeActionParams(textDocument: TextDocumentIdentifier, range: Range, context: CodeActionContext)
}
