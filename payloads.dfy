/** Shapes of the Ensime server replies that the response handlers read.
    A field the server may leave out is an `Option`; a reply that may be
    nil as a whole is an `Option` of its shape. */
module Payloads {

  datatype Option<+T> = None | Some(value: T) {
    /** The value, or `default` when it is absent. */
    function GetOr(default: T): T {
      match this
      case Some(v) => v
      case None => default
    }
  }

  /** The `:implementation` part of a connection-info reply. */
  datatype Implementation = Implementation(name: string)

  /** Reply to connection-info: server implementation, version and an optional pid. */
  datatype ConnectionInfo = ConnectionInfo(pid: Option<int>, implementation: Implementation, version: string)

  /** Reply to init-project. The source roots are only logged. */
  datatype ProjectInfo = ProjectInfo(projectName: string, sourceRoots: seq<string>)

  /** The `:type` of a symbol; `decl-as` and `full-name` are present for some
      categories of symbol only. */
  datatype TypeInfo = TypeInfo(name: string, declAs: Option<string>, fullName: Option<string>)

  /** Reply to symbol-at-point when a symbol was found. */
  datatype SymbolInfo = SymbolInfo(name: string, typ: TypeInfo)

  /** One completion candidate; `is-callable` may be absent. */
  datatype Completion = Completion(name: string, typeSig: string, isCallable: Option<bool>)

  /** Reply to completions: the prefix the server used and, when present,
      the list of candidates. */
  datatype CompletionInfo = CompletionInfo(prefix: string, completions: Option<seq<Completion>>)

  /** A source range returned by uses-of-symbol-at-point. */
  datatype RangePos = RangePos(file: string, offset: int, start: int, end: int)

  /** One quickfix entry as the editor's quickfix list takes it. */
  datatype QuickFixItem = QuickFixItem(filename: string, position: int, text: string)

  /** A compiler note as kept in the process state. */
  datatype Note = Note(severity: string, msg: string, file: string, line: int, col: int)

  /** A project configuration read from the `.ensime` file. */
  datatype ProjectConfig = ProjectConfig(entries: map<string, string>)
}
