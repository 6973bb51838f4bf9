/** The reply handlers of the editor's Ensime RPC layer. Each handler has a
    success transform (`…Response`) and a failure report (`Abort`). Their
    effects land on a `World`: the process state (`initialized`,
    `scalaNotes`), the completion base the omni sink reports, and the ordered
    `trace` of every call the handlers make on the editor's sinks, on the
    editor itself and on the RPC layer. */
module Responses {
  import opened Payloads
  import opened Text
  import opened SymbolPreview
  import opened Completions

  /** The handler classes, one per RPC call type. */
  datatype Handler =
    | ConnectionInfoHandler
    | InitProjectHandler
    | ShutdownServerHandler
    | TypecheckFileHandler
    | TypecheckAllHandler
    | SymbolAtPointHandler
    | UsesOfSymbolAtPointHandler
    | CompletionsHandler
    | FormatSourceHandler

  /** One outbound call made by a handler, in the order it is made. */
  datatype Effect =
    | Echo(msg: string)                      // echo()
    | EchoError(msg: string)                 // echoe()
    | PreviewSet(lines: seq<string>)         // PreviewOutput().set
    | QuickFixSet(items: seq<QuickFixItem>)  // QuickFixOutput().set
    | QuickFixOpen                           // QuickFixOutput().open
    | OmniSetResults(entries: seq<Entry>)    // OmniOutput().setResults
    | OmniShowCompletions                    // OmniOutput().showCompletions
    | OmniContinueMessages                   // OmniOutput().continueMessages
    | VimCommands(cmds: seq<string>)         // vimCommands()
    | ProjectInit(config: ProjectConfig)     // SwankRpc().projectInit(config)(InitProjectHandler())

  /** The name a handler's abort report starts with. The uses-of-symbol
      handler reports under the symbol-at-point name. */
  function AbortLabel(h: Handler): (l: string)
    ensures l != "" && forall i :: 0 <= i < |l| ==> l[i] != ' '
    ensures l == "SymbolAtPoint" <==> h == SymbolAtPointHandler || h == UsesOfSymbolAtPointHandler
  {
    match h
    case ConnectionInfoHandler => "ConnectionInfo"
    case InitProjectHandler => "InitProject"
    case ShutdownServerHandler => "ShutdownServer"
    case TypecheckFileHandler => "TypecheckFile"
    case TypecheckAllHandler => "TypecheckAll"
    case SymbolAtPointHandler => "SymbolAtPoint"
    case UsesOfSymbolAtPointHandler => "SymbolAtPoint"
    case CompletionsHandler => "Completions"
    case FormatSourceHandler => "FormatSource"
  }

  /** The error line a handler reports on failure; `detail` is the server's
      code and detail as the external formatter renders them. */
  function AbortMessage(h: Handler, detail: string): (msg: string)
    ensures AbortLabel(h) + " abort: " <= msg
    ensures msg[|AbortLabel(h) + " abort: "|..] == detail
  {
    AbortLabel(h) + " abort: " + detail
  }

  /** Two different handlers give the same abort line only for the
      symbol-at-point / uses-of-symbol pair. */
  lemma AbortMessagesDistinct(h1: Handler, h2: Handler, detail: string)
    requires h1 != h2
    ensures AbortMessage(h1, detail) == AbortMessage(h2, detail) <==>
      {h1, h2} == {SymbolAtPointHandler, UsesOfSymbolAtPointHandler}
  {
    var l1, l2 := AbortLabel(h1), AbortLabel(h2);
    if AbortMessage(h1, detail) == AbortMessage(h2, detail) {
      // neither label contains a space, so the first space ends both labels
      var rest := " abort: " + detail;
      LabelEnd(l1, rest);
      LabelEnd(l2, rest);
      assert AbortMessage(h1, detail) == l1 + rest;
      assert AbortMessage(h2, detail) == l2 + rest;
      assert |l1| == |l2|;
      assert l1 == (l1 + rest)[..|l1|] && l2 == (l2 + rest)[..|l2|];
    }
  }

  /** A label is recovered from its message as the part before the first space. */
  lemma LabelEnd(name: string, rest: string)
    requires forall i :: 0 <= i < |name| ==> name[i] != ' '
    requires |rest| > 0 && rest[0] == ' '
    ensures FirstSpace(name + rest) == |name|
  {
    if name != [] {
      assert (name + rest)[1..] == name[1..] + rest;
      LabelEnd(name[1..], rest);
    }
  }

  function FirstSpace(s: string): nat {
    if s == [] || s[0] == ' ' then 0 else 1 + FirstSpace(s[1..])
  }

  /** The pid as the connection line shows it: nothing when the pid is
      absent or zero, its decimal form otherwise. */
  function PidText(pid: Option<int>): (s: string)
    ensures s == "" <==> pid.None? || pid.value == 0
    ensures s != "" ==> s == IntToString(pid.value)
  {
    if pid.Some? && pid.value != 0 then IntToString(pid.value) else ""
  }

  /** The line echoed on a connection-info reply. */
  function ServerLine(r: ConnectionInfo): (line: string)
    ensures "server: " + r.implementation.name + " (" + r.version + ") " <= line
    ensures line[|"server: " + r.implementation.name + " (" + r.version + ") "|..] == PidText(r.pid)
  {
    var head := "server: " + r.implementation.name + " (" + r.version + ") ";
    assert (head + PidText(r.pid))[|head|..] == PidText(r.pid);
    head + PidText(r.pid)
  }

  /** The two editor commands that make the editor reload a buffer the
      server has reformatted while keeping its syntax colouring. */
  const ReloadCommands: seq<string> := ["call feedkeys('<cr>')", "call feedkeys(':e')"]

  class World {
    var initialized: bool
    var scalaNotes: seq<Note>
    /** What `OmniOutput().getBase()` returns: the token being completed. */
    var omniBase: string
    var trace: seq<Effect>

    /** Failure report of any handler: one error line and nothing else. */
    method Abort(h: Handler, code: int, details: string, codeDetails: (int, string) -> string)
      modifies this`trace
      ensures trace == old(trace) + [EchoError(AbortMessage(h, codeDetails(code, details)))]
    {
      trace := trace + [EchoError(AbortLabel(h) + " abort: " + codeDetails(code, details))];
    }

    /** Echo the server line; then, only when a config file is found and it
        parses, issue the init-project call. */
    method ConnectionInfoResponse(r: ConnectionInfo, configFile: Option<string>,
                                  readConfig: string -> Option<ProjectConfig>)
      modifies this`trace
      ensures trace == old(trace) + [Echo(ServerLine(r))] +
        (if configFile.Some? && readConfig(configFile.value).Some?
         then [ProjectInit(readConfig(configFile.value).value)] else [])
    {
      var spid := "";
      if r.pid.Some? && r.pid.value != 0 { spid := IntToString(r.pid.value); }
      trace := trace + [Echo("server: " + r.implementation.name + " (" + r.version + ") " + spid)];
      if configFile.None? {
        return;
      }
      var config := readConfig(configFile.value);
      if config.None? {
        return;
      }
      trace := trace + [ProjectInit(config.value)];
    }

    method InitProjectResponse(r: ProjectInfo)
      modifies this`trace, this`initialized
      ensures initialized
      ensures trace == old(trace) + [Echo("Initializing project: " + r.projectName)]
    {
      trace := trace + [Echo("Initializing project: " + r.projectName)];
      initialized := true;
    }

    method ShutdownServerResponse()
      modifies this`trace
      ensures trace == old(trace) + [Echo("Ensime server is now off")]
    {
      trace := trace + [Echo("Ensime server is now off")];
    }

    /** Either outcome empties the notes. */
    method TypecheckFileResponse(r: bool)
      modifies this`trace, this`scalaNotes
      ensures scalaNotes == []
      ensures trace == old(trace) +
        [if r then Echo("Typechecking in progress...") else EchoError("Typecheck file error")]
    {
      if r {
        trace := trace + [Echo("Typechecking in progress...")];
      } else {
        trace := trace + [EchoError("Typecheck file error")];
      }
      scalaNotes := [];
    }

    /** Either outcome empties the notes. */
    method TypecheckAllResponse(r: bool)
      modifies this`trace, this`scalaNotes
      ensures scalaNotes == []
      ensures trace == old(trace) +
        [if r then Echo("Typechecking in progress...") else EchoError("Typecheck all error")]
    {
      if r {
        trace := trace + [Echo("Typechecking in progress...")];
      } else {
        trace := trace + [EchoError("Typecheck all error")];
      }
      scalaNotes := [];
    }

    /** Exactly one preview call, with exactly one line. */
    method SymbolAtPointResponse(symbolInfo: Option<SymbolInfo>)
      modifies this`trace
      ensures symbolInfo.None? ==> trace == old(trace) + [PreviewSet([NoSymbolLine])]
      ensures symbolInfo.Some? ==> trace == old(trace) + [PreviewSet([SymbolLine(symbolInfo.value)])]
    {
      if symbolInfo.None? {
        trace := trace + [PreviewSet(["No symbol here"])];
        return;
      }
      var s := symbolInfo.value;
      var out := s.name + " : " + s.typ.name;
      var declAs := "";
      if s.typ.declAs.Some? { declAs := s.typ.declAs.value; }
      var fullName := "";
      if s.typ.fullName.Some? { fullName := s.typ.fullName.value; }
      if declAs != "" || fullName != "" {
        out := out + " (" + declAs + " " + fullName + ")";
      }
      trace := trace + [PreviewSet([out])];
    }

    /** The quickfix list is set once and then opened once; it is empty, after
        a "Symbol not used" echo, when no range came back. */
    method UsesOfSymbolAtPointResponse(rangePosList: seq<RangePos>,
                                       toQuickFix: seq<RangePos> -> seq<QuickFixItem>)
      modifies this`trace
      ensures rangePosList == [] ==>
        trace == old(trace) + [Echo("Symbol not used"), QuickFixSet([]), QuickFixOpen]
      ensures rangePosList != [] ==>
        trace == old(trace) + [QuickFixSet(toQuickFix(rangePosList)), QuickFixOpen]
    {
      var qflist: seq<QuickFixItem>;
      if rangePosList == [] {
        trace := trace + [Echo("Symbol not used")];
        qflist := [];
      } else {
        qflist := toQuickFix(rangePosList);
      }
      trace := trace + [QuickFixSet(qflist)];
      trace := trace + [QuickFixOpen];
    }

    /** Without a completions list: echo and let the omni sink continue.
        Otherwise deliver the sorted, filtered menu, then show it. */
    method CompletionsResponse(completions: Option<CompletionInfo>)
      modifies this`trace
      ensures completions.None? || completions.value.completions.None? ==>
        trace == old(trace) + [Echo("Empty completions"), OmniContinueMessages]
      ensures completions.Some? && completions.value.completions.Some? ==>
        trace == old(trace) + [OmniSetResults(CompletionMenu(completions.value.prefix, omniBase,
                                                             completions.value.completions.value)),
                               OmniShowCompletions]
    {
      if completions.None? || completions.value.completions.None? {
        trace := trace + [Echo("Empty completions")];
        trace := trace + [OmniContinueMessages];
        return;
      }
      var base := omniBase;
      var comps := completions.value.completions.value;
      var out := [Seed(completions.value.prefix)];
      var i := 0;
      while i < |comps|
        invariant 0 <= i <= |comps|
        invariant out == [Seed(completions.value.prefix)] + MenuEntries(base, comps[..i])
      {
        var comp := comps[i];
        assert comps[..i + 1][..i] == comps[..i];
        if PassesBase(base, comp.name) {
          out := out + [ToEntry(comp)];
        }
        i := i + 1;
      }
      assert comps[..i] == comps;
      out := SortByWord(out);
      trace := trace + [OmniSetResults(out)];
      trace := trace + [OmniShowCompletions];
    }

    /** On success: the two reload commands, in order, then the done echo.
        On failure: the error echo alone. */
    method FormatSourceResponse(r: bool)
      modifies this`trace
      ensures r ==> trace == old(trace) + [VimCommands(ReloadCommands), Echo("FormatSource done")]
      ensures !r ==> trace == old(trace) + [EchoError("FormatSource file error")]
    {
      if !r {
        trace := trace + [EchoError("FormatSource file error")];
        return;
      }
      var cmds := ["call feedkeys('<cr>')", "call feedkeys(':e')"];
      trace := trace + [VimCommands(cmds)];
      trace := trace + [Echo("FormatSource done")];
    }
  }
}
