/** The webview side of the extension (src/webview/webview.service.ts): the
    launch signature a panel reports to the renderer, the default signature
    chosen for a server file, the registry of open panels keyed by their
    connection path, and the routing of a connection update to the
    configuration it belongs to. The panel's HTML, its icon and the messages
    passed on to the service layer are not part of this model. */
module WebviewService {
  import opened Common
  import opened ConnectionConfig
  import opened ConnectionEnv

  /** What `vscode/launch-signature` answers with: the stdio command line as
      one string and its working directory, or the sse address and its
      OAuth setting. */
  datatype LaunchSignature =
    | StdioSignature(commandString: string, cwd: string)
    | SseSignature(url: string, oauth: string)

  /** The launch signature of a panel's connection item: the command and its
      arguments joined by single spaces, and missing settings as empty strings. */
  function LaunchSignatureOf(option: ConnectionItem): (r: LaunchSignature)
    ensures r.StdioSignature? <==> option.Stdio?
    ensures r.StdioSignature? ==> StartsWith(r.commandString, option.command + " ")
    ensures r.StdioSignature? ==> r.commandString == option.command + " " + Join(option.args, " ")
    ensures r.StdioSignature? ==> r.cwd == OrElse(option.cwd, "")
    ensures r.SseSignature? ==> r.url == option.url && r.oauth == OrElse(option.oauth, "")
  {
    match option
    case Stdio(_, _, command, args, cwd, _, _) => StdioSignature(command + " " + Join(args, " "), OrElse(cwd, ""))
    case Sse(_, _, url, oauth, _, _) => SseSignature(url, OrElse(oauth, ""))
  }

  /** The item a panel opened without one launches: `mcp run main.py`. */
  const DefaultOption: ConnectionItem := Stdio("OpenMCP", None, "mcp", ["run", "main.py"], None, None, None)

  /** Tokens the renderer's split gives back one for one: none empty, none
      holding whitespace. */
  predicate SplitSafe(tokens: seq<string>) {
    forall k :: 0 <= k < |tokens| ==> tokens[k] != [] && !HasWhitespace(tokens[k])
  }

  /** The renderer splitting a stdio signature gets the panel's command and
      arguments back, when there is at least one argument and the tokens are
      safe to split. */
  lemma LaunchSignatureRoundTrip(option: ConnectionItem)
    requires option.Stdio? && option.args != []
    requires SplitSafe([option.command] + option.args)
    ensures SplitCommand(LaunchSignatureOf(option).commandString) == CommandLine(option.command, option.args)
  {
    var tokens := [option.command] + option.args;
    assert tokens[1..] == option.args;
    assert Join(tokens, " ") == option.command + " " + Join(option.args, " ");
    SplitWhitespaceJoin(tokens);
  }

  /** Without arguments the joined string ends in a space, and the renderer
      gets one empty argument back. */
  lemma LaunchSignatureNoArgs(option: ConnectionItem)
    requires option.Stdio? && option.args == []
    requires SplitSafe([option.command])
    ensures SplitCommand(LaunchSignatureOf(option).commandString) == CommandLine(option.command, [""])
  {
    assert [option.command][0] == option.command;
    assert LaunchSignatureOf(option).commandString == option.command + " ";
    SplitWhitespaceTrailingSpace(option.command);
  }

  /** Conversely, what the renderer gets back always has at least one
      argument, no whitespace in any token and no empty argument but the
      last: any other command line does not survive the trip. */
  lemma LaunchSignatureSplitShape(option: ConnectionItem)
    requires option.Stdio?
    ensures var r := SplitCommand(LaunchSignatureOf(option).commandString);
      r.args != [] && !HasWhitespace(r.command) &&
      (forall k :: 0 <= k < |r.args| ==> !HasWhitespace(r.args[k])) &&
      (forall k :: 0 <= k < |r.args| - 1 ==> r.args[k] != [])
  {
    var s := LaunchSignatureOf(option).commandString;
    assert s[|option.command|] == ' ';
    assert HasWhitespace(s);
  }

  /** The panel's own command line survives the trip: `mcp run main.py`. */
  lemma DefaultOptionRoundTrip()
    ensures SplitCommand(LaunchSignatureOf(DefaultOption).commandString) == CommandLine("mcp", ["run", "main.py"])
  {
    assert SplitSafe(["mcp", "run", "main.py"]) by {
      assert !HasWhitespace("mcp") && !HasWhitespace("run") && !HasWhitespace("main.py");
    }
    assert [DefaultOption.command] + DefaultOption.args == ["mcp", "run", "main.py"];
    LaunchSignatureRoundTrip(DefaultOption);
  }

  /** `getDefaultLanunchSignature`, given the server file's path relative to
      the working directory: a Python file runs under `mcp run`, a JavaScript
      file under `node`, and any other file has no default. */
  function DefaultLaunchSignature(relativePath: string): (r: Option<CommandLine>)
    ensures r.Some? <==> EndsWith(relativePath, ".py") || EndsWith(relativePath, ".js")
    ensures r.Some? ==> r.value.args != [] && r.value.args[|r.value.args| - 1] == relativePath
    ensures r.Some? && EndsWith(relativePath, ".py") ==> r.value.command == "mcp" && r.value.args == ["run", relativePath]
    ensures r.Some? && !EndsWith(relativePath, ".py") ==> r.value.command == "node" && r.value.args == [relativePath]
  {
    if EndsWith(relativePath, ".py") then Some(CommandLine("mcp", ["run", relativePath]))
    else if EndsWith(relativePath, ".js") then Some(CommandLine("node", [relativePath]))
    else None
  }

  /** A default signature whose path is safe to split reaches the renderer intact. */
  lemma DefaultLaunchSignatureRoundTrip(relativePath: string, name: string)
    requires DefaultLaunchSignature(relativePath).Some?
    requires relativePath != [] && !HasWhitespace(relativePath)
    ensures var c := DefaultLaunchSignature(relativePath).value;
      var option := Stdio(name, None, c.command, c.args, None, None, None);
      SplitCommand(LaunchSignatureOf(option).commandString) == c
  {
    var c := DefaultLaunchSignature(relativePath).value;
    var option := Stdio(name, None, c.command, c.args, None, None, None);
    assert !HasWhitespace("mcp") && !HasWhitespace("run") && !HasWhitespace("node");
    assert SplitSafe([c.command] + c.args);
    LaunchSignatureRoundTrip(option);
  }

  /** Which configuration a panel's connection updates go to. */
  datatype PanelType = Workspace | Installed

  /** An open webview panel, with what its message handlers captured when it
      was created: its key (the server file's path), its type and its
      connection item. */
  class Panel {
    const key: string
    const panelType: PanelType
    const option: ConnectionItem

    constructor (key: string, panelType: PanelType, option: ConnectionItem)
      ensures this.key == key && this.panelType == panelType && this.option == option
    {
      this.key := key;
      this.panelType := panelType;
      this.option := option;
    }
  }

  /** `panels`: the open panels by key. */
  class PanelRegistry {
    var panels: map<string, Panel>

    /** Every panel is registered under its own key. */
    ghost predicate Valid()
      reads this
    {
      forall k :: k in panels ==> panels[k].key == k
    }

    constructor ()
      ensures Valid() && panels == map[]
    {
      panels := map[];
    }

    /** `revealOpenMcpWebviewPanel`: a key that already has a panel gets that
        panel back, whatever type and item this call passes, and nothing is
        registered; otherwise a new panel is created for the type and item
        and registered under the key. */
    method Reveal(panelType: PanelType, key: string, option: ConnectionItem) returns (p: Panel)
      requires Valid()
      modifies this`panels
      ensures Valid()
      ensures p.key == key && key in panels && panels[key] == p
      ensures key in old(panels) ==> p == old(panels)[key] && panels == old(panels)
      ensures key !in old(panels) ==> fresh(p) && p.panelType == panelType && p.option == option
      ensures key !in old(panels) ==> panels == old(panels)[key := p]
    {
      if key in panels {
        p := panels[key];
        return;
      }
      p := new Panel(key, panelType, option);
      panels := panels[key := p];
    }

    /** The panel's dispose handler: its key is removed and every other stays. */
    method Dispose(p: Panel)
      requires Valid()
      modifies this`panels
      ensures Valid()
      ensures p.key !in panels
      ensures panels == old(panels) - {p.key}
    {
      panels := panels - {p.key};
    }
  }

  /** The panel's handler for `vscode/update-connection-sigature`: an
      installed panel updates the installed configuration, any other the
      workspace configuration, each for the panel's key; the other list is
      left alone. */
  method RouteConnectionUpdate(p: Panel, store: ConnectionStore, data: ClientConnection, info: ServerInfo)
    modifies store`installedItems, store`installedFile, store`workspaceItems, store`workspaceFile, store`commands
    ensures p.panelType == Installed ==>
      store.installedItems == Upsert(old(store.installedItems), InstalledMatcher(p.key), NewItem(p.key, data, info)) &&
      store.installedFile == store.installedItems &&
      store.commands == old(store.commands) + [InstalledRefresh] &&
      store.workspaceItems == old(store.workspaceItems) && store.workspaceFile == old(store.workspaceFile)
    ensures p.panelType == Workspace ==>
      store.workspaceItems == Upsert(old(store.workspaceItems), WorkspaceMatcher(p.key, store.workspacePath), NewItem(p.key, data, info)) &&
      store.workspaceFile == CollapseAll(store.workspaceItems, store.workspacePath) &&
      store.commands == old(store.commands) + [WorkspaceRefresh] &&
      store.installedItems == old(store.installedItems) && store.installedFile == old(store.installedFile)
  {
    if p.panelType == Installed {
      store.UpdateInstalledConnectionConfig(p.key, data, info);
    } else {
      store.UpdateWorkspaceConnectionConfig(p.key, data, info);
    }
  }
}
