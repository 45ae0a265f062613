/** The connection configuration of the extension host (src/global.ts): the
    installed and workspace connection lists, the `{workspace}` placeholder
    that the workspace file stores instead of the workspace path, lookup by
    file path, the upsert that records a server's launch settings, and the
    search for the first existing path in a command line.

    File reading and writing, JSON, the vscode API and the path library are
    not modelled: the files are the list values they hold, the path library
    enters as oracles. */
module ConnectionConfig {
  import opened Common

  type EnvMap = map<string, string>

  /** One entry of a connection file: an stdio or an sse server. */
  datatype ConnectionItem =
    | Stdio(name: string, version: Option<string>, command: string, args: seq<string>,
            cwd: Option<string>, env: Option<EnvMap>, filePath: Option<string>)
    | Sse(name: string, version: Option<string>, url: string, oauth: Option<string>,
          env: Option<EnvMap>, filePath: Option<string>)

  /** The marker the workspace file uses in place of the workspace path. */
  const Placeholder := "{workspace}"

  lemma PlaceholderNormal()
    ensures '\\' !in Placeholder && NormaliseSlashes(Placeholder) == Placeholder
  {
    NormaliseSlashesIdentity(Placeholder);
  }

  const WorkspaceRefresh := "openmcp.sidebar.workspace-connection.refresh"
  const InstalledRefresh := "openmcp.sidebar.installed-connection.refresh"

  /** `getWorkspacePath`: the first workspace folder (or nothing) with slashes normalised. */
  function WorkspacePath(folder: Option<string>): (r: string)
    ensures '\\' !in r && |r| == |OrElse(folder, "")|
  {
    NormaliseSlashesIdempotent(OrElse(folder, ""));
    NormaliseSlashes(OrElse(folder, ""))
  }

  // ----- Placeholder expansion on load and collapse on save -----

  /** A stored path on load: one that starts with the placeholder gets the
      workspace path in its place, and its slashes normalised. The workspace
      path is the replacement text of `replace`, so a `$&`, `` $` ``, `$'` or
      `$$` in it is expanded. */
  function ExpandPath(p: Option<string>, ws: string): (r: Option<string>)
    ensures Truthy(p) && StartsWith(p.value, Placeholder)
            ==> var rest := p.value[|Placeholder|..];
                r == Some(NormaliseSlashes(Substitution(ws, Placeholder, "", rest) + rest))
    ensures Truthy(p) && StartsWith(p.value, Placeholder) && '$' !in ws
            ==> r == Some(NormaliseSlashes(ws + p.value[|Placeholder|..]))
    ensures !(Truthy(p) && StartsWith(p.value, Placeholder)) ==> r == p
  {
    if Truthy(p) && StartsWith(p.value, Placeholder) then
      ReplaceFirstAtStart(p.value, Placeholder, ws);
      Some(NormaliseSlashes(ReplaceFirst(p.value, Placeholder, ws)))
    else p
  }

  /** A cached path on save: when its slash-normalised form starts with the
      workspace path, the first occurrence of the workspace path in the path
      as it is becomes the placeholder, and the slashes are normalised. */
  function CollapsePath(p: Option<string>, ws: string): (r: Option<string>)
    ensures !(Truthy(p) && StartsWith(NormaliseSlashes(p.value), ws)) ==> r == p
    ensures Truthy(p) && '\\' !in p.value && '\\' !in ws && StartsWith(p.value, ws)
            ==> r == Some(Placeholder + p.value[|ws|..])
  {
    if Truthy(p) && StartsWith(NormaliseSlashes(p.value), ws) then
      CollapseAtStart(p.value, ws);
      Some(NormaliseSlashes(ReplaceFirst(p.value, ws, Placeholder)))
    else p
  }

  lemma CollapseAtStart(p: string, ws: string)
    ensures '\\' !in p && '\\' !in ws && StartsWith(p, ws)
            ==> NormaliseSlashes(ReplaceFirst(p, ws, Placeholder)) == Placeholder + p[|ws|..]
  {
    if '\\' !in p && '\\' !in ws && StartsWith(p, ws) {
      ReplaceFirstAtStart(p, ws, Placeholder);
      NormaliseSlashesIdentity(Placeholder + p[|ws|..]);
    }
  }

  /** The load loop's effect on one item: `filePath`, and `cwd` of an stdio item. */
  function ExpandItem(item: ConnectionItem, ws: string): (r: ConnectionItem)
    ensures r.Stdio? == item.Stdio? && r.filePath == ExpandPath(item.filePath, ws)
    ensures r.Stdio? ==> r.cwd == ExpandPath(item.cwd, ws)
    ensures r.name == item.name && r.version == item.version && r.env == item.env
    ensures r.Stdio? ==> r.command == item.command && r.args == item.args
    ensures r.Sse? ==> r.url == item.url && r.oauth == item.oauth
  {
    var fileExpanded := item.(filePath := ExpandPath(item.filePath, ws));
    if fileExpanded.Stdio? then fileExpanded.(cwd := ExpandPath(fileExpanded.cwd, ws)) else fileExpanded
  }

  /** The save loop's effect on one item. */
  function CollapseItem(item: ConnectionItem, ws: string): (r: ConnectionItem)
    ensures r.Stdio? == item.Stdio? && r.filePath == CollapsePath(item.filePath, ws)
    ensures r.Stdio? ==> r.cwd == CollapsePath(item.cwd, ws)
    ensures r.name == item.name && r.version == item.version && r.env == item.env
    ensures r.Stdio? ==> r.command == item.command && r.args == item.args
    ensures r.Sse? ==> r.url == item.url && r.oauth == item.oauth
  {
    var fileCollapsed := item.(filePath := CollapsePath(item.filePath, ws));
    if fileCollapsed.Stdio? then fileCollapsed.(cwd := CollapsePath(fileCollapsed.cwd, ws)) else fileCollapsed
  }

  function ExpandAll(items: seq<ConnectionItem>, ws: string): (r: seq<ConnectionItem>)
    ensures |r| == |items| && forall k :: 0 <= k < |items| ==> r[k] == ExpandItem(items[k], ws)
  {
    seq(|items|, k requires 0 <= k < |items| => ExpandItem(items[k], ws))
  }

  function CollapseAll(items: seq<ConnectionItem>, ws: string): (r: seq<ConnectionItem>)
    ensures |r| == |items| && forall k :: 0 <= k < |items| ==> r[k] == CollapseItem(items[k], ws)
  {
    seq(|items|, k requires 0 <= k < |items| => CollapseItem(items[k], ws))
  }

  /** One pass of the load loop: the item's `filePath`, then an stdio item's `cwd`. */
  method ExpandOne(item0: ConnectionItem, ws: string) returns (item: ConnectionItem)
    ensures item == ExpandItem(item0, ws)
  {
    item := item0;
    if Truthy(item.filePath) && StartsWith(item.filePath.value, Placeholder) {
      item := item.(filePath := Some(NormaliseSlashes(ReplaceFirst(item.filePath.value, Placeholder, ws))));
    }
    if item.Stdio? && Truthy(item.cwd) && StartsWith(item.cwd.value, Placeholder) {
      item := item.(cwd := Some(NormaliseSlashes(ReplaceFirst(item.cwd.value, Placeholder, ws))));
    }
  }

  /** One pass of the save loop, on the copy of a cached item. */
  method CollapseOne(item0: ConnectionItem, ws: string) returns (item: ConnectionItem)
    ensures item == CollapseItem(item0, ws)
  {
    item := item0;
    if Truthy(item.filePath) && StartsWith(NormaliseSlashes(item.filePath.value), ws) {
      item := item.(filePath := Some(NormaliseSlashes(ReplaceFirst(item.filePath.value, ws, Placeholder))));
    }
    if item.Stdio? && Truthy(item.cwd) && StartsWith(NormaliseSlashes(item.cwd.value), ws) {
      item := item.(cwd := Some(NormaliseSlashes(ReplaceFirst(item.cwd.value, ws, Placeholder))));
    }
  }

  /** The load loop of `getWorkspaceConnectionConfig`, over the items as read. */
  method ExpandItems(raw: seq<ConnectionItem>, ws: string) returns (items: seq<ConnectionItem>)
    ensures items == ExpandAll(raw, ws)
  {
    items := raw;
    var k := 0;
    while k < |items|
      invariant 0 <= k <= |items| == |raw|
      invariant forall j :: 0 <= j < k ==> items[j] == ExpandItem(raw[j], ws)
      invariant forall j :: k <= j < |items| ==> items[j] == raw[j]
    {
      var item := ExpandOne(items[k], ws);
      items := items[k := item];
      k := k + 1;
    }
  }

  /** The save loop of `saveWorkspaceConnectionConfig`, which works on a deep
      copy of the cached items (the result) and leaves the cache alone. */
  method CollapseItems(cached: seq<ConnectionItem>, ws: string) returns (copy: seq<ConnectionItem>)
    ensures copy == CollapseAll(cached, ws)
  {
    copy := cached;
    var k := 0;
    while k < |copy|
      invariant 0 <= k <= |copy| == |cached|
      invariant forall j :: 0 <= j < k ==> copy[j] == CollapseItem(cached[j], ws)
      invariant forall j :: k <= j < |copy| ==> copy[j] == cached[j]
    {
      var item := CollapseOne(copy[k], ws);
      copy := copy[k := item];
      k := k + 1;
    }
  }

  /** A path that comes back from a save and a load: absent or empty, or free
      of backslashes and either under a workspace path without `$` or not
      starting with the placeholder. */
  predicate SurvivesSave(p: Option<string>, ws: string) {
    Truthy(p) ==>
      && '\\' !in p.value
      && (StartsWith(p.value, ws) || !StartsWith(p.value, Placeholder))
      && (StartsWith(p.value, ws) ==> '$' !in ws)
  }

  /** Saving then loading gives a path back. */
  lemma PathRoundTrip(p: Option<string>, ws: string)
    requires '\\' !in ws && SurvivesSave(p, ws)
    ensures ExpandPath(CollapsePath(p, ws), ws) == p
  {
    if Truthy(p) {
      NormaliseSlashesIdentity(p.value);
      if StartsWith(p.value, ws) {
        var rest := p.value[|ws|..];
        assert StartsWith(Placeholder + rest, Placeholder);
        assert (Placeholder + rest)[|Placeholder|..] == rest;
        assert ws + rest == p.value;
      }
    }
  }

  lemma ItemRoundTrip(item: ConnectionItem, ws: string)
    requires '\\' !in ws && SurvivesSave(item.filePath, ws)
    requires item.Stdio? ==> SurvivesSave(item.cwd, ws)
    ensures ExpandItem(CollapseItem(item, ws), ws) == item
  {
    PathRoundTrip(item.filePath, ws);
    if item.Stdio? {
      PathRoundTrip(item.cwd, ws);
    }
  }

  /** What the workspace file holds after a save is read back on the next
      load as the cached list it was saved from. */
  predicate AllSurviveSave(items: seq<ConnectionItem>, ws: string) {
    forall k :: 0 <= k < |items| ==>
      SurvivesSave(items[k].filePath, ws) && (items[k].Stdio? ==> SurvivesSave(items[k].cwd, ws))
  }

  lemma SaveLoadRoundTrip(items: seq<ConnectionItem>, ws: string)
    requires '\\' !in ws && AllSurviveSave(items, ws)
    ensures ExpandAll(CollapseAll(items, ws), ws) == items
  {
    forall k | 0 <= k < |items|
      ensures ExpandAll(CollapseAll(items, ws), ws)[k] == items[k]
    {
      ItemRoundTrip(items[k], ws);
    }
  }

  /** On Windows-style input the collapse misses: a path written with
      backslashes only is under the workspace once normalised, but the raw
      path never contains the workspace path (which has a forward slash), so
      it is saved absolute, with its slashes normalised, instead of with the
      placeholder. */
  lemma {:induction false} CollapseMissesBackslashPath(p: string, ws: string)
    requires '/' in ws && '/' !in p && StartsWith(NormaliseSlashes(p), ws)
    ensures CollapsePath(Some(p), ws) == Some(NormaliseSlashes(p))
    ensures '\\' !in CollapsePath(Some(p), ws).value
  {
    forall j: nat ensures !OccursAt(p, ws, j) {
      if OccursAt(p, ws, j) {
        assert false;
      }
    }
    ReplaceFirstAbsent(p, ws, Placeholder);
    NormaliseSlashesIdempotent(p);
  }

  /** The miss on `C:\w\a` in the workspace `C:/w`. */
  lemma CollapseKeepsBackslashPathAbsolute()
    ensures CollapsePath(Some("C:\\w\\a"), "C:/w") == Some("C:/w/a")
  {
    assert NormaliseSlashes("C:\\w\\a") == "C:/w/a";
    CollapseMissesBackslashPath("C:\\w\\a", "C:/w");
  }

  /** The workspace path is the replacement text of the load's `replace`, so
      a workspace at `$&` loads a saved path under it as the placeholder
      itself: `$&` stands for the matched `{workspace}`. */
  lemma DollarWorkspaceBreaksRoundTrip()
    ensures CollapsePath(Some("$&"), "$&") == Some(Placeholder)
    ensures ExpandPath(CollapsePath(Some("$&"), "$&"), "$&") == Some(Placeholder)
  {
    CollapseUnderDollarWorkspace();
    ExpandPlaceholderUnderDollar();
  }

  lemma ExpandPlaceholderUnderDollar()
    ensures ExpandPath(Some(Placeholder), "$&") == Some(Placeholder)
  {
    ExpandBarePlaceholder("$&");
    SubstitutionOfMatch(Placeholder, "", "");
    PlaceholderNormal();
  }

  lemma CollapseUnderDollarWorkspace()
    ensures CollapsePath(Some("$&"), "$&") == Some(Placeholder)
  {
    var p := "$&";
    assert StartsWith(p, p) && '\\' !in p;
    assert p[|p|..] == "";
    assert Placeholder + "" == Placeholder;
  }

  /** The placeholder alone loads as the substitution text of the workspace path. */
  lemma ExpandBarePlaceholder(ws: string)
    ensures ExpandPath(Some(Placeholder), ws) == Some(NormaliseSlashes(Substitution(ws, Placeholder, "", "")))
  {
    assert StartsWith(Placeholder, Placeholder);
    assert Placeholder[|Placeholder|..] == "";
    assert Substitution(ws, Placeholder, "", "") + "" == Substitution(ws, Placeholder, "", "");
  }

  // ----- Lookup by file path -----

  /** `normaliseConnectionFilePath`: nothing without a file path; otherwise
      the path with a leading placeholder replaced and slashes normalised. */
  function NormaliseConnectionFilePath(item: ConnectionItem, ws: string): (r: Option<string>)
    ensures r.None? <==> !Truthy(item.filePath)
    ensures r.Some? && StartsWith(item.filePath.value, Placeholder)
            ==> var rest := item.filePath.value[|Placeholder|..];
                r.value == NormaliseSlashes(Substitution(ws, Placeholder, "", rest) + rest)
    ensures r.Some? && StartsWith(item.filePath.value, Placeholder) && '$' !in ws
            ==> r.value == NormaliseSlashes(ws + item.filePath.value[|Placeholder|..])
    ensures r.Some? && !StartsWith(item.filePath.value, Placeholder) ==> r.value == NormaliseSlashes(item.filePath.value)
  {
    if Truthy(item.filePath) then
      if StartsWith(item.filePath.value, Placeholder) then
        ReplaceFirstAtStart(item.filePath.value, Placeholder, ws);
        Some(NormaliseSlashes(ReplaceFirst(item.filePath.value, Placeholder, ws)))
      else Some(NormaliseSlashes(item.filePath.value))
    else None
  }

  /** The workspace lookup's test of one item. */
  function WorkspaceMatcher(absPath: string, ws: string): ConnectionItem -> bool {
    (item: ConnectionItem) => NormaliseConnectionFilePath(item, ws) == Some(NormaliseSlashes(absPath))
  }

  /** The installed lookup's test: the file path (or '') with slashes
      normalised; no placeholder is expanded. */
  function InstalledMatcher(absPath: string): ConnectionItem -> bool {
    (item: ConnectionItem) => NormaliseSlashes(OrElse(item.filePath, "")) == NormaliseSlashes(absPath)
  }

  // ----- Upsert -----

  /** The launch settings a client reports, by connection type. */
  datatype ClientConnection =
    | StdioClient(command: string, args: seq<string>, cwd: string, env: EnvMap)
    | SseClient(url: string, oauth: string, env: EnvMap)

  datatype ServerInfo = ServerInfo(name: string, version: string)

  /** The item an update records: slashes normalised in the file path and
      the stdio `cwd`; an sse item carries no environment. */
  function NewItem(absPath: string, data: ClientConnection, info: ServerInfo): (r: ConnectionItem)
    ensures r.filePath == Some(NormaliseSlashes(absPath)) && r.name == info.name && r.version == Some(info.version)
    ensures r.Stdio? <==> data.StdioClient?
    ensures r.Stdio? ==> r.cwd == Some(NormaliseSlashes(data.cwd)) && r.env == Some(data.env)
    ensures r.Stdio? ==> r.command == data.command && r.args == data.args
    ensures r.Sse? ==> r.env.None? && r.url == data.url && r.oauth == Some(data.oauth)
  {
    match data
    case StdioClient(command, args, cwd, env) =>
      Stdio(info.name, Some(info.version), command, args, Some(NormaliseSlashes(cwd)), Some(env), Some(NormaliseSlashes(absPath)))
    case SseClient(url, oauth, _) =>
      Sse(info.name, Some(info.version), url, Some(oauth), None, Some(NormaliseSlashes(absPath)))
  }

  /** Remove the first matching item (if any) and put the new one first. */
  function Upsert(items: seq<ConnectionItem>, matches: ConnectionItem -> bool, x: ConnectionItem): (r: seq<ConnectionItem>)
    ensures |r| >= 1 && r[0] == x
    ensures FirstIndex(items, matches).None? ==> r == [x] + items
    ensures FirstIndex(items, matches).Some? ==> |r| == |items|
    ensures var k := FirstIndex(items, matches);
      k.Some? ==> r[1..] == items[..k.value] + items[k.value + 1..]
  {
    match FirstIndex(items, matches)
    case None => [x] + items
    case Some(k) => [x] + (items[..k] + items[k + 1..])
  }

  /** The new item is what the same lookup finds next. */
  lemma UpsertThenFind(items: seq<ConnectionItem>, matches: ConnectionItem -> bool, x: ConnectionItem)
    requires matches(x)
    ensures FirstIndex(Upsert(items, matches, x), matches) == Some(0)
  {
    FirstIndexUnique(Upsert(items, matches, x), matches, 0);
  }

  /** Updating twice for the same path is updating once with the later data:
      the list never holds two items recorded for one path by updates. */
  lemma UpsertTwice(items: seq<ConnectionItem>, matches: ConnectionItem -> bool, a: ConnectionItem, b: ConnectionItem)
    requires matches(a)
    ensures Upsert(Upsert(items, matches, a), matches, b) == Upsert(items, matches, b)
  {
    var once := Upsert(items, matches, a);
    UpsertThenFind(items, matches, a);
    assert once[..0] + once[1..] == once[1..];
  }

  /** Items that do not match keep their relative order: the update takes
      away at most the first match. */
  lemma UpsertKeepsOthers(items: seq<ConnectionItem>, matches: ConnectionItem -> bool, x: ConnectionItem, y: ConnectionItem)
    requires y in items && !matches(y)
    ensures y in Upsert(items, matches, x)[1..]
  {
    var r := Upsert(items, matches, x);
    var i :| 0 <= i < |items| && items[i] == y;
    match FirstIndex(items, matches)
    case None =>
      assert r[1..][i] == y;
    case Some(k) =>
      if i < k {
        assert r[1..][i] == y;
      } else {
        assert i != k;
        assert r[1..][i - 1] == y;
      }
  }

  /** `indexOf` finds the item a lookup returned at the lookup's position:
      no earlier item equals it, since an earlier equal item would have
      matched first. */
  lemma IndexOfFoundItem(items: seq<ConnectionItem>, matches: ConnectionItem -> bool)
    requires FirstIndex(items, matches).Some?
    ensures FirstIndex(items, (y: ConnectionItem) => y == items[FirstIndex(items, matches).value]) == FirstIndex(items, matches)
  {
    var k := FirstIndex(items, matches).value;
    FirstIndexUnique(items, (y: ConnectionItem) => y == items[k], k);
  }

  /** An updated item is found by both lookups for the path it was recorded
      under (a path that starts with the placeholder would be expanded by the
      workspace lookup and is excluded). */
  lemma NewItemMatches(absPath: string, data: ClientConnection, info: ServerInfo, ws: string)
    requires absPath != "" && !StartsWith(NormaliseSlashes(absPath), Placeholder)
    ensures WorkspaceMatcher(absPath, ws)(NewItem(absPath, data, info))
    ensures InstalledMatcher(absPath)(NewItem(absPath, data, info))
  {
    NormaliseSlashesIdempotent(absPath);
  }

  // ----- First existing path in a command line -----

  /** The path library and the file system, as seen by the command scan. */
  datatype PathOracle = PathOracle(isAbsolute: string -> bool, join: (string, string) -> string, pathExists: string -> bool)

  /** A token as a path: as it is when absolute, else joined to `cwd`. */
  function Candidate(part: string, cwd: string, fs: PathOracle): string {
    if fs.isAbsolute(part) then part else fs.join(cwd, part)
  }

  predicate IsValidCandidate(part: string, cwd: string, fs: PathOracle) {
    !StartsWith(part, "-") && fs.pathExists(Candidate(part, cwd, fs))
  }

  /** The first token from position `i` on that is not an option and names
      an existing path. */
  function FirstValidFrom(parts: seq<string>, i: nat, cwd: string, fs: PathOracle): (r: Option<nat>)
    requires i <= |parts|
    ensures r.Some? ==> i <= r.value < |parts| && IsValidCandidate(parts[r.value], cwd, fs)
    ensures r.Some? ==> forall j :: i <= j < r.value ==> !IsValidCandidate(parts[j], cwd, fs)
    ensures r.None? ==> forall j :: i <= j < |parts| ==> !IsValidCandidate(parts[j], cwd, fs)
    decreases |parts| - i
  {
    if i == |parts| then None
    else if IsValidCandidate(parts[i], cwd, fs) then Some(i)
    else FirstValidFrom(parts, i + 1, cwd, fs)
  }

  /** `getFirstValidPathFromCommand`: split on single spaces, skip the
      program name and options, return the first candidate that exists. */
  method GetFirstValidPathFromCommand(command: string, cwd: string, fs: PathOracle) returns (r: Option<string>)
    ensures var parts := SplitOn(command, ' ');
      r == match FirstValidFrom(parts, 1, cwd, fs)
           case None => None
           case Some(k) => Some(Candidate(parts[k], cwd, fs))
  {
    var parts := SplitOn(command, ' ');
    var i := 1;
    while i < |parts|
      invariant 1 <= i <= |parts|
      invariant FirstValidFrom(parts, i, cwd, fs) == FirstValidFrom(parts, 1, cwd, fs)
    {
      var part := parts[i];
      if !StartsWith(part, "-") {
        var fullPath := part;
        if !fs.isAbsolute(part) {
          fullPath := fs.join(cwd, part);
        }
        if fs.pathExists(fullPath) {
          return Some(fullPath);
        }
      }
      i := i + 1;
    }
    return None;
  }

  /** The program name is never the answer, and an option never is. */
  lemma FirstValidPathSkips(command: string, cwd: string, fs: PathOracle)
    ensures var parts := SplitOn(command, ' ');
      var r := FirstValidFrom(parts, 1, cwd, fs);
      r.Some? ==> r.value >= 1 && !StartsWith(parts[r.value], "-")
  {
  }

  // ----- The two caches -----

  /** The connection lists the extension host keeps, the file contents last
      written, and the refresh commands issued. */
  class ConnectionStore {
    const workspacePath: string
    var installedItems: seq<ConnectionItem>
    var workspaceItems: seq<ConnectionItem>
    var installedFile: seq<ConnectionItem>
    var workspaceFile: seq<ConnectionItem>
    var commands: seq<string>

    ghost predicate Valid()
      reads this
    {
      '\\' !in workspacePath
    }

    /** Both lists loaded: the installed one as read, the workspace one with
        its placeholders expanded. */
    constructor (folder: Option<string>, installed: seq<ConnectionItem>, workspace: seq<ConnectionItem>)
      ensures Valid() && workspacePath == WorkspacePath(folder)
      ensures installedItems == installed && installedFile == installed
      ensures workspaceItems == ExpandAll(workspace, workspacePath) && workspaceFile == workspace
      ensures commands == []
    {
      var ws := WorkspacePath(folder);
      var expanded := ExpandItems(workspace, ws);
      workspacePath := ws;
      installedItems := installed;
      installedFile := installed;
      workspaceItems := expanded;
      workspaceFile := workspace;
      commands := [];
    }

    /** `getWorkspaceConnectionConfigItemByPath`: the first item whose
        normalised path is the normalised `absPath`. */
    method GetWorkspaceConnectionConfigItemByPath(absPath: string) returns (r: Option<ConnectionItem>)
      ensures r == ItemAt(workspaceItems, FirstIndex(workspaceItems, WorkspaceMatcher(absPath, workspacePath)))
    {
      var normaliseAbsPath := NormaliseSlashes(absPath);
      var k := 0;
      while k < |workspaceItems|
        invariant 0 <= k <= |workspaceItems|
        invariant forall j :: 0 <= j < k ==> !WorkspaceMatcher(absPath, workspacePath)(workspaceItems[j])
      {
        var filePath := NormaliseConnectionFilePath(workspaceItems[k], workspacePath);
        if filePath == Some(normaliseAbsPath) {
          FirstIndexUnique(workspaceItems, WorkspaceMatcher(absPath, workspacePath), k);
          return Some(workspaceItems[k]);
        }
        k := k + 1;
      }
      return None;
    }

    /** `getInstalledConnectionConfigItemByPath`. */
    method GetInstalledConnectionConfigItemByPath(absPath: string) returns (r: Option<ConnectionItem>)
      ensures r == ItemAt(installedItems, FirstIndex(installedItems, InstalledMatcher(absPath)))
    {
      var normaliseAbsPath := NormaliseSlashes(absPath);
      var k := 0;
      while k < |installedItems|
        invariant 0 <= k <= |installedItems|
        invariant forall j :: 0 <= j < k ==> !InstalledMatcher(absPath)(installedItems[j])
      {
        var filePath := NormaliseSlashes(OrElse(installedItems[k].filePath, ""));
        if filePath == normaliseAbsPath {
          FirstIndexUnique(installedItems, InstalledMatcher(absPath), k);
          return Some(installedItems[k]);
        }
        k := k + 1;
      }
      return None;
    }

    /** `saveWorkspaceConnectionConfig`: the file gets the collapsed copy;
        the cached list is not touched. */
    method SaveWorkspaceConnectionConfig()
      modifies this`workspaceFile
      ensures workspaceFile == CollapseAll(workspaceItems, workspacePath)
      ensures Valid() && AllSurviveSave(workspaceItems, workspacePath) ==> ExpandAll(workspaceFile, workspacePath) == workspaceItems
    {
      workspaceFile := CollapseItems(workspaceItems, workspacePath);
      if Valid() && AllSurviveSave(workspaceItems, workspacePath) {
        SaveLoadRoundTrip(workspaceItems, workspacePath);
      }
    }

    /** `saveConnectionConfig`: the installed list is written as it is. */
    method SaveConnectionConfig()
      modifies this`installedFile
      ensures installedFile == installedItems
    {
      installedFile := installedItems;
    }

    /** Splice out position `index` when it is a position (`indexOf` gave one). */
    static function Splice(items: seq<ConnectionItem>, index: Option<nat>): (r: seq<ConnectionItem>)
      requires index.Some? ==> index.value < |items|
      ensures index.None? ==> r == items
      ensures index.Some? ==> r == items[..index.value] + items[index.value + 1..]
    {
      if index.Some? then items[..index.value] + items[index.value + 1..] else items
    }

    /** `updateWorkspaceConnectionConfig`. */
    method UpdateWorkspaceConnectionConfig(absPath: string, data: ClientConnection, info: ServerInfo)
      modifies this`workspaceItems, this`workspaceFile, this`commands
      ensures workspaceItems == Upsert(old(workspaceItems), WorkspaceMatcher(absPath, workspacePath), NewItem(absPath, data, info))
      ensures workspaceFile == CollapseAll(workspaceItems, workspacePath)
      ensures commands == old(commands) + [WorkspaceRefresh]
    {
      var connectionItem := GetWorkspaceConnectionConfigItemByPath(absPath);
      if connectionItem.Some? {
        IndexOfFoundItem(workspaceItems, WorkspaceMatcher(absPath, workspacePath));
        var index := FirstIndex(workspaceItems, (y: ConnectionItem) => y == connectionItem.value);
        workspaceItems := Splice(workspaceItems, index);
      }
      workspaceItems := [NewItem(absPath, data, info)] + workspaceItems;
      SaveWorkspaceConnectionConfig();
      commands := commands + [WorkspaceRefresh];
    }

    /** `updateInstalledConnectionConfig`. */
    method UpdateInstalledConnectionConfig(absPath: string, data: ClientConnection, info: ServerInfo)
      modifies this`installedItems, this`installedFile, this`commands
      ensures installedItems == Upsert(old(installedItems), InstalledMatcher(absPath), NewItem(absPath, data, info))
      ensures installedFile == installedItems
      ensures commands == old(commands) + [InstalledRefresh]
    {
      var connectionItem := GetInstalledConnectionConfigItemByPath(absPath);
      if connectionItem.Some? {
        IndexOfFoundItem(installedItems, InstalledMatcher(absPath));
        var index := FirstIndex(installedItems, (y: ConnectionItem) => y == connectionItem.value);
        installedItems := Splice(installedItems, index);
      }
      installedItems := [NewItem(absPath, data, info)] + installedItems;
      SaveConnectionConfig();
      commands := commands + [InstalledRefresh];
    }
  }
}
