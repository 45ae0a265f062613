/** The connection panel of the renderer (renderer/src/views/connect/connection.ts):
    the environment list sent with a connection, the preset variables that can
    be merged into it or filtered out of it, the split of a stdio command string
    into command and arguments, and the recorded outcome of a connection
    attempt. The message bridge that answers the lookup and the connection
    request is replaced by the values it answers with. */
module ConnectionEnv {
  import opened Common

  /** One row of `connectionEnv.data`. */
  datatype EnvItem = EnvItem(key: string, value: string)

  /** The environment variables `handleEnvSwitch` looks up in the host. */
  const PresetVars: seq<string> := ["HOME", "LOGNAME", "PATH", "SHELL", "TERM", "USER"]

  predicate IsPreset(key: string) {
    key in PresetVars
  }

  lemma PresetVarsDistinct()
    ensures forall i, j :: 0 <= i < j < |PresetVars| ==> PresetVars[i] != PresetVars[j]
  {
    assert PresetVars[0][0] == 'H' && PresetVars[1][0] == 'L' && PresetVars[2][0] == 'P';
    assert PresetVars[3][0] == 'S' && PresetVars[4][0] == 'T' && PresetVars[5][0] == 'U';
  }

  /** No preset key repeats an earlier one. */
  lemma PresetNotEarlier(n: nat)
    requires n < |PresetVars|
    ensures PresetVars[n] !in PresetVars[..n]
  {
    PresetVarsDistinct();
  }

  // ---------------------------------------------------------------------------
  // makeEnv

  /** The record `makeEnv` builds: every key of the list, bound by the rows in order. */
  function EnvOf(data: seq<EnvItem>): (r: map<string, string>)
    ensures forall key :: key in r <==> exists i :: 0 <= i < |data| && data[i].key == key
  {
    if |data| == 0 then map[]
    else
      var last := data[|data| - 1];
      var prefix := EnvOf(data[..|data| - 1]);
      assert forall i :: 0 <= i < |data| - 1 ==> data[..|data| - 1][i] == data[i];
      prefix[last.key := last.value]
  }

  /** A key is bound to the value of its last occurrence in the list. */
  lemma {:induction false} EnvOfLastWins(data: seq<EnvItem>, i: nat)
    requires i < |data|
    requires forall j :: i < j < |data| ==> data[j].key != data[i].key
    ensures data[i].key in EnvOf(data) && EnvOf(data)[data[i].key] == data[i].value
  {
    if i < |data| - 1 {
      var prefix := data[..|data| - 1];
      assert prefix[i] == data[i];
      forall j | i < j < |prefix| ensures prefix[j].key != prefix[i].key {
        assert prefix[j] == data[j];
      }
      EnvOfLastWins(prefix, i);
    }
  }

  // ---------------------------------------------------------------------------
  // handleEnvSwitch, as functions of the list

  function KeyIs(key: string): EnvItem -> bool {
    (item: EnvItem) => item.key == key
  }

  /** One round of the enabling loop: the first row with the key takes the
      value, or a new row is pushed when there is none. */
  function SetFirst(data: seq<EnvItem>, key: string, value: string): seq<EnvItem> {
    match FirstIndex(data, KeyIs(key))
    case Some(k) => data[k := data[k].(value := value)]
    case None => data + [EnvItem(key, value)]
  }

  /** The rows pushed by the first `n` rounds: one per preset key absent from
      the list, in preset order. */
  function Missing(data: seq<EnvItem>, values: seq<string>, n: nat): (r: seq<EnvItem>)
    requires n <= |PresetVars| == |values|
    ensures |r| <= n
    ensures forall k :: 0 <= k < |r| ==> r[k].key in PresetVars[..n]
  {
    if n == 0 then []
    else
      var earlier := Missing(data, values, n - 1);
      assert PresetVars[..n - 1] <= PresetVars[..n];
      if FirstIndex(data, KeyIs(PresetVars[n - 1])).None? then earlier + [EnvItem(PresetVars[n - 1], values[n - 1])]
      else earlier
  }

  /** The list after the first `n` rounds of the enabling loop. It keeps the
      keys of the old rows in place and ends with the pushed rows. */
  function Enabled(data: seq<EnvItem>, values: seq<string>, n: nat): (r: seq<EnvItem>)
    requires n <= |PresetVars| == |values|
    ensures |r| == |data| + |Missing(data, values, n)|
    ensures forall k :: 0 <= k < |data| ==> r[k].key == data[k].key
    ensures r[|data|..] == Missing(data, values, n)
  {
    if n == 0 then data
    else
      var prev := Enabled(data, values, n - 1);
      var key := PresetVars[n - 1];
      PresetNotEarlier(n - 1);
      FirstIndexInEnabled(data, prev, key, Missing(data, values, n - 1), n - 1);
      SetFirst(prev, key, values[n - 1])
  }

  /** Round `n` of the enabling loop sets the first row of the `n`-th preset key. */
  lemma EnabledStep(data: seq<EnvItem>, values: seq<string>, n: nat)
    requires n < |PresetVars| == |values|
    ensures Enabled(data, values, n + 1) == SetFirst(Enabled(data, values, n), PresetVars[n], values[n])
  {
  }

  /** `handleEnvSwitch(true)` with the looked-up values. */
  function Enable(data: seq<EnvItem>, values: seq<string>): seq<EnvItem>
    requires |values| == |PresetVars|
  {
    Enabled(data, values, |PresetVars|)
  }

  /** `handleEnvSwitch(false)`: the rows whose key is not a preset key. */
  function Disable(data: seq<EnvItem>): (r: seq<EnvItem>)
    ensures forall k :: 0 <= k < |r| ==> !IsPreset(r[k].key)
    ensures forall x :: x in r <==> x in data && !IsPreset(x.key)
  {
    if |data| == 0 then []
    else if IsPreset(data[0].key) then Disable(data[1..])
    else [data[0]] + Disable(data[1..])
  }

  // ---------------------------------------------------------------------------
  // First occurrences across the enabling loop

  /** A list that keeps the keys of `data` in place and appends rows with keys
      other than `key` finds `key` where `data` does. */
  lemma FirstIndexInEnabled(data: seq<EnvItem>, e: seq<EnvItem>, key: string, tail: seq<EnvItem>, n: nat)
    requires n < |PresetVars| && key == PresetVars[n]
    requires key !in PresetVars[..n]
    requires |e| == |data| + |tail| && e[|data|..] == tail
    requires forall k :: 0 <= k < |data| ==> e[k].key == data[k].key
    requires forall k :: 0 <= k < |tail| ==> tail[k].key in PresetVars[..n]
    ensures FirstIndex(e, KeyIs(key)) == FirstIndex(data, KeyIs(key))
  {
    match FirstIndex(data, KeyIs(key))
    case Some(j) =>
      FirstIndexUnique(e, KeyIs(key), j);
    case None =>
      forall k | 0 <= k < |e| ensures !KeyIs(key)(e[k]) {
        if k >= |data| {
          assert e[k] == tail[k - |data|];
        }
      }
  }

  /** Where a round leaves the first row of its own key, with the new value. */
  lemma SetFirstSets(data: seq<EnvItem>, key: string, value: string)
    ensures var r := SetFirst(data, key, value);
      var old_k := FirstIndex(data, KeyIs(key));
      var k := if old_k.Some? then old_k.value else |data|;
      k < |r| && FirstIndex(r, KeyIs(key)) == Some(k) && r[k] == EnvItem(key, value)
  {
    var r := SetFirst(data, key, value);
    match FirstIndex(data, KeyIs(key))
    case Some(k) =>
      FirstIndexUnique(r, KeyIs(key), k);
    case None =>
      FirstIndexUnique(r, KeyIs(key), |data|);
  }

  /** A round for one key leaves the first row of any other key where it was, unchanged. */
  lemma SetFirstKeepsOthers(data: seq<EnvItem>, key: string, value: string, other: string)
    requires other != key
    ensures var r := SetFirst(data, key, value);
      FirstIndex(r, KeyIs(other)) == FirstIndex(data, KeyIs(other)) &&
      (FirstIndex(data, KeyIs(other)).Some? ==> r[FirstIndex(data, KeyIs(other)).value] == data[FirstIndex(data, KeyIs(other)).value])
  {
    var r := SetFirst(data, key, value);
    assert forall k :: 0 <= k < |data| ==> r[k].key == data[k].key;
    match FirstIndex(data, KeyIs(other))
    case Some(j) =>
      FirstIndexUnique(r, KeyIs(other), j);
    case None =>
      forall k | 0 <= k < |r| ensures !KeyIs(other)(r[k]) {
        if k >= |data| {
          assert r[k] == EnvItem(key, value);
        }
      }
  }

  /** The first row of `key` in `r` holds `value`, at the position the key
      first had in `data`, or past the end of `data` when `data` lacked it. */
  predicate MergedAt(r: seq<EnvItem>, data: seq<EnvItem>, key: string, value: string) {
    var k := FirstIndex(r, KeyIs(key));
    var old_k := FirstIndex(data, KeyIs(key));
    && k.Some? && r[k.value] == EnvItem(key, value)
    && (old_k.Some? ==> k == old_k)
    && (old_k.None? ==> k.value >= |data|)
  }

  /** The round of a key merges its value. */
  lemma MergedByOwnRound(prev: seq<EnvItem>, data: seq<EnvItem>, key: string, value: string)
    requires |prev| >= |data| && FirstIndex(prev, KeyIs(key)) == FirstIndex(data, KeyIs(key))
    ensures MergedAt(SetFirst(prev, key, value), data, key, value)
  {
    SetFirstSets(prev, key, value);
  }

  /** The round of another key keeps a merged value merged. */
  lemma MergedKeptByOtherRound(prev: seq<EnvItem>, data: seq<EnvItem>, key: string, value: string,
                               other: string, otherValue: string)
    requires other != key && MergedAt(prev, data, key, value)
    ensures MergedAt(SetFirst(prev, other, otherValue), data, key, value)
  {
    SetFirstKeepsOthers(prev, other, otherValue, key);
  }

  /** Round `n` of the enabling loop finds the first row of its key where
      the old list had it, in a list at least as long. */
  lemma EnabledRound(data: seq<EnvItem>, values: seq<string>, n: nat)
    requires 0 < n <= |PresetVars| == |values|
    ensures Enabled(data, values, n) == SetFirst(Enabled(data, values, n - 1), PresetVars[n - 1], values[n - 1])
    ensures FirstIndex(Enabled(data, values, n - 1), KeyIs(PresetVars[n - 1])) == FirstIndex(data, KeyIs(PresetVars[n - 1]))
    ensures |Enabled(data, values, n - 1)| >= |data| && PresetVars[n - 1] !in PresetVars[..n - 1]
  {
    PresetNotEarlier(n - 1);
    FirstIndexInEnabled(data, Enabled(data, values, n - 1), PresetVars[n - 1], Missing(data, values, n - 1), n - 1);
  }

  /** The first row of a preset key among the first `n` holds its looked-up
      value, at the position the key first had in the old list, or among the
      pushed rows when the old list lacked it. */
  lemma {:induction false} EnabledMerges(data: seq<EnvItem>, values: seq<string>, n: nat, i: nat)
    requires n <= |PresetVars| == |values| && i < n
    ensures MergedAt(Enabled(data, values, n), data, PresetVars[i], values[i])
  {
    var prev := Enabled(data, values, n - 1);
    EnabledRound(data, values, n);
    if i == n - 1 {
      MergedByOwnRound(prev, data, PresetVars[i], values[i]);
    } else {
      EnabledMerges(data, values, n - 1, i);
      assert PresetVars[..n - 1][i] == PresetVars[i];
      MergedKeptByOtherRound(prev, data, PresetVars[i], values[i], PresetVars[n - 1], values[n - 1]);
    }
  }

  /** Every row other than the first of a preset key comes through a round unchanged. */
  lemma {:induction false} EnabledKeepsRow(data: seq<EnvItem>, values: seq<string>, n: nat, k: nat)
    requires n <= |PresetVars| == |values| && k < |data|
    requires !IsPreset(data[k].key) || FirstIndex(data, KeyIs(data[k].key)) != Some(k)
    ensures Enabled(data, values, n)[k] == data[k]
  {
    if n > 0 {
      var prev := Enabled(data, values, n - 1);
      var key := PresetVars[n - 1];
      EnabledKeepsRow(data, values, n - 1, k);
      PresetNotEarlier(n - 1);
      FirstIndexInEnabled(data, prev, key, Missing(data, values, n - 1), n - 1);
    }
  }

  /** Enabling merges the looked-up values into the list:
      - every preset key ends up with its looked-up value on its first row;
      - a key the list already had keeps that first row's position;
      - a key the list lacked gets a row pushed at the end, in preset order;
      - every other row, including later rows of a preset key, is unchanged. */
  lemma EnableMerges(data: seq<EnvItem>, values: seq<string>)
    requires |values| == |PresetVars|
    ensures var r := Enable(data, values);
      forall i :: 0 <= i < |PresetVars| ==>
        var k := FirstIndex(r, KeyIs(PresetVars[i]));
        var old_k := FirstIndex(data, KeyIs(PresetVars[i]));
        k.Some? && r[k.value] == EnvItem(PresetVars[i], values[i]) &&
        (old_k.Some? ==> k == old_k) &&
        (old_k.None? ==> k.value >= |data|)
    ensures var r := Enable(data, values);
      forall k :: 0 <= k < |data| && (!IsPreset(data[k].key) || FirstIndex(data, KeyIs(data[k].key)) != Some(k)) ==> r[k] == data[k]
  {
    forall i | 0 <= i < |PresetVars| ensures
      var r := Enable(data, values);
      var k := FirstIndex(r, KeyIs(PresetVars[i]));
      var old_k := FirstIndex(data, KeyIs(PresetVars[i]));
      k.Some? && r[k.value] == EnvItem(PresetVars[i], values[i]) &&
      (old_k.Some? ==> k == old_k) &&
      (old_k.None? ==> k.value >= |data|)
    {
      EnabledMerges(data, values, |PresetVars|, i);
    }
    forall k | 0 <= k < |data| && (!IsPreset(data[k].key) || FirstIndex(data, KeyIs(data[k].key)) != Some(k))
      ensures Enable(data, values)[k] == data[k]
    {
      EnabledKeepsRow(data, values, |PresetVars|, k);
    }
  }

  /** A round that finds its key already holding the value changes nothing. */
  lemma SetFirstSettled(data: seq<EnvItem>, key: string, value: string)
    requires FirstIndex(data, KeyIs(key)).Some?
    requires data[FirstIndex(data, KeyIs(key)).value].value == value
    ensures SetFirst(data, key, value) == data
  {
  }

  /** Rounds over keys whose first rows already hold their values change nothing. */
  lemma {:induction false} EnabledSettled(data: seq<EnvItem>, values: seq<string>, n: nat)
    requires n <= |PresetVars| == |values|
    requires forall i :: 0 <= i < n ==>
      FirstIndex(data, KeyIs(PresetVars[i])).Some? &&
      data[FirstIndex(data, KeyIs(PresetVars[i])).value].value == values[i]
    ensures Enabled(data, values, n) == data
  {
    if n > 0 {
      EnabledSettled(data, values, n - 1);
      SetFirstSettled(data, PresetVars[n - 1], values[n - 1]);
    }
  }

  /** Enabling twice with the same looked-up values is enabling once. */
  lemma EnableIdempotent(data: seq<EnvItem>, values: seq<string>)
    requires |values| == |PresetVars|
    ensures Enable(Enable(data, values), values) == Enable(data, values)
  {
    EnableMerges(data, values);
    EnabledSettled(Enable(data, values), values, |PresetVars|);
  }

  /** Filtering a concatenation filters each part. */
  lemma {:induction false} DisableAppend(a: seq<EnvItem>, b: seq<EnvItem>)
    ensures Disable(a + b) == Disable(a) + Disable(b)
  {
    if |a| > 0 {
      assert (a + b)[1..] == a[1..] + b;
      DisableAppend(a[1..], b);
    } else {
      assert a + b == b;
    }
  }

  /** A list without preset keys is left as it is. */
  lemma {:induction false} DisableIdentity(data: seq<EnvItem>)
    requires forall k :: 0 <= k < |data| ==> !IsPreset(data[k].key)
    ensures Disable(data) == data
  {
    if |data| > 0 {
      DisableIdentity(data[1..]);
    }
  }

  /** Disabling twice is disabling once. */
  lemma DisableIdempotent(data: seq<EnvItem>)
    ensures Disable(Disable(data)) == Disable(data)
  {
    DisableIdentity(Disable(data));
  }

  /** A round of the enabling loop touches only rows of a preset key. */
  lemma DisableSetFirst(data: seq<EnvItem>, key: string, value: string)
    requires IsPreset(key)
    ensures Disable(SetFirst(data, key, value)) == Disable(data)
  {
    match FirstIndex(data, KeyIs(key))
    case Some(k) =>
      var r := data[k := data[k].(value := value)];
      assert data == data[..k] + [data[k]] + data[k + 1..];
      assert r == data[..k] + [r[k]] + data[k + 1..];
      DisableAppend(data[..k] + [data[k]], data[k + 1..]);
      DisableAppend(data[..k], [data[k]]);
      DisableAppend(data[..k] + [r[k]], data[k + 1..]);
      DisableAppend(data[..k], [r[k]]);
    case None =>
      DisableAppend(data, [EnvItem(key, value)]);
  }

  lemma {:induction false} DisableEnabled(data: seq<EnvItem>, values: seq<string>, n: nat)
    requires n <= |PresetVars| == |values|
    ensures Disable(Enabled(data, values, n)) == Disable(data)
  {
    if n > 0 {
      DisableEnabled(data, values, n - 1);
      DisableSetFirst(Enabled(data, values, n - 1), PresetVars[n - 1], values[n - 1]);
    }
  }

  /** Switching the presets off after switching them on gives the list that
      switching them off alone gives: enabling adds nothing but preset rows. */
  lemma DisableAfterEnable(data: seq<EnvItem>, values: seq<string>)
    requires |values| == |PresetVars|
    ensures Disable(Enable(data, values)) == Disable(data)
  {
    DisableEnabled(data, values, |PresetVars|);
  }

  // ---------------------------------------------------------------------------
  // The command split of `launchStdio`

  datatype CommandLine = CommandLine(command: string, args: seq<string>)

  /** The command string split on runs of whitespace: the first piece is the
      command, the others in order are the arguments. */
  function SplitCommand(commandString: string): (r: CommandLine)
    ensures [r.command] + r.args == SplitWhitespace(commandString)
    ensures !HasWhitespace(r.command) && forall k :: 0 <= k < |r.args| ==> !HasWhitespace(r.args[k])
    ensures forall k :: 0 <= k < |r.args| - 1 ==> r.args[k] != []
    ensures commandString != [] && !IsWhitespace(commandString[0]) ==> r.command != []
  {
    var pieces := SplitWhitespace(commandString);
    assert [pieces[0]] + pieces[1..] == pieces;
    CommandLine(pieces[0], pieces[1..])
  }

  // ---------------------------------------------------------------------------
  // Mutable state

  /** `connectionEnv`: the environment rows edited in the panel. */
  class ConnectionEnvState {
    var data: seq<EnvItem>

    constructor ()
      ensures data == []
    {
      data := [];
    }

    /** `makeEnv`: fold the rows into a record, later rows overriding earlier ones. */
    method MakeEnv() returns (env: map<string, string>)
      ensures env == EnvOf(data)
    {
      env := map[];
      var i := 0;
      while i < |data|
        invariant 0 <= i <= |data|
        invariant env == EnvOf(data[..i])
      {
        assert data[..i + 1][..i] == data[..i];
        env := env[data[i].key := data[i].value];
        i := i + 1;
      }
      assert data[..|data|] == data;
    }

    /** `handleEnvSwitch`. Switching on merges the values the host lookup
        answered with, one per preset key, and does nothing when the lookup
        failed (`values` is `None`); switching off removes the preset rows. */
    method HandleEnvSwitch(enabled: bool, values: Option<seq<string>>)
      requires enabled && values.Some? ==> |values.value| == |PresetVars|
      modifies this`data
      ensures enabled && values.Some? ==> data == Enable(old(data), values.value)
      ensures enabled && values.None? ==> data == old(data)
      ensures !enabled ==> data == Disable(old(data))
    {
      if enabled {
        if values.Some? {
          MergePresets(values.value);
        }
      } else {
        data := Disable(data);
      }
    }

    /** The enabling loop: for each preset key in order, the first row with
        that key takes the looked-up value, or a row is pushed. */
    method MergePresets(vs: seq<string>)
      requires |vs| == |PresetVars|
      modifies this`data
      ensures data == Enable(old(data), vs)
    {
      ghost var start := data;
      var i := 0;
      while i < |PresetVars|
        invariant 0 <= i <= |PresetVars|
        invariant data == Enabled(start, vs, i)
      {
        EnabledStep(start, vs, i);
        SetFirstRow(PresetVars[i], vs[i]);
        i := i + 1;
      }
    }

    /** One round of the enabling loop: the first row with the key takes the
        value, or a row is pushed. */
    method SetFirstRow(key: string, value: string)
      modifies this`data
      ensures data == SetFirst(old(data), key, value)
    {
      var first := FirstIndex(data, KeyIs(key));
      if first.Some? {
        data := data[first.value := data[first.value].(value := value)];
      } else {
        data := data + [EnvItem(key, value)];
      }
    }
  }

  datatype LogKind = Info | LogError

  datatype LogEntry = LogEntry(kind: LogKind, message: string)

  /** `connectionResult`: whether the last connection succeeded and the log shown in the panel. */
  class ConnectionResult {
    var success: bool
    var logString: seq<LogEntry>

    constructor ()
      ensures !success && logString == []
    {
      success := false;
      logString := [];
    }

    /** What `launchStdio` and `launchSSE` record from the reply to a
        connection request: success exactly when the code is 200, and the
        reply's message as an info or error line. */
    method RecordConnectReply(code: int, msg: string)
      modifies this`success, this`logString
      ensures success <==> code == 200
      ensures logString == old(logString) + [LogEntry(if code == 200 then Info else LogError, msg)]
    {
      success := code == 200;
      if code == 200 {
        logString := logString + [LogEntry(Info, msg)];
      } else {
        logString := logString + [LogEntry(LogError, msg)];
      }
    }
  }
}
