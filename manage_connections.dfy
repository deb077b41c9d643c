/** The manage-connections command: the connection list of the extension
    settings shown as a virtual JSONC document; saving the document
    validates the list, stores it in the settings and rebuilds the
    connections. */
module ManageConnections {
  import opened Wrappers
  import opened Strings
  import opened Json
  import opened Bullmq
  import opened Effects

  const Scheme := "bullmq-connections"
  const ConnectionsPath := "/connections.jsonc"

  /** The comment block shown above the list. */
  const Docs :=
    "/**\n"
    + " * BullMQ Explorer Connections Configuration\n"
    + " * \n"
    + " * This file defines Redis connections for BullMQ Explorer.  Save file to apply settings. \n"
    + " * Each connection requires:\n"
    + " *   - name: A unique identifier for the connection\n"
    + " *   - config: Redis connection options (ioredis library options)\n"
    + " *   - prefix (optional): A prefix for queue names\n"
    + " * \n"
    + " * Example:\n"
    + " * [\n"
    + " *   {\n"
    + " *     \"name\": \"local-redis\",\n"
    + " *     \"prefix\": \"bull\",\n"
    + " *     \"config\": {\n"
    + " *       \"host\": \"localhost\",\n"
    + " *       \"port\": 6379,\n"
    + " *       \"password\": \"\"\n"
    + " *     }\n"
    + " *   }\n"
    + " * ]\n"
    + " */\n"

  /** `formatConnectionsWithDocs`: the comment block, then the list (a
      falsy value as `[]`) as two-space indented JSON. */
  function FormatConnectionsWithDocs(connections: Json): string {
    Docs + Pretty(if Truthy(connections) then connections else JArr([]))
  }

  /** The document for the stored setting (`undefined` when absent). */
  function SettingsDocument(stored: Option<Json>): string {
    FormatConnectionsWithDocs(if stored.Some? then stored.value else JArr([]))
  }

  // ---------------------------------------------------------------------
  // Validation
  // ---------------------------------------------------------------------

  const NotAnArray := "Connections must be an array"
  const NameMissing := "Each connection must have a 'name' property"
  const ConfigMissing := "Each connection must have a 'config' property"

  /** What is wrong with one entry, if anything: reading `name` of `null`
      fails; the name must be a non-empty string; the config must be a
      truthy value of object type (an object or an array). */
  function ViolationOf(c: Json): (r: Option<string>)
    ensures r.None? <==>
      && !c.JNull?
      && (exists name :: Field(c, "name") == Some(JStr(name)) && name != "")
      && Field(c, "config").Some? && Truthy(Field(c, "config").value) && IsObjectType(Field(c, "config").value)
  {
    if c.JNull? then Some(NullPropertyMessage("name"))
    else
      var name := Field(c, "name");
      if name.None? || !name.value.JStr? || name.value.s == "" then Some(NameMissing)
      else
        var config := Field(c, "config");
        if config.None? || !Truthy(config.value) || !IsObjectType(config.value) then Some(ConfigMissing)
        else None
  }

  /** The violation the validation loop reports: that of the first invalid
      entry. */
  function FirstViolation(items: seq<Json>): (r: Option<string>)
    ensures r.None? <==> forall i :: 0 <= i < |items| ==> ViolationOf(items[i]).None?
    ensures r.Some? ==>
      exists i :: 0 <= i < |items| && ViolationOf(items[i]) == r
        && forall k :: 0 <= k < i ==> ViolationOf(items[k]).None?
  {
    if items == [] then None
    else if ViolationOf(items[0]).Some? then ViolationOf(items[0])
    else
      var r := FirstViolation(items[1..]);
      if r.Some? then
        var i :| 0 <= i < |items[1..]| && ViolationOf(items[1..][i]) == r
          && forall k :: 0 <= k < i ==> ViolationOf(items[1..][k]).None?;
        assert ViolationOf(items[i + 1]) == r;
        r
      else r
  }

  /** An entry with a name and an object config is accepted whatever else
      it holds. */
  lemma NamedEntryAccepted(name: string, config: seq<(string, Json)>, rest: seq<(string, Json)>)
    requires name != ""
    requires forall m :: m in rest ==> m.0 != "name" && m.0 != "config"
    ensures ViolationOf(JObj([("name", JStr(name)), ("config", JObj(config))] + rest)).None?
  {
    var head := [("name", JStr(name)), ("config", JObj(config))];
    FieldAppend(head, rest, "name");
    FieldAppend(head, rest, "config");
    assert head == [("name", JStr(name))] + [("config", JObj(config))];
    FieldLast([("name", JStr(name))], "config", JObj(config));
    FieldAppend([("name", JStr(name))], [("config", JObj(config))], "name");
    assert [] + [("name", JStr(name))] == [("name", JStr(name))];
    FieldLast([], "name", JStr(name));
  }

  function SuccessMessage(count: nat): string {
    "Successfully saved " + NatToString(count) + " connection(s)"
  }

  /** What saving the document does: the result of `writeFile`, the
      effects, whether the settings now hold the list and whether the
      change event fired. `updated` and `reinitialized` are the outcomes of
      the settings update and of rebuilding the connections. */
  datatype ConnectionsSave = ConnectionsSave(result: Result<(), string>, effects: seq<Effect>, stored: bool, fired: bool)

  function SaveOutcome(parsed: Json, updated: Call<()>, reinitialized: Call<()>): ConnectionsSave {
    if !parsed.JArr? then ConnectionsSave(Err(NotAnArray), [], false, false)
    else
      var violation := FirstViolation(parsed.items);
      if violation.Some? then ConnectionsSave(Err(violation.value), [], false, false)
      else if updated.Throws? then
        ConnectionsSave(Ok(()), [UpdateSettings(parsed), Error("Failed to save connections: " + updated.message)], false, false)
      else if reinitialized.Throws? then
        ConnectionsSave(Ok(()), [UpdateSettings(parsed), ReinitializeConnections,
                                 Error("Failed to save connections: " + reinitialized.message)], true, false)
      else
        ConnectionsSave(Ok(()), [UpdateSettings(parsed), ReinitializeConnections, Info(SuccessMessage(|parsed.items|))], true, true)
  }

  /** A save is refused, with nothing done, exactly when the value is not
      an array or one of its entries is invalid; otherwise the list is
      written to the settings first, and failures after that are reported
      to the user instead of failing the save. */
  lemma SaveOutcomeSpec(parsed: Json, updated: Call<()>, reinitialized: Call<()>)
    ensures var s := SaveOutcome(parsed, updated, reinitialized);
      && (s.result.Err? <==> !parsed.JArr? || exists i :: 0 <= i < |parsed.items| && ViolationOf(parsed.items[i]).Some?)
      && (s.result.Err? ==> s.effects == [] && !s.stored && !s.fired)
      && (s.result.Ok? ==> s.effects[0] == UpdateSettings(parsed))
      && (s.stored <==> s.result.Ok? && updated.Returns?)
      && (s.fired <==> s.stored && reinitialized.Returns?)
  {
  }

  /** A list whose entries all have a name and an object config is stored,
      and the success message counts its entries. */
  lemma ValidListStored(items: seq<Json>)
    requires forall i :: 0 <= i < |items| ==> ViolationOf(items[i]).None?
    ensures SaveOutcome(JArr(items), Returns(()), Returns(())) ==
      ConnectionsSave(Ok(()), [UpdateSettings(JArr(items)), ReinitializeConnections, Info(SuccessMessage(|items|))], true, true)
  {
  }

  /** The stored settings value. */
  class ExtensionSettings {
    var connections: Option<Json>

    constructor(connections: Option<Json>)
      ensures this.connections == connections
    {
      this.connections := connections;
    }
  }

  class ConnectionsFileSystemProvider {
    const settings: ExtensionSettings
    /** The number of change events fired for the document. */
    var changes: nat

    constructor(settings: ExtensionSettings)
      ensures this.settings == settings && changes == 0
    {
      this.settings := settings;
      changes := 0;
    }

    /** `readFile`: only the one connections document exists. */
    function ReadFile(scheme: string, path: string): (r: Result<string, string>)
      reads settings
      ensures (scheme == Scheme && path == ConnectionsPath) <==> r.Ok?
      ensures r.Err? ==> r.error == FileNotFound
      ensures r.Ok? ==> r.value == SettingsDocument(settings.connections)
    {
      if scheme != Scheme || path != ConnectionsPath then Err(FileNotFound)
      else Ok(SettingsDocument(settings.connections))
    }

    /** `stat`: it does not check the URI; the size is that of the
        connections document. */
    function Stat(now: int): (r: FileStat)
      reads settings
      ensures r.ctime == now && r.mtime == now
      ensures r.size == Utf8Length(ReadFile(Scheme, ConnectionsPath).value)
    {
      FileStat(now, now, Utf8Length(SettingsDocument(settings.connections)))
    }

    /** `writeFile`. `parsed` is the parsed document. */
    method WriteFile(scheme: string, path: string, parsed: Json, updated: Call<()>, reinitialized: Call<()>, wb: Workbench)
      returns (r: Result<(), string>)
      modifies settings, this`changes, wb
      ensures !(scheme == Scheme && path == ConnectionsPath) ==>
        r == Err(FileNotFound) && settings.connections == old(settings.connections)
        && changes == old(changes) && wb.log == old(wb.log)
      ensures scheme == Scheme && path == ConnectionsPath ==>
        var s := SaveOutcome(parsed, updated, reinitialized);
        && r == s.result
        && wb.log == old(wb.log) + s.effects
        && settings.connections == (if s.stored then Some(parsed) else old(settings.connections))
        && changes == old(changes) + (if s.fired then 1 else 0)
      ensures r.Ok? && updated.Returns? ==> ReadFile(scheme, path) == Ok(FormatConnectionsWithDocs(parsed))
    {
      if scheme != Scheme || path != ConnectionsPath {
        return Err(FileNotFound);
      }
      if !parsed.JArr? {
        return Err(NotAnArray);
      }
      var connections := parsed.items;
      var i := 0;
      while i < |connections|
        invariant 0 <= i <= |connections|
        invariant forall k :: 0 <= k < i ==> ViolationOf(connections[k]).None?
      {
        var violation := ViolationOf(connections[i]);
        if violation.Some? {
          assert FirstViolation(connections).Some?;
          FirstViolationIsFirst(connections, i);
          return Err(violation.value);
        }
        i := i + 1;
      }
      wb.Emit(UpdateSettings(parsed));
      if updated.Throws? {
        wb.Emit(Error("Failed to save connections: " + updated.message));
        return Ok(());
      }
      settings.connections := Some(parsed);
      wb.Emit(ReinitializeConnections);
      if reinitialized.Throws? {
        wb.Emit(Error("Failed to save connections: " + reinitialized.message));
        return Ok(());
      }
      wb.Emit(Info(SuccessMessage(|connections|)));
      changes := changes + 1;
      return Ok(());
    }
  }

  /** The violation reported is the one of the first invalid entry. */
  lemma {:induction false} FirstViolationIsFirst(items: seq<Json>, i: nat)
    requires i < |items| && ViolationOf(items[i]).Some?
    requires forall k :: 0 <= k < i ==> ViolationOf(items[k]).None?
    ensures FirstViolation(items) == ViolationOf(items[i])
    decreases i
  {
    if i > 0 {
      FirstViolationIsFirst(items[1..], i - 1);
    }
  }

  /** A document saved as valid JSON reads back as that value below the
      comment block, with an empty list shown as `[]`. */
  lemma SavedListReadsBack(items: seq<Json>)
    ensures SettingsDocument(Some(JArr(items))) == Docs + Pretty(JArr(items))
    ensures SettingsDocument(None) == Docs + "[]"
  {
  }

  const NotRegistered := "FileSystemProvider not registered"

  /** The command's state: the provider once registered. */
  class ConnectionsEditor {
    var fileSystemProvider: ConnectionsFileSystemProvider?

    constructor()
      ensures fileSystemProvider == null
    {
      fileSystemProvider := null;
    }

    /** `registerConnectionsDocumentProvider`. */
    method RegisterProvider(settings: ExtensionSettings)
      modifies this`fileSystemProvider
      ensures fileSystemProvider != null && fresh(fileSystemProvider)
      ensures fileSystemProvider.settings == settings && fileSystemProvider.changes == 0
    {
      fileSystemProvider := new ConnectionsFileSystemProvider(settings);
    }

    /** `manageConnections`: opens the connections document as a
        permanent editor; `shown` is the outcome of opening it. */
    method ManageConnections(shown: Call<()>, wb: Workbench)
      modifies wb
      ensures fileSystemProvider == null ==>
        wb.log == old(wb.log) + [Error("Failed to open connections editor: " + NotRegistered)]
      ensures fileSystemProvider != null ==>
        wb.log == old(wb.log) + [if shown.Throws? then Error("Failed to open connections editor: " + shown.message)
                                 else OpenDocument(Scheme + ":" + ConnectionsPath, false)]
    {
      if fileSystemProvider == null {
        wb.Emit(Error("Failed to open connections editor: " + NotRegistered));
      } else if shown.Throws? {
        wb.Emit(Error("Failed to open connections editor: " + shown.message));
      } else {
        wb.Emit(OpenDocument(Scheme + ":" + ConnectionsPath, false));
      }
    }
  }
}
