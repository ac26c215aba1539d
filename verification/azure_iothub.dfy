/**
 * The Azure IoT Hub output plugin: which credentials it uses, how it
 * synthesises a connection string from its parts, and the sequencing of its
 * Init, Connect and Write calls. Every call into the hub client library or the
 * serializer library is a parameter: its outcome is handed in, not computed.
 */
module AzureIotHub {
  import opened Wrappers
  import opened Text
  import opened ConnectionString

  /** An error value returned by a library call, passed on unchanged. */
  datatype Error = Error(message: string)

  /** Opaque handles for the objects the client and serializer libraries create. */
  datatype Client = Client(handle: nat)
  datatype Serializer = Serializer(handle: nat)

  /** A serialised batch of metrics, as handed to the client's send call. */
  type Payload = seq<bv8>

  /** The plugin's configuration keys, as a value. */
  datatype Config = Config(
    useGateway: bool,
    connectionString: string,
    hubName: string,
    deviceId: string,
    moduleId: string,
    sharedAccessKey: string,
    sharedAccessKeyName: string)

  predicate HasConnectionString(c: Config) { Present(c.connectionString) }
  predicate HasHubName(c: Config) { Present(c.hubName) }
  predicate HasSharedAccessKey(c: Config) { Present(c.sharedAccessKey) }
  predicate HasSharedAccessKeyName(c: Config) { Present(c.sharedAccessKeyName) }
  predicate HasDeviceID(c: Config) { Present(c.deviceId) }
  predicate HasModuleID(c: Config) { Present(c.moduleId) }

  /** The three combinations of present fields that make a configuration usable. */
  predicate IsValid(c: Config) {
    || HasConnectionString(c)
    || (HasHubName(c) && HasSharedAccessKey(c) && HasSharedAccessKeyName(c))
    || (HasHubName(c) && HasSharedAccessKey(c) && HasDeviceID(c))
  }

  function OptionalSetting(key: string, value: string): seq<Setting> {
    if Present(value) then [Setting(key, value)] else []
  }

  /**
   * The settings of a synthesised connection string: the host name always, then
   * device id, module id, key name and key, each only when present, with the
   * fields' raw (untrimmed) values.
   */
  function Settings(c: Config): (ss: seq<Setting>)
    ensures |ss| > 0 && ss[0] == Setting("HostName", c.hubName)
  {
    [Setting("HostName", c.hubName)]
    + OptionalSetting("DeviceId", c.deviceId)
    + OptionalSetting("ModuleId", c.moduleId)
    + OptionalSetting("SharedAccessKeyName", c.sharedAccessKeyName)
    + OptionalSetting("SharedAccessKey", c.sharedAccessKey)
  }

  /** Appending `;Key=` and the value when it is present appends the optional setting. */
  lemma AppendOptional(ss: seq<Setting>, conn: string, segment: string, key: string, value: string)
    requires |ss| > 0 && conn == Join(ss)
    requires segment == ";" + key + "="
    ensures conn + (if Present(value) then segment + value else "") == Join(ss + OptionalSetting(key, value))
  {
    if Present(value) {
      JoinAppend(ss, conn, segment, Setting(key, value));
    } else {
      assert ss + OptionalSetting(key, value) == ss;
      assert conn + "" == conn;
    }
  }

  /** The connection string the plugin synthesises from the configuration's parts. */
  function ConnectionStringFor(c: Config): (r: string)
    ensures "HostName=" + c.hubName <= r
    ensures Present(r)
  {
    var r := Join(Settings(c));
    JoinStartsWith(Settings(c));
    assert r[0] == ("HostName=" + c.hubName)[0] == 'H' && !IsSpace(r[0]);
    r
  }

  /**
   * The synthesised string for every configuration: `HostName=` and the raw hub
   * name, then `;DeviceId=`, `;ModuleId=`, `;SharedAccessKeyName=` and
   * `;SharedAccessKey=` each followed by its raw field, each only when that
   * field is present.
   */
  lemma ConnectionStringSpelledOut(c: Config)
    ensures ConnectionStringFor(c)
         == "HostName=" + c.hubName
          + (if HasDeviceID(c) then ";DeviceId=" + c.deviceId else "")
          + (if HasModuleID(c) then ";ModuleId=" + c.moduleId else "")
          + (if HasSharedAccessKeyName(c) then ";SharedAccessKeyName=" + c.sharedAccessKeyName else "")
          + (if HasSharedAccessKey(c) then ";SharedAccessKey=" + c.sharedAccessKey else "")
  {
    var ss := [Setting("HostName", c.hubName)];
    var conn := "HostName=" + c.hubName;
    assert conn == Join(ss) by { assert "HostName=" == "HostName" + "="; }
    assert ";DeviceId=" == ";" + "DeviceId" + "=";
    AppendOptional(ss, conn, ";DeviceId=", "DeviceId", c.deviceId);
    ss, conn := ss + OptionalSetting("DeviceId", c.deviceId), conn + (if HasDeviceID(c) then ";DeviceId=" + c.deviceId else "");
    assert ";ModuleId=" == ";" + "ModuleId" + "=";
    AppendOptional(ss, conn, ";ModuleId=", "ModuleId", c.moduleId);
    ss, conn := ss + OptionalSetting("ModuleId", c.moduleId), conn + (if HasModuleID(c) then ";ModuleId=" + c.moduleId else "");
    assert ";SharedAccessKeyName=" == ";" + "SharedAccessKeyName" + "=";
    AppendOptional(ss, conn, ";SharedAccessKeyName=", "SharedAccessKeyName", c.sharedAccessKeyName);
    ss, conn := ss + OptionalSetting("SharedAccessKeyName", c.sharedAccessKeyName),
      conn + (if HasSharedAccessKeyName(c) then ";SharedAccessKeyName=" + c.sharedAccessKeyName else "");
    assert ";SharedAccessKey=" == ";" + "SharedAccessKey" + "=";
    AppendOptional(ss, conn, ";SharedAccessKey=", "SharedAccessKey", c.sharedAccessKey);
    ss, conn := ss + OptionalSetting("SharedAccessKey", c.sharedAccessKey),
      conn + (if HasSharedAccessKey(c) then ";SharedAccessKey=" + c.sharedAccessKey else "");
  }

  /**
   * Read back with the format's own rules, the synthesised string carries the
   * raw hub name, and each optional setting exactly when its field is present,
   * with its raw value; provided no field holds the separator `;`.
   */
  lemma ConnectionStringFields(c: Config)
    requires ';' !in c.hubName && ';' !in c.deviceId && ';' !in c.moduleId
    requires ';' !in c.sharedAccessKeyName && ';' !in c.sharedAccessKey
    ensures var ss := Parse(ConnectionStringFor(c));
      && ss == Settings(c)
      && Lookup(ss, "HostName") == Some(c.hubName)
      && Lookup(ss, "DeviceId") == (if HasDeviceID(c) then Some(c.deviceId) else None)
      && Lookup(ss, "ModuleId") == (if HasModuleID(c) then Some(c.moduleId) else None)
      && Lookup(ss, "SharedAccessKeyName") == (if HasSharedAccessKeyName(c) then Some(c.sharedAccessKeyName) else None)
      && Lookup(ss, "SharedAccessKey") == (if HasSharedAccessKey(c) then Some(c.sharedAccessKey) else None)
  {
    SettingsWellFormed(c);
    ParseJoin(Settings(c));
    LookupSettings(c, "HostName");
    LookupSettings(c, "DeviceId");
    LookupSettings(c, "ModuleId");
    LookupSettings(c, "SharedAccessKeyName");
    LookupSettings(c, "SharedAccessKey");
  }

  lemma SettingsWellFormed(c: Config)
    requires ';' !in c.hubName && ';' !in c.deviceId && ';' !in c.moduleId
    requires ';' !in c.sharedAccessKeyName && ';' !in c.sharedAccessKey
    ensures AllWellFormed(Settings(c))
  {
    var h := [Setting("HostName", c.hubName)];
    var d := OptionalSetting("DeviceId", c.deviceId);
    var m := OptionalSetting("ModuleId", c.moduleId);
    var n := OptionalSetting("SharedAccessKeyName", c.sharedAccessKeyName);
    var s := OptionalSetting("SharedAccessKey", c.sharedAccessKey);
    assert '=' !in "HostName" && ';' !in "HostName";
    assert '=' !in "DeviceId" && ';' !in "DeviceId";
    assert '=' !in "ModuleId" && ';' !in "ModuleId";
    assert '=' !in "SharedAccessKeyName" && ';' !in "SharedAccessKeyName";
    assert '=' !in "SharedAccessKey" && ';' !in "SharedAccessKey";
    assert AllWellFormed(h);
    assert AllWellFormed(d);
    assert AllWellFormed(m);
    assert AllWellFormed(n);
    assert AllWellFormed(s);
    AllWellFormedAppend(h, d);
    AllWellFormedAppend(h + d, m);
    AllWellFormedAppend(h + d + m, n);
    AllWellFormedAppend(h + d + m + n, s);
  }

  lemma LookupSettings(c: Config, k: string)
    ensures Lookup(Settings(c), k) ==
      if k == "HostName" then Some(c.hubName)
      else if k == "DeviceId" && HasDeviceID(c) then Some(c.deviceId)
      else if k == "ModuleId" && HasModuleID(c) then Some(c.moduleId)
      else if k == "SharedAccessKeyName" && HasSharedAccessKeyName(c) then Some(c.sharedAccessKeyName)
      else if k == "SharedAccessKey" && HasSharedAccessKey(c) then Some(c.sharedAccessKey)
      else None
  {
    var h := [Setting("HostName", c.hubName)];
    var d := OptionalSetting("DeviceId", c.deviceId);
    var m := OptionalSetting("ModuleId", c.moduleId);
    var n := OptionalSetting("SharedAccessKeyName", c.sharedAccessKeyName);
    var s := OptionalSetting("SharedAccessKey", c.sharedAccessKey);
    LookupAppend(h + d + m + n, s, k);
    LookupAppend(h + d + m, n, k);
    LookupAppend(h + d, m, k);
    LookupAppend(h, d, k);
  }

  /** The worked example: hub name, key and device id give host, device and key settings. */
  lemma ExampleFromPartsAndDevice()
    ensures ConnectionStringFor(Config(false, "", "myhub", "dev1", "", "abc", ""))
         == "HostName=myhub" + ";DeviceId=dev1" + ";SharedAccessKey=abc"
  {
    var c := Config(false, "", "myhub", "dev1", "", "abc", "");
    assert HasDeviceID(c) by { assert !IsSpace(c.deviceId[0]); }
    assert HasSharedAccessKey(c) by { assert !IsSpace(c.sharedAccessKey[0]); }
    var host, device, key := "HostName=" + c.hubName, ";DeviceId=" + c.deviceId, ";SharedAccessKey=" + c.sharedAccessKey;
    assert host == "HostName=myhub" && device == ";DeviceId=dev1" && key == ";SharedAccessKey=abc";
    calc {
      ConnectionStringFor(c);
      { ConnectionStringSpelledOut(c); }
      host + device + "" + "" + key;
      { assert host + device + "" + "" == host + device; }
      host + device + key;
    }
  }

  /** Where the credentials come from. */
  datatype Source = ExplicitConnectionString | DerivedFromParts | FromEnvironment

  datatype Resolution = Resolution(source: Source, config: Config)

  /**
   * Init's choice of credentials and the configuration it leaves behind: an
   * invalid configuration goes to the environment untouched, a valid one keeps
   * an explicit connection string and otherwise gets a synthesised one.
   */
  function Resolve(c: Config): (r: Resolution)
    ensures r.source == ExplicitConnectionString <==> HasConnectionString(c)
    ensures r.source == DerivedFromParts <==>
      && !HasConnectionString(c) && HasHubName(c) && HasSharedAccessKey(c)
      && (HasSharedAccessKeyName(c) || HasDeviceID(c))
    ensures r.source == FromEnvironment <==> !IsValid(c)
    ensures r.config == c.(connectionString := r.config.connectionString)
    ensures r.source == DerivedFromParts ==> r.config.connectionString == ConnectionStringFor(c)
    ensures r.source != DerivedFromParts ==> r.config == c
    ensures IsValid(c) <==> HasConnectionString(r.config)
  {
    if !IsValid(c) then Resolution(FromEnvironment, c)
    else if HasConnectionString(c) then Resolution(ExplicitConnectionString, c)
    else Resolution(DerivedFromParts, c.(connectionString := ConnectionStringFor(c)))
  }

  /** The values of IOTEDGE_GATEWAYHOSTNAME, IOTEDGE_MODULEGENERATIONID and IOTEDGE_WORKLOADURI. */
  datatype Environment = Environment(gatewayHostName: string, moduleGenerationId: string, workloadUri: string)

  /**
   * The client constructor Init calls, with its arguments: `edgeModule` is the
   * final boolean argument, which the plugin always passes as true. The MQTT
   * transport argument is not represented.
   */
  datatype ClientRequest =
    | NewModuleFromConnectionString(connectionString: string, gatewayHostName: string,
                                    moduleGenerationId: string, workloadUri: string, edgeModule: bool)
    | NewModuleFromEnvironment(edgeModule: bool)

  function RequestFor(res: Resolution, env: Environment): (req: ClientRequest)
    ensures req.edgeModule
    ensures req.NewModuleFromEnvironment? <==> res.source == FromEnvironment
  {
    if res.source == FromEnvironment then NewModuleFromEnvironment(true)
    else NewModuleFromConnectionString(res.config.connectionString, env.gatewayHostName,
                                       env.moduleGenerationId, env.workloadUri, true)
  }

  /** What one Connect call does given the flag and the client's answer, were it called. */
  datatype ConnectResult = ConnectResult(connected: bool, err: Option<Error>, clientCalled: bool)

  function ConnectStep(connected: bool, outcome: Option<Error>): ConnectResult {
    if connected then ConnectResult(true, None, false)
    else ConnectResult(outcome.Some?, outcome, true)
  }

  /**
   * The number of client connect calls made by successive Connect calls, where
   * `outcomes[j]` is the answer the client gives if the j-th one calls it.
   */
  function ConnectRun(connected: bool, outcomes: seq<Option<Error>>): (calls: nat)
    ensures calls <= |outcomes|
    decreases |outcomes|
  {
    if |outcomes| == 0 then 0
    else
      var step := ConnectStep(connected, outcomes[0]);
      (if step.clientCalled then 1 else 0) + ConnectRun(step.connected, outcomes[1..])
  }

  /** Once the flag is set, no Connect calls the client again. */
  lemma {:induction false} ConnectedNeverCalls(outcomes: seq<Option<Error>>)
    ensures ConnectRun(true, outcomes) == 0
  {
    if |outcomes| > 0 {
      ConnectedNeverCalls(outcomes[1..]);
    }
  }

  /**
   * From a cleared flag, the client is called by every Connect up to and
   * including the first one whose call fails, and never after; a successful
   * call leaves the flag cleared, so the next Connect calls the client again.
   */
  lemma {:induction false} CallsUntilFirstFailure(outcomes: seq<Option<Error>>)
    ensures var n := ConnectRun(false, outcomes);
      && (|outcomes| > 0 ==> n > 0)
      && (forall j :: 0 <= j < n - 1 ==> outcomes[j].None?)
      && (n < |outcomes| ==> outcomes[n - 1].Some?)
  {
    if |outcomes| > 0 {
      var rest := outcomes[1..];
      if outcomes[0].Some? {
        ConnectedNeverCalls(rest);
      } else {
        CallsUntilFirstFailure(rest);
        var n := ConnectRun(false, outcomes);
        assert n == 1 + ConnectRun(false, rest);
        forall j | 0 <= j < n - 1 ensures outcomes[j].None? {
          if j > 0 { assert outcomes[j] == rest[j - 1]; }
        }
      }
    }
  }

  /** The package-level `connected` variable, shared by every plugin instance. */
  class ConnectedFlag {
    var connected: bool

    constructor ()
      ensures !connected
    {
      connected := false;
    }
  }

  /** One plugin instance: its configuration fields, its client and its serializer. */
  class Iothub {
    var client: Option<Client>
    var useGateway: bool
    var connectionString: string
    var hubName: string
    var deviceId: string
    var moduleId: string
    var sharedAccessKey: string
    var sharedAccessKeyName: string
    var serializer: Option<Serializer>

    /** Connect calls made on the client, and the payloads handed to its send call. */
    ghost var clientConnects: nat
    ghost var sentEvents: seq<Payload>

    function Cfg(): Config
      reads this
    {
      Config(useGateway, connectionString, hubName, deviceId, moduleId, sharedAccessKey, sharedAccessKeyName)
    }

    /** A plugin instance with its configuration loaded and nothing created yet. */
    constructor (cfg: Config)
      ensures Cfg() == cfg && client == None && serializer == None
      ensures clientConnects == 0 && sentEvents == []
    {
      client, serializer := None, None;
      useGateway, connectionString, hubName := cfg.useGateway, cfg.connectionString, cfg.hubName;
      deviceId, moduleId := cfg.deviceId, cfg.moduleId;
      sharedAccessKey, sharedAccessKeyName := cfg.sharedAccessKey, cfg.sharedAccessKeyName;
      clientConnects, sentEvents := 0, [];
    }

    method ValidateConfiguration() returns (valid: bool)
      ensures valid == IsValid(Cfg())
    {
      valid := false;
      if HasConnectionString(Cfg()) {
        valid := true;
      }
      if HasHubName(Cfg()) && HasSharedAccessKey(Cfg()) && HasSharedAccessKeyName(Cfg()) {
        valid := true;
      }
      if HasHubName(Cfg()) && HasSharedAccessKey(Cfg()) && HasDeviceID(Cfg()) {
        valid := true;
      }
    }

    /** Replaces the connection string with one synthesised from the other fields. */
    method CreateConnectionString()
      modifies this`connectionString
      ensures connectionString == ConnectionStringFor(old(Cfg()))
      ensures Cfg() == old(Cfg()).(connectionString := connectionString)
    {
      ghost var c := Cfg();
      var conn := "HostName=" + hubName;
      ghost var built := conn;
      if HasDeviceID(Cfg()) {
        conn := conn + ";DeviceId=" + deviceId;
      }
      built := built + (if HasDeviceID(c) then ";DeviceId=" + c.deviceId else "");
      assert conn == built;
      if HasModuleID(Cfg()) {
        conn := conn + ";ModuleId=" + moduleId;
      }
      built := built + (if HasModuleID(c) then ";ModuleId=" + c.moduleId else "");
      assert conn == built;
      if HasSharedAccessKeyName(Cfg()) {
        conn := conn + ";SharedAccessKeyName=" + sharedAccessKeyName;
      }
      built := built + (if HasSharedAccessKeyName(c) then ";SharedAccessKeyName=" + c.sharedAccessKeyName else "");
      assert conn == built;
      if HasSharedAccessKey(Cfg()) {
        conn := conn + ";SharedAccessKey=" + sharedAccessKey;
      }
      built := built + (if HasSharedAccessKey(c) then ";SharedAccessKey=" + c.sharedAccessKey else "");
      assert conn == built;
      ConnectionStringSpelledOut(c);
      connectionString := conn;
    }

    /**
     * Resolves the credentials, asks the client library for a client and then
     * the serializer library for a JSON serializer, stopping at the first error.
     */
    method Init(env: Environment, newClient: ClientRequest -> Result<Client, Error>,
                newSerializer: Result<Serializer, Error>)
      returns (err: Option<Error>)
      modifies this
      ensures Cfg() == Resolve(old(Cfg())).config
      ensures IsValid(old(Cfg())) ==> HasConnectionString(Cfg())
      ensures var made := newClient(RequestFor(Resolve(old(Cfg())), env));
        && (made.Failure? ==> err == Some(made.error) && client == old(client) && serializer == old(serializer))
        && (made.Success? ==> client == Some(made.value))
        && (made.Success? && newSerializer.Failure? ==> err == Some(newSerializer.error) && serializer == old(serializer))
        && (made.Success? && newSerializer.Success? ==> err == None && serializer == Some(newSerializer.value))
      ensures clientConnects == old(clientConnects) && sentEvents == old(sentEvents)
    {
      var valid := ValidateConfiguration();
      var made: Result<Client, Error>;
      if valid {
        if !HasConnectionString(Cfg()) {
          CreateConnectionString();
        }
        made := newClient(NewModuleFromConnectionString(connectionString, env.gatewayHostName,
                                                        env.moduleGenerationId, env.workloadUri, true));
      } else {
        made := newClient(NewModuleFromEnvironment(true));
      }
      if made.Failure? {
        return Some(made.error);
      }
      client := Some(made.value);
      if newSerializer.Failure? {
        return Some(newSerializer.error);
      }
      serializer := Some(newSerializer.value);
      return None;
    }

    /**
     * Connects the client unless the shared flag is set; `outcome` is what the
     * client's connect call answers. The flag is set when that call FAILS.
     */
    method Connect(flag: ConnectedFlag, outcome: Option<Error>) returns (err: Option<Error>)
      requires !flag.connected ==> client.Some?
      modifies flag, this`clientConnects
      ensures old(flag.connected) ==> err == None && flag.connected && clientConnects == old(clientConnects)
      ensures !old(flag.connected) ==>
        && err == outcome && flag.connected == outcome.Some?
        && clientConnects == old(clientConnects) + 1
      ensures var step := ConnectStep(old(flag.connected), outcome);
        && flag.connected == step.connected && err == step.err
        && clientConnects == old(clientConnects) + (if step.clientCalled then 1 else 0)
    {
      if !flag.connected {
        clientConnects := clientConnects + 1;
        err := outcome;
        if err.Some? {
          flag.connected := true;
        }
        return err;
      }
      return None;
    }

    /**
     * Serialises a batch and sends it; `serialized` is the serializer's answer
     * for the batch and `sendOutcome` the send call's. A failed serialisation
     * is returned and nothing is sent.
     */
    method Write(serialized: Result<Payload, Error>, sendOutcome: Option<Error>) returns (err: Option<Error>)
      requires serializer.Some?
      requires serialized.Success? ==> client.Some?
      modifies this`sentEvents
      ensures serialized.Failure? ==> err == Some(serialized.error) && sentEvents == old(sentEvents)
      ensures serialized.Success? ==> err == sendOutcome && sentEvents == old(sentEvents) + [serialized.value]
    {
      if serialized.Success? {
        sentEvents := sentEvents + [serialized.value];
        err := sendOutcome;
      } else {
        err := Some(serialized.error);
      }
    }
  }
}
