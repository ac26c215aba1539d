# Azure IoT Hub output plugin — credential resolution and call sequencing

This project models the core of the Telegraf output plugin `azure_iothub`
(`plugins/outputs/azure_iothub/azure_iothub.go`). The plugin forwards metrics to
an Azure IoT Hub as an IoT Edge module. The model covers:

- **Field presence.** Each `has*` check holds when the field, trimmed of white
  space, is not empty.
- **Validation.** A configuration is valid when it has a connection string, or a
  hub name and a shared access key together with a key name or a device id.
- **Connection-string synthesis.** The plugin writes `HostName=<hub>` and then
  `;DeviceId=`, `;ModuleId=`, `;SharedAccessKeyName=` and `;SharedAccessKey=`
  segments, in that order. Each segment appears only for a present field, and
  values are written raw, untrimmed and unescaped.
- **Init's choice of credentials.** The choice is one of three: the explicit
  connection string, a string derived from the parts, or the environment.
- **Connect's one-shot `connected` flag.**
- **Write's order.** Write serialises first and then sends.

Layout:

- `wrappers.dfy` (module `Wrappers`): `Option` for Go's nil error and nil pointers, and `Result`.
- `text.dfy` (module `Text`): white space as Go's `unicode.IsSpace` defines it,
  `strings.TrimSpace`, and the `Present` test that every `has*` check uses.
- `connection_string.dfy` (module `ConnectionString`): the `Key=Value;…` layout
  (`Join`) and a reader for it (`Parse`, `Lookup`). It proves that the reader
  gives back what `Join` wrote, for a non-empty list of settings whose keys
  hold no `=` or `;` and whose values hold no `;`.
- `azure_iothub.dfy` (module `AzureIotHub`): the configuration as a value
  (`Config`) and the pure resolution `Resolve`. The plugin instance is the class
  `Iothub`. Its fields are the source struct's fields. Its methods
  (`ValidateConfiguration`, `CreateConnectionString`, `Init`, `Connect`, `Write`)
  follow the Go methods' control flow. The package-level `connected`
  variable is its own class, `ConnectedFlag`, because every plugin instance
  shares it.

Every call into an external library is a parameter of the method that makes
it. The parameter is the call's outcome, or for the client constructor a
function from its arguments to its outcome:

- the client constructors `NewModuleFromConnectionString` and `NewModuleFromEnvironment`;
- `NewJsonSerializer`;
- `Client.Connect`;
- `SerializeBatch`;
- `SendEvent`.

Two ghost fields on `Iothub` record what the plugin asked of its client:
`clientConnects` counts connect calls, and `sentEvents` holds the payloads handed
to the send call. Errors are passed back unchanged, as the source does.

`Connect` is modelled as written: the flag is set when the client's connect call
FAILS. `CallsUntilFirstFailure` gives the consequence. Starting from a cleared
flag, every `Connect` calls the client up to and including the first failed
call, and none does after it. A successful connect therefore does not stop the
next `Connect` from connecting again.

Two details of the code that the model keeps:

- `use_gateway` is loaded into the configuration, but no code reads it.
- Both client constructors are always asked for an edge module (`edgeModule` in `ClientRequest` is always true).

A synthesised connection string is produced only when no connection string is
present. A valid configuration that also has an explicit string keeps that
string, whatever parts are set.

## Model

| member | source | states |
|---|---|---|
| `Text.TrimSpace` | plugins/outputs/azure_iothub/azure_iothub.go:65 | The trimmed string is empty exactly when every character is white space. Otherwise it starts and ends with a non-space character, and it is the slice of the input left after removing the leading run and the trailing run of white space. |
| `Text.PresentIffTrimmedNonEmpty` | plugins/outputs/azure_iothub/azure_iothub.go:63-115 | Every `has*` check is `len(TrimSpace(field)) > 0`. This holds exactly when the field has a character that is not white space, so an empty or all-blank field counts as absent. |
| `AzureIotHub.Iothub.ValidateConfiguration` | plugins/outputs/azure_iothub/azure_iothub.go:139-158 | The result is true exactly when one of three combinations of fields is present: the connection string; hub name, key and key name; or hub name, key and device id. |
| `AzureIotHub.ConnectionStringFor` | plugins/outputs/azure_iothub/azure_iothub.go:118 | The synthesised string always starts with `HostName=` followed by the raw, untrimmed hub name. It is therefore always present (non-blank). |
| `AzureIotHub.ConnectionStringFields` | plugins/outputs/azure_iothub/azure_iothub.go:118-134 | Read back as `Key=Value` settings split at `;`, the string holds exactly these, in order: the host name, then device id, module id, key name and key. Each optional setting appears if and only if its field is present, and every value is the raw field. |
| `AzureIotHub.ConnectionStringSpelledOut` | plugins/outputs/azure_iothub/azure_iothub.go:117-136 | For every configuration the synthesised string is exactly `HostName=` and the hub name, followed by `;DeviceId=`, `;ModuleId=`, `;SharedAccessKeyName=` and `;SharedAccessKey=` each with its raw field, in that order, each segment present exactly when its field is present. |
| `AzureIotHub.ExampleFromPartsAndDevice` | plugins/outputs/azure_iothub/azure_iothub.go:117-137 | Hub `myhub`, key `abc` and device `dev1` give `HostName=myhub`, then `;DeviceId=dev1`, then `;SharedAccessKey=abc`. |
| `AzureIotHub.Iothub.CreateConnectionString` | plugins/outputs/azure_iothub/azure_iothub.go:117-137 | The if-chain of appends stores exactly `ConnectionStringFor` of the old configuration in `ConnectionString`. Every other field is unchanged. |
| `ConnectionString.JoinAppend` | plugins/outputs/azure_iothub/azure_iothub.go:121-133 | Appending the text `;Key=` and a value to a joined string is the same as joining one more `Key=Value` setting, for a non-empty list of settings. |
| `ConnectionString.ParseJoin` | plugins/outputs/azure_iothub/azure_iothub.go:118-134 | Splitting a joined string at `;`, and each piece at its first `=`, gives back the settings, for a non-empty list of settings. This holds when keys hold no `=` or `;` and values hold no `;`; values may hold `=`. |
| `AzureIotHub.Resolve` | plugins/outputs/azure_iothub/azure_iothub.go:163-201 | The source is explicit exactly when a connection string is present. It is derived-from-parts exactly when there is no connection string but there are a hub name, a key, and a key name or device id. It is from-environment exactly when the configuration is invalid. Only the connection string can change, and only on the derived path, where it becomes `ConnectionStringFor`. The configuration is valid exactly when a connection string is present afterwards. |
| `AzureIotHub.RequestFor` | plugins/outputs/azure_iothub/azure_iothub.go:175-201 | The environment constructor is asked for exactly when the resolution is from the environment, and every request asks for an edge module. |
| `AzureIotHub.Iothub.Init` | plugins/outputs/azure_iothub/azure_iothub.go:161-217 | The configuration becomes `Resolve`'s result, so after a valid configuration `hasConnectionString` holds. The connection-string constructor is called with the resolved string and the three edge environment values, or the environment constructor is called when the configuration is invalid. If the constructor fails, its error is returned and the client and serializer are untouched. Otherwise the client is stored; then either the serializer library's error is returned, or the serializer is stored and nil is returned. |
| `AzureIotHub.Iothub.Connect` | plugins/outputs/azure_iothub/azure_iothub.go:219-231 | When the flag is set, nil is returned, the client is not called and the flag stays set. When the flag is clear, the client is called once, its error is returned unchanged, and the flag becomes set exactly when that call failed. The client-call count grows by one exactly when `ConnectStep` reports a call, so successive calls follow `ConnectRun`. |
| `AzureIotHub.ConnectedNeverCalls` | plugins/outputs/azure_iothub/azure_iothub.go:223-230 | Once the flag is set, no sequence of `Connect` calls calls the client again. |
| `AzureIotHub.CallsUntilFirstFailure` | plugins/outputs/azure_iothub/azure_iothub.go:222-231 | Starting from a cleared flag, successive `Connect` calls call the client every time up to and including the first failed call, and never after it. |
| `AzureIotHub.ConnectedFlag.constructor` | plugins/outputs/azure_iothub/azure_iothub.go:219 | The shared flag starts cleared. |
| `AzureIotHub.Iothub.Write` | plugins/outputs/azure_iothub/azure_iothub.go:240-247 | A serialisation error is returned and nothing is sent. Otherwise the payload is handed to the send call once, and the send call's error (or nil) is returned. |
| `AzureIotHub.Iothub.constructor` | plugins/outputs/azure_iothub/azure_iothub.go:20-30 | A plugin instance holds the configured fields, with no client and no serializer yet. |

## Left out

- `Description`, `SampleConfig` and the `init()` registration: these are constant strings and framework plumbing.
- `Close`: it only passes the client library's `Close` result back.
- The client library (`NewModuleFromConnectionString`, `NewModuleFromEnvironment`, the MQTT transport, `Client.Connect`, `SendEvent`) and the serializer library (`NewJsonSerializer`, `SerializeBatch`): they are external. Their outcomes are parameters, and the objects they create are opaque handles.
- The environment variables `IOTEDGE_GATEWAYHOSTNAME`, `IOTEDGE_MODULEGENERATIONID` and `IOTEDGE_WORKLOADURI`: they are passed in as opaque strings (`Environment`).
- Concurrency: the package-level `connected` variable is modelled as one sequential flag. The data race of concurrent `Connect` calls is not modelled.
- Strings are modelled as sequences of Unicode code points, not UTF-8 bytes. The model does not cover how `strings.TrimSpace` treats invalid UTF-8.
- Go panics on a nil client or serializer. These are not modelled. `Connect` requires a client whenever it will call one, and `Write` requires a serializer, plus a client when it will send.
- `AzureIotHub.ConnectionStringFields` is stated only for fields that contain no `;`. The plugin does not escape `;`, so a field containing one makes the synthesised string ambiguous to read back. The exact string the plugin writes is still given for every input by `ConnectionStringSpelledOut`, which `CreateConnectionString` meets.
