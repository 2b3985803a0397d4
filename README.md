# Amplifier start-up automation: a Dafny model

SocketMost bridges a car's MOST bus to applications. This project models its
start-up automation, which routes the amplifier's audio to a sink. A client
asks for `setAmplifierAudioSink(sink)`, but the sink can only be served once
the component knows the bus's device **registry**. If the registry is not yet
known, the request is parked in `commandStore`, and the registry is requested
from the bus. When the registry telegram arrives (message type 2561), its
payload is parsed. The payload is a run of packed 4-byte records
`[addrHi, addrLo, fBlockID, instanceID]`. Each record is appended, in payload
order, to the list filed under its function-block label. The label is the
name from a fixed 28-entry table of MOST function blocks, or the ID's decimal
string for an ID the table lacks. After that, the parked request is replayed.

The code has two near-identical copies:

- `AutomationServer` (`src/server/StartupAutomation.ts`). A registry telegram
  is a `SocketMostMessageRxEvent` of `type` 2561. The registry is requested
  with the imported `REQ_REGISTRY` message.
- `SinkManager` (`src/automaticStartup.ts`). A registry telegram is a message
  of `dataType` 2561. The registry is requested with an explicit control
  message (target 0x0400, block 0x02, function 0xa01, operation 0x01). Loading
  the module creates one `SinkManager` and asks it for sink 2.

The model has one shared core, instantiated twice:

- `option.dfy`: an `Option` type.
- `registry.dfy` (module `RegistryParse`): the function-block table, label
  resolution, and `Parse`. `Parse` is the pure specification of the parse
  loop. It also has the properties of the registry the loop builds: grouping,
  payload order, one block per label, the entry count, and the ending on a
  truncated payload.
- `gate.dfy` (module `Gate`): the state machine shared by both copies.
  - `CommandGate` is a class with the fields `registry` and `commandStore`,
    plus a log `sent` of the outbound calls. Its methods
    (`SetAmplifierAudioSink`, `ExecuteStep`, `NewMessageRx` and the parse loop
    `BuildRegistry`) are proved equal to pure transition functions
    (`AfterSetSink`, `AfterExecuteStep`, `AfterMessage`, `Parse`).
  - Lemmas state single-step and whole-run properties of those functions.
    Whole runs are modelled by `Run`, which feeds events to the gate one at a
    time. `Gate.RunConcat` is a property of that model rather than of any
    source line: running two batches one after the other equals running them
    as one. The end-to-end scenarios are composed with it.
  - A `Wiring` value carries the two things that differ between the copies.
- `startup_automation.dfy` (module `StartupAutomation`) and
  `automatic_startup.dfy` (module `AutomaticStartup`): the two wirings, the
  constructors, the stand-alone module's start-up, and a start-up traced end
  to end for each copy.

Three behaviours are modelled as the code does them, not as a reader might
expect:

- **A truncated payload throws.** The parse loop runs while `i < length`. So a
  payload whose length is not a multiple of 4 makes the last iteration read
  past the end, and Node's `Buffer` raises a `RangeError`. The registry was
  already assigned, so it stays, holding the records read so far. A 3-byte
  tail also creates an empty list under its label if that label has none yet. The stored command is not
  replayed for that message (`Parse` returns `RangeError`).
- **A stored command is never cleared.** `commandStore` is never reset to
  `null`. So once the registry is present, the stored request is replayed on
  every later message of any kind, and each replay streams again when the
  registry has an amplifier
  (`Gate.ReplayOnPresentRegistry`).
- **A telegram arriving after the registry is ignored.** The registry is never
  rebuilt.

## Model

| member | source | states |
|---|---|---|
| `RegistryParse.DecimalString` | src/server/StartupAutomation.ts:98 | The key of an ID missing from the table is a non-empty string of digits, with a leading `0` only for ID 0. |
| `RegistryParse.DecimalRoundTrip` | src/server/StartupAutomation.ts:98 | Reading the decimal key back as a number gives the ID again. |
| `RegistryParse.DecimalStringInjective` | src/server/StartupAutomation.ts:98 | Two IDs with the same decimal key are the same ID. |
| `RegistryParse.TableNames` | src/server/StartupAutomation.ts:14-43 | The `fBlocks` table has 28 entries and no name appears twice. |
| `RegistryParse.TableNumericNames` | src/server/StartupAutomation.ts:14-43 | Each table name that starts with a digit ("33", "35", "245", "240") is the decimal form of its own ID (0x21, 0x23, 0xf5, 0xf0). |
| `RegistryParse.TableNameMissing` | src/server/StartupAutomation.ts:98 | `id in fBlocks` is false for an ID that no row holds. |
| `RegistryParse.TableNameAt` | src/server/StartupAutomation.ts:98 | The lookup finds a row's name from its ID. |
| `RegistryParse.TableNameRow` | src/server/StartupAutomation.ts:98 | A name the lookup returns is in a row together with the ID it was looked up by. |
| `RegistryParse.LabelInjective` | src/server/StartupAutomation.ts:98 | Different function-block IDs never resolve to the same label, whether the label comes from the table or is a decimal key. |
| `RegistryParse.AmplifierLabelExample` | src/server/StartupAutomation.ts:25 | Block 0x22 is filed under "Amplifier". |
| `RegistryParse.UnknownLabelExample` | src/server/StartupAutomation.ts:98 | Block 0x99, which the table lacks, is filed under "153". |
| `RegistryParse.NumericLabelExample` | src/server/StartupAutomation.ts:24 | Block 0x21 is filed under the table's name "33". |
| `RegistryParse.AmplifierLabelOnly` | src/server/StartupAutomation.ts:82-83 | A record is filed under "Amplifier" if and only if its block ID is 0x22. |
| `RegistryParse.AddressBytes` | src/server/StartupAutomation.ts:103 | The high and low byte of a `readUint16BE` address are the two bytes it was read from. |
| `RegistryParse.Records` | src/server/StartupAutomation.ts:96-106 | The first `k` records are `k` entries, and entry `j` is the record at offset `4j`: its address from bytes `4j` and `4j+1`, its instance ID from byte `4j+3`, its block ID from byte `4j+2`. |
| `RegistryParse.Touch` | src/server/StartupAutomation.ts:99-101 | After `if (!(name in registry)) registry[name] = []`, the name is a key, every other key keeps its list, and a new key holds the empty list. |
| `RegistryParse.Push` | src/server/StartupAutomation.ts:99-106 | Filing one entry adds only its label as a key, leaves every other list alone, and appends the entry at the end of its label's list. |
| `RegistryParse.ParseTail` | src/server/StartupAutomation.ts:96-108 | The loop ends normally exactly when there is no trailing partial record. |
| `RegistryParse.Parse` | src/server/StartupAutomation.ts:93-108 | The parse completes if and only if the payload length is a multiple of 4. Otherwise it ends in a `RangeError`. |
| `RegistryParse.ParseCompletes` | src/server/StartupAutomation.ts:96 | A payload of exactly `k` records yields the registry of all `k` records, without an error. |
| `RegistryParse.ParseThrowsOnFBlockID` | src/server/StartupAutomation.ts:97 | With 1 or 2 trailing bytes, reading byte `i+2` throws and leaves the registry of the complete records. |
| `RegistryParse.ParseThrowsOnInstanceID` | src/server/StartupAutomation.ts:97-104 | With 3 trailing bytes, an empty list is created under the label if it has none yet (an existing list is kept), before reading byte `i+3` throws. |
| `RegistryParse.Labelled` | src/server/StartupAutomation.ts:98 | The records that resolve to a label: no more than the input, all drawn from it, all with that label. |
| `RegistryParse.ParseGroups` | src/server/StartupAutomation.ts:96-106 | A label is a key if and only if some record resolves to it, and its list is exactly those records in payload order. A repeated label appends and never overwrites. |
| `RegistryParse.RecordPosition` | src/server/StartupAutomation.ts:102-106 | Record `j` sits in its label's list at the position given by the number of earlier records with that label. |
| `RegistryParse.OneBlockPerLabel` | src/server/StartupAutomation.ts:98-102 | All entries under one label carry the same function-block ID. |
| `RegistryParse.ParsedAmplifiers` | src/server/StartupAutomation.ts:82-83 | Every entry under "Amplifier" is block 0x22, however the parse ended. |
| `RegistryParse.ParseCount` | src/server/StartupAutomation.ts:96-106 | `k` records make exactly `k` entries over all labels. |
| `RegistryParse.ParseEntryCount` | src/server/StartupAutomation.ts:96-108 | A payload of length `L` yields `L / 4` entries, whether or not the parse throws. |
| `RegistryParse.OrderExampleFirst` | src/server/StartupAutomation.ts:99-106 | The first amplifier record opens an "Amplifier" list holding just that entry. |
| `RegistryParse.OrderExampleFirstTwo` | src/server/StartupAutomation.ts:99-106 | The second amplifier record is appended to the same list: one "Amplifier" list, in payload order. |
| `RegistryParse.OrderExample` | src/server/StartupAutomation.ts:93-108 | Two amplifier records and one 0x21 record parse to "Amplifier" with two entries in order and "33" with one. |
| `RegistryParse.TruncatedAmplifierExample` | src/server/StartupAutomation.ts:97-104 | The 3-byte payload `10 01 22` throws and leaves "Amplifier" holding an empty list. |
| `RegistryParse.TruncatedKeepsExistingList` | src/server/StartupAutomation.ts:97-106 | A whole amplifier record followed by a 3-byte amplifier tail throws and leaves "Amplifier" holding the first entry: the existing list is not reset. |
| `Gate.Subarray` | src/server/StartupAutomation.ts:95 | `subarray(0, telLen)` is a prefix of the buffer: `telLen` bytes, clamped to the buffer, or counted back from the end when negative. |
| `Gate.AmplifierStream` | src/server/StartupAutomation.ts:82-84 | A stream is produced if and only if "Amplifier" has an entry. The stream carries the first entry's address split into a high and a low byte, its block and instance IDs, and the sink. |
| `Gate.AfterSetSink` | src/server/StartupAutomation.ts:76-88 | Without a registry, the request is stored and exactly the wiring's registry request is sent. With a registry, the stored command is kept and at most one message is sent. The registry never changes. |
| `Gate.AfterSetSinkAsWritten` | src/server/StartupAutomation.ts:82-84 | As written, a request on a registry that has an "Amplifier" key throws, and a request on a present registry changes nothing. |
| `Gate.AsWrittenNeverStreams` | src/server/StartupAutomation.ts:82-84 | Where the intended reading sends one stream, the code as written throws and sends nothing. |
| `Gate.AfterExecuteStep` | src/server/StartupAutomation.ts:69-74 | Replaying the stored command keeps the registry and the stored command, and only appends to what was sent. |
| `Gate.AfterMessage` | src/server/StartupAutomation.ts:90-114 | The registry is built only while absent and only from a registry telegram. It is built from the parse of `subarray(0, telLen)` and stays once built. The handler throws only when it builds the registry, and then exactly when that parse does; every other call returns. `commandStore` is untouched. |
| `Gate.DeferWhileAbsent` | src/server/StartupAutomation.ts:78-81 | Without a registry, a request stores `{cmd, args}` and sends exactly one registry request. |
| `Gate.LastWriteWins` | src/server/StartupAutomation.ts:79 | Two requests before the registry arrives leave only the second stored, and send two registry requests. |
| `Gate.StreamWhenPresent` | src/server/StartupAutomation.ts:82-84 | With an amplifier in the registry, a request sends exactly one stream, to the amplifier's address, with `sinkNr` equal to the sink. |
| `Gate.MissingAmplifier` | src/server/StartupAutomation.ts:85-87 | With a registry that lacks "Amplifier", a request changes nothing. |
| `Gate.ReplayOnPresentRegistry` | src/server/StartupAutomation.ts:91-114 | Once the registry is present, any message returns normally and sends the amplifier stream for the stored request again (nothing when the registry has no amplifier). |
| `Gate.ReplayOncePerMessage` | src/server/StartupAutomation.ts:112-114 | A message that does not throw replays the stored request exactly once: one more registry request while the registry is absent, the amplifier stream once it is present. |
| `Gate.SilentMessages` | src/server/StartupAutomation.ts:112-114 | A message sends nothing when no command is stored, or when the parse throws. |
| `Gate.RegistryIsFinal` | src/server/StartupAutomation.ts:91 | Over any run of events, a present registry is never replaced or dropped. |
| `Gate.CommandIsNeverCleared` | src/server/StartupAutomation.ts:112 | Over any run of events, a stored command stays stored. |
| `Gate.SentOnlyGrows` | src/server/StartupAutomation.ts:81 | Over any run of events, what was sent is only ever appended to. |
| `Gate.CommandFixedOnceRegistered` | src/server/StartupAutomation.ts:78-79 | Once the registry is present, no event changes the stored command, so replaying cannot store anew. |
| `Gate.ExamplePayload` | src/server/StartupAutomation.ts:95 | A 14-byte buffer with `telLen` 12 is cut to its 12 record bytes, which parse to two amplifiers and one "33" entry. |
| `Gate.ExampleStream` | src/server/StartupAutomation.ts:84 | The first amplifier at address 0x1001 is streamed to as high byte 0x10 and low byte 0x01. |
| `Gate.ExampleReplaysRequest` | src/server/StartupAutomation.ts:90-114 | A registry telegram arriving while a request waits builds the registry and replays the request at once, streaming to the first amplifier. |
| `Gate.CommandGate.constructor` | src/server/StartupAutomation.ts:46-47 | Both fields start as `null` and nothing has been sent. |
| `Gate.CommandGate.ExecuteStep` | src/server/StartupAutomation.ts:69-74 | The switch on the command name leaves exactly the state `AfterExecuteStep` describes. |
| `Gate.CommandGate.SetAmplifierAudioSink` | src/server/StartupAutomation.ts:76-88 | The method leaves exactly the state `AfterSetSink` describes. |
| `Gate.CommandGate.NewMessageRx` | src/server/StartupAutomation.ts:90-114 | The handler leaves exactly the state `AfterMessage` describes, and throws exactly when `AfterMessage` does. |
| `Gate.CommandGate.BuildRegistry` | src/server/StartupAutomation.ts:93-108 | The parse loop leaves the registry equal to `Parse`'s, and it throws exactly when `Parse` ends in a `RangeError`. |
| `Gate.CommandGate.OpenList` | src/server/StartupAutomation.ts:99-101 | Creates the label's empty list only when the label is missing. |
| `Gate.CommandGate.AppendEntry` | src/server/StartupAutomation.ts:102-106 | Appends one entry to the end of its label's list and changes no other list. |
| `StartupAutomation.NewAutomationServer` | src/server/StartupAutomation.ts:45-59 | A new server uses the server wiring and starts with both fields `null`. |
| `StartupAutomation.ServerRequestsRegistry` | src/server/StartupAutomation.ts:78-81 | Without a registry, the server stores the request and sends `REQ_REGISTRY`. |
| `StartupAutomation.ServerIgnoresOtherMessages` | src/server/StartupAutomation.ts:92 | A message that is not a `SocketMostMessageRxEvent` of type 2561 never builds the registry and never throws. |
| `StartupAutomation.ServerBuildsFromTelegram` | src/server/StartupAutomation.ts:92-108 | A `SocketMostMessageRxEvent` of type 2561 builds the registry from its payload. It throws if and only if the payload length is not a multiple of 4. |
| `StartupAutomation.ServerIgnoresDataType` | src/server/StartupAutomation.ts:92 | The server's handler does not depend on `dataType`. |
| `StartupAutomation.ServerRequestFirst` | src/server/StartupAutomation.ts:76-88 | A request for sink 2 with no registry stores the request and sends `REQ_REGISTRY` once. |
| `StartupAutomation.ServerTelegramNext` | src/server/StartupAutomation.ts:90-114 | The registry telegram then builds the example registry and replays the stored request: one stream (0x10, 0x01, 0x22, 0, 2) to the first amplifier. |
| `StartupAutomation.ServerStartup` | src/server/StartupAutomation.ts:76-114 | A request for sink 2, then the registry telegram: sends `REQ_REGISTRY`, then one stream (0x10, 0x01, 0x22, 0, 2), and keeps the request stored. |
| `StartupAutomation.ServerStreamsOnEveryMessage` | src/server/StartupAutomation.ts:112-114 | After start-up, every further message of any kind streams to the amplifier again. |
| `StartupAutomation.ServerAsWrittenThrows` | src/server/StartupAutomation.ts:83-84 | As written, the same request on the started server throws instead of sending the stream. |
| `AutomaticStartup.NewSinkManager` | src/automaticStartup.ts:34-37 | A new `SinkManager` uses the stand-alone wiring and starts with both fields `null`. |
| `AutomaticStartup.LoadedState` | src/automaticStartup.ts:80-94 | `setAmplifierAudioSink(2)` on a fresh manager stores sink 2 and sends the registry control message once. |
| `AutomaticStartup.ModuleStartup` | src/automaticStartup.ts:104-105 | Loading the module leaves sink 2 stored and exactly one registry request sent. |
| `AutomaticStartup.StandaloneRequestsRegistry` | src/automaticStartup.ts:82-94 | Without a registry, the request is stored and the control message (0x04, 0x00, 0x02, 0, 0xa01, 0x01, no data) is sent. |
| `AutomaticStartup.StandaloneIgnoresOtherMessages` | src/automaticStartup.ts:41 | A message whose `dataType` is not 2561 never builds the registry and never throws. |
| `AutomaticStartup.StandaloneBuildsFromTelegram` | src/automaticStartup.ts:40-57 | A message of `dataType` 2561 builds the registry from its payload. It throws if and only if the payload length is not a multiple of 4. |
| `AutomaticStartup.StandaloneIgnoresEventType` | src/automaticStartup.ts:41 | The stand-alone handler depends on neither `eventType` nor `type`. |
| `AutomaticStartup.StandaloneStartup` | src/automaticStartup.ts:38-63 | After module start-up, the registry telegram builds the registry and the replay streams to the first amplifier with sink 2. |

## Left out

- The socket.io wiring (`io.on('connection')` and the socket's `setAmplifierAudioSink` event) is left out. Each request is an event `SetSinkRequest(sink)` with an integer sink; other JavaScript values for `data.sink` are not modelled.
- The server's final `super.newMessageRx(data)` call is left out. `ExplorerServer` is not part of this model.
- The contents of `REQ_REGISTRY` are left out. It is kept as the opaque outbound message `RequestRegistry`, because its module is not part of this model.
- `console.log` output is left out.
- The transport calls `sendControlMessage`, `sendAppMessage` and `stream` are left out. They become entries appended to the `sent` log, in call order.
- `Os8104Events` is reduced to the one event the server tests for, plus one other.
- A `telLen` that is not an integer is not modelled; `telLen` is an integer.
- Of Node's `Buffer`, only the reads this code makes are modelled, including their out-of-range `RangeError`. `data` is a sequence of bytes.
- Concurrency is not modelled. Handlers run one at a time, as on the JavaScript event loop. A thrown exception propagates to callers this model leaves out (the explorer server's call of `newMessageRx`, the bus emitter's `emit`); left uncaught, Node would end the process. The model assumes the caller catches it and goes on with the next event (`Gate.Step`), and the run lemmas describe that case.
- The enumeration order of a JavaScript object's keys is not modelled; the registry is a map. Nothing in the core enumerates the registry.
- `Gate.AmplifierStream`: an "Amplifier" list can be empty when a 3-byte tail ends the parse (`RegistryParse.TruncatedAmplifierExample`). Under the intended reading there is then no first entry, and JavaScript would throw a `TypeError`. The model sends nothing and does not throw.
- `Gate.AfterMessage`: the replay of a stored request follows the intended amplifier reading (see Findings). As written, a replay on a registry with an "Amplifier" key would throw the same `TypeError` inside the handler.

## Findings

| source | as written | input that shows it | evidently intended | confidence | as-written member | corrected member |
|---|---|---|---|---|---|---|
| src/server/StartupAutomation.ts:83-84 (the same code is at src/automaticStartup.ts:96-97) | `this.registry.Amplifier` is the LIST of amplifier entries the parse loop pushed into. A list has no `address`, and an entry's `address` is a number without `readUint8`. So `amplifier.address.readUint8(0)` throws a `TypeError`, and no stream is ever sent once the registry is present. | registry `{"Amplifier": [{address: 0x1001, instanceID: 0, fBlockID: 0x22}, …], "33": […]}` (the state `StartupAutomation.Started`), then `setAmplifierAudioSink(2)`; shown by `StartupAutomation.ServerAsWrittenThrows` | stream from the first amplifier, with its address split into high and low byte: `{sourceAddrHigh: 0x10, sourceAddrLow: 0x01, fBlockID: 0x22, instanceID: 0, sinkNr: 2}` | not executed; high | `Gate.AfterSetSinkAsWritten` | `Gate.AfterSetSink` |
