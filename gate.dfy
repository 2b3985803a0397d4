/**
 * The discovery-gated command dispatcher shared by the `AutomationServer`
 * (src/server/StartupAutomation.ts) and the `SinkManager`
 * (src/automaticStartup.ts). Both hold two fields, `registry` and
 * `commandStore`, both start as `null`, and both have the same two entry
 * points: `setAmplifierAudioSink(sink)` and the inbound-message handler. The
 * two copies differ only in which inbound message counts as a registry
 * telegram and in what the registry request looks like; a `Wiring` value
 * carries those two differences.
 *
 * Outbound effects (`sendControlMessage`, `sendAppMessage`, `stream`) are
 * recorded in order in the field `sent`.
 */
module Gate {
  import opened Optional
  import opened RegistryParse

  // ---------------------------------------------------------------------
  // Messages in and out
  // ---------------------------------------------------------------------

  /** `Os8104Events`, reduced to the one event the server tests for. */
  datatype EventType = SocketMostMessageRxEvent | OtherEvent

  /**
   * An inbound bus message. The server reads `eventType` and `type`
   * (`msgType` here); the stand-alone copy reads `dataType`. Registry
   * telegrams carry `telLen` and the raw `data` buffer.
   */
  datatype Inbound = Inbound(eventType: EventType, msgType: int, dataType: int, telLen: int, data: seq<byte>)

  /** Message type of the registry telegram. */
  const RegistryMessageType: int := 2561

  /** An outbound call on the bus transport. */
  datatype Outbound =
    | RequestRegistry
      // the server's imported `REQ_REGISTRY` constant, whose contents are not part of this model
    | ControlMessage(targetAddressHigh: int, targetAddressLow: int, fBlockID: int, instanceID: int,
                     fktID: int, opType: int, data: seq<byte>)
    | Stream(sourceAddrHigh: int, sourceAddrLow: int, fBlockID: int, instanceID: int, sinkNr: int)

  /** The stored command `{cmd, args}`. */
  datatype Command = Command(cmd: string, args: int)

  const SetAmplifierAudioSinkCmd: string := "setAmplifierAudioSink"

  /** What tells the two copies apart. */
  datatype Wiring = Wiring(isRegistryTelegram: Inbound -> bool, registryRequest: Outbound)

  /** The fields of the gate, plus everything it has sent so far. */
  datatype GateState = GateState(registry: Option<Registry>, commandStore: Option<Command>, sent: seq<Outbound>)

  /** How a handler ends: normally, or by an exception, with the state it leaves. */
  datatype Outcome = Returned(state: GateState) | Threw(state: GateState)

  /** Both fields start as `null`; nothing has been sent. */
  const Initial: GateState := GateState(None, None, [])

  // ---------------------------------------------------------------------
  // The payload of a registry telegram
  // ---------------------------------------------------------------------

  /**
   * `data.subarray(0, end)`: a negative end counts back from the end of the
   * buffer, an end past the buffer is clamped to its length.
   */
  function Subarray(data: seq<byte>, end: int): (r: seq<byte>)
    ensures r <= data
    ensures 0 <= end ==> |r| == (if end < |data| then end else |data|)
    ensures end < 0 ==> |r| == (if |data| + end < 0 then 0 else |data| + end)
  {
    if end < 0 then (if |data| + end < 0 then [] else data[..|data| + end])
    else if end < |data| then data[..end]
    else data
  }

  function Payload(m: Inbound): seq<byte> {
    Subarray(m.data, m.telLen)
  }

  // ---------------------------------------------------------------------
  // The amplifier stream
  // ---------------------------------------------------------------------

  /**
   * The stream branch as evidently intended, which the rest of the model
   * uses: the FIRST entry of the "Amplifier" list, its 16-bit address split
   * into the high byte `address / 256` (what `readUint8(0)` of a big-endian
   * buffer gives) and the low byte `address % 256` (`readUint8(1)`).
   * An empty list has no first entry: nothing is sent.
   */
  function AmplifierStream(reg: Registry, sink: int): (r: Option<Outbound>)
    ensures r.Some? <==> AmplifierLabel in reg && reg[AmplifierLabel] != []
    ensures r.Some? ==>
              var a := reg[AmplifierLabel][0];
              && r.value.Stream?
              && 0 <= r.value.sourceAddrHigh < 0x100 && 0 <= r.value.sourceAddrLow < 0x100
              && r.value.sourceAddrHigh * 0x100 + r.value.sourceAddrLow == a.address
              && r.value.fBlockID == a.fBlockID && r.value.instanceID == a.instanceID
              && r.value.sinkNr == sink
  {
    if AmplifierLabel in reg && reg[AmplifierLabel] != [] then
      var amplifier := reg[AmplifierLabel][0];
      Some(Stream(amplifier.address / 0x100, amplifier.address % 0x100,
                  amplifier.fBlockID, amplifier.instanceID, sink))
    else None
  }

  // ---------------------------------------------------------------------
  // The transitions
  // ---------------------------------------------------------------------

  /**
   * `setAmplifierAudioSink(sink)`: without a registry, store the command
   * (last write wins) and request the registry; with one, stream to the
   * amplifier if the registry names one, else only log.
   */
  function AfterSetSink(w: Wiring, st: GateState, sink: int): (r: GateState)
    ensures r.registry == st.registry
    ensures st.registry.None? ==> r.commandStore == Some(Command(SetAmplifierAudioSinkCmd, sink))
    ensures st.registry.None? ==> r.sent == st.sent + [w.registryRequest]
    ensures st.registry.Some? ==> r.commandStore == st.commandStore
    ensures st.sent <= r.sent && |r.sent| <= |st.sent| + 1
  {
    match st.registry
    case None =>
      st.(commandStore := Some(Command(SetAmplifierAudioSinkCmd, sink)), sent := st.sent + [w.registryRequest])
    case Some(reg) =>
      st.(sent := st.sent + ToSeq(AmplifierStream(reg, sink)))
  }

  /**
   * `setAmplifierAudioSink` exactly as written: with a registry that has an
   * "Amplifier" key, `this.registry.Amplifier` is the LIST the parse loop
   * pushed into; a list has no `address` property, so
   * `amplifier.address.readUint8(0)` throws a TypeError before `stream` is
   * called. Once the registry is present, nothing is ever sent.
   */
  function AfterSetSinkAsWritten(w: Wiring, st: GateState, sink: int): (r: Outcome)
    ensures st.registry.Some? ==> r.state == st
    ensures r.Threw? <==> st.registry.Some? && AmplifierLabel in st.registry.value
  {
    match st.registry
    case None => Returned(AfterSetSink(w, st, sink))
    case Some(reg) => if AmplifierLabel in reg then Threw(st) else Returned(st)
  }

  /**
   * Where the two readings part: with an amplifier in the registry, the code
   * as written throws and sends nothing, while the intended reading sends
   * exactly one stream.
   */
  lemma AsWrittenNeverStreams(w: Wiring, st: GateState, sink: int)
    requires st.registry.Some? && AmplifierLabel in st.registry.value
    requires st.registry.value[AmplifierLabel] != []
    ensures AfterSetSinkAsWritten(w, st, sink) == Threw(st)
    ensures |AfterSetSink(w, st, sink).sent| == |st.sent| + 1
  {
  }

  /**
   * `executeStep(cmd, args)`: dispatch on the command name. Replaying the
   * stored command never changes the registry and leaves the same command
   * stored.
   */
  function AfterExecuteStep(w: Wiring, st: GateState, c: Command): (r: GateState)
    ensures r.registry == st.registry
    ensures st.commandStore == Some(c) ==> r.commandStore == st.commandStore
    ensures st.sent <= r.sent
  {
    if c.cmd == SetAmplifierAudioSinkCmd then AfterSetSink(w, st, c.args) else st
  }


  /**
   * The inbound-message handler: while there is no registry, a registry
   * telegram builds one from its payload (the registry is assigned before the
   * parse, so it stays present even when the parse throws); then, unless the
   * parse threw, a stored command is replayed. `commandStore` is never set
   * back to `null`, so the command is replayed on EVERY later message.
   */
  function AfterMessage(w: Wiring, st: GateState, m: Inbound): (r: Outcome)
    ensures st.registry.Some? ==> r.state.registry == st.registry
    ensures r.state.registry.Some? <==> st.registry.Some? || w.isRegistryTelegram(m)
    ensures st.registry.None? && w.isRegistryTelegram(m) ==>
              && r.state.registry == Some(Parse(Payload(m)).registry)
              && (r.Threw? <==> Parse(Payload(m)).RangeError?)
    ensures r.Threw? ==> st.registry.None? && w.isRegistryTelegram(m)
    ensures r.state.commandStore == st.commandStore
    ensures st.sent <= r.state.sent
  {
    var build := st.registry.None? && w.isRegistryTelegram(m);
    var parsed := Parse(Payload(m));
    var built := if build then st.(registry := Some(parsed.registry)) else st;
    if build && parsed.RangeError? then Threw(built)
    else
      match built.commandStore
      case None => Returned(built)
      case Some(c) => Returned(AfterExecuteStep(w, built, c))
  }

  // ---------------------------------------------------------------------
  // Properties of single steps
  // ---------------------------------------------------------------------

  /** Without a registry: one stored command and exactly one registry request. */
  lemma DeferWhileAbsent(w: Wiring, st: GateState, sink: int)
    requires st.registry.None?
    ensures AfterSetSink(w, st, sink)
         == st.(commandStore := Some(Command(SetAmplifierAudioSinkCmd, sink)), sent := st.sent + [w.registryRequest])
  {
  }

  /** Two requests before the registry arrives: only the second stays stored. */
  lemma LastWriteWins(w: Wiring, st: GateState, first: int, second: int)
    requires st.registry.None?
    ensures var r := AfterSetSink(w, AfterSetSink(w, st, first), second);
            && r.commandStore == Some(Command(SetAmplifierAudioSinkCmd, second))
            && r.sent == st.sent + [w.registryRequest, w.registryRequest]
            && r.registry == st.registry
  {
    DeferWhileAbsent(w, st, first);
    DeferWhileAbsent(w, AfterSetSink(w, st, first), second);
  }

  /** With the amplifier known: exactly one stream to its address, with `sinkNr = sink`. */
  lemma StreamWhenPresent(w: Wiring, st: GateState, sink: int)
    requires st.registry.Some? && AmplifierLabel in st.registry.value
    requires st.registry.value[AmplifierLabel] != []
    ensures var a := st.registry.value[AmplifierLabel][0];
            (AfterSetSink(w, st, sink)
             == st.(sent := st.sent + [Stream(a.address / 0x100, a.address % 0x100, a.fBlockID, a.instanceID, sink)]))
  {
  }

  /** With a registry that lacks the amplifier: nothing sent, nothing changed. */
  lemma MissingAmplifier(w: Wiring, st: GateState, sink: int)
    requires st.registry.Some? && AmplifierLabel !in st.registry.value
    ensures AfterSetSink(w, st, sink) == st
  {
  }

  /**
   * A stored command is replayed exactly once per message that does not
   * throw: one more registry request while the registry is still absent, the
   * amplifier stream (if any) once it is present.
   */
  lemma ReplayOncePerMessage(w: Wiring, st: GateState, m: Inbound, sink: int)
    requires st.commandStore == Some(Command(SetAmplifierAudioSinkCmd, sink))
    ensures var r := AfterMessage(w, st, m);
            r.Returned? ==>
              r.state.sent == st.sent + match r.state.registry
                                        case None => [w.registryRequest]
                                        case Some(reg) => ToSeq(AmplifierStream(reg, sink))
  {
  }

  /**
   * Once the registry is present, EVERY message, of whatever kind, returns
   * normally and replays the stored request: the amplifier stream (if any)
   * is sent again, since `commandStore` is never cleared.
   */
  lemma ReplayOnPresentRegistry(w: Wiring, st: GateState, m: Inbound, sink: int)
    requires st.registry.Some? && st.commandStore == Some(Command(SetAmplifierAudioSinkCmd, sink))
    ensures AfterMessage(w, st, m) == Returned(st.(sent := st.sent + ToSeq(AmplifierStream(st.registry.value, sink))))
  {
  }

  /** Without a stored command, or when the parse throws, a message sends nothing. */
  lemma SilentMessages(w: Wiring, st: GateState, m: Inbound)
    requires st.commandStore.None? || AfterMessage(w, st, m).Threw?
    ensures AfterMessage(w, st, m).state.sent == st.sent
  {
  }

  // ---------------------------------------------------------------------
  // Properties of whole runs
  // ---------------------------------------------------------------------

  /** One event reaching the gate: a command request or an inbound message. */
  datatype Event = SetSinkRequest(sink: int) | Received(m: Inbound)

  /**
   * A thrown exception ends only the handler it was thrown in: the event loop
   * goes on with the next event, from the state the handler left behind.
   */
  function Step(w: Wiring, st: GateState, ev: Event): GateState {
    match ev
    case SetSinkRequest(sink) => AfterSetSink(w, st, sink)
    case Received(m) => AfterMessage(w, st, m).state
  }

  function Run(w: Wiring, st: GateState, evs: seq<Event>): GateState
    decreases |evs|
  {
    if evs == [] then st else Run(w, Step(w, st, evs[0]), evs[1..])
  }

  lemma RunOne(w: Wiring, st: GateState, ev: Event)
    ensures Run(w, st, [ev]) == Step(w, st, ev)
  {
    assert [ev][1..] == [];
  }

  /** Running two batches of events one after the other is running them together. */
  lemma {:induction false} RunConcat(w: Wiring, st: GateState, a: seq<Event>, b: seq<Event>)
    ensures Run(w, st, a + b) == Run(w, Run(w, st, a), b)
    decreases |a|
  {
    if a != [] {
      assert (a + b)[0] == a[0] && (a + b)[1..] == a[1..] + b;
      RunConcat(w, Step(w, st, a[0]), a[1..], b);
    } else {
      assert a + b == b;
    }
  }

  /** Once present, the registry never reverts to absent and is never rebuilt. */
  lemma {:induction false} RegistryIsFinal(w: Wiring, st: GateState, evs: seq<Event>)
    requires st.registry.Some?
    ensures Run(w, st, evs).registry == st.registry
    decreases |evs|
  {
    if evs != [] {
      RegistryIsFinal(w, Step(w, st, evs[0]), evs[1..]);
    }
  }

  /** Once stored, a command is never cleared. */
  lemma {:induction false} CommandIsNeverCleared(w: Wiring, st: GateState, evs: seq<Event>)
    requires st.commandStore.Some?
    ensures Run(w, st, evs).commandStore.Some?
    decreases |evs|
  {
    if evs != [] {
      CommandIsNeverCleared(w, Step(w, st, evs[0]), evs[1..]);
    }
  }

  /** The log of outbound calls only grows. */
  lemma {:induction false} SentOnlyGrows(w: Wiring, st: GateState, evs: seq<Event>)
    ensures st.sent <= Run(w, st, evs).sent
    decreases |evs|
  {
    if evs != [] {
      SentOnlyGrows(w, Step(w, st, evs[0]), evs[1..]);
    }
  }

  /**
   * Once the registry is present, requests and messages never touch the
   * stored command again: the replay cannot store anew (so it terminates).
   */
  lemma {:induction false} CommandFixedOnceRegistered(w: Wiring, st: GateState, evs: seq<Event>)
    requires st.registry.Some?
    ensures Run(w, st, evs).commandStore == st.commandStore
    decreases |evs|
  {
    if evs != [] {
      CommandFixedOnceRegistered(w, Step(w, st, evs[0]), evs[1..]);
    }
  }

  // ---------------------------------------------------------------------
  // A worked example
  // ---------------------------------------------------------------------

  /**
   * A telegram buffer longer than its 12-byte `telLen`: two amplifier
   * records and one record of block 0x21, then two bytes that
   * `subarray(0, telLen)` cuts off.
   */
  const ExampleData: seq<byte> := OrderPayload + [0xff, 0xff]

  const ExampleRegistry: Registry := map[
    AmplifierLabel := [Entry(0x1001, 0, 0x22), Entry(0x1002, 1, 0x22)],
    "33" := [Entry(0x2002, 1, 0x21)]]

  lemma ExamplePayload(m: Inbound)
    requires m.data == ExampleData && m.telLen == 12
    ensures Payload(m) == OrderPayload
    ensures Parse(Payload(m)) == Parsed(ExampleRegistry)
  {
    assert Subarray(m.data, 12) == m.data[..12];
    assert m.data[..12] == OrderPayload;
    OrderExample();
  }

  /** The first amplifier of the example registry is streamed to as (0x10, 0x01). */
  lemma ExampleStream(sink: int)
    ensures AmplifierStream(ExampleRegistry, sink) == Some(Stream(0x10, 0x01, 0x22, 0, sink))
  {
    assert ExampleRegistry[AmplifierLabel][0] == Entry(0x1001, 0, 0x22);
  }

  /**
   * The example telegram, arriving while a request for `sink` waits: the
   * registry is built and the request replayed at once, streaming to the
   * first amplifier.
   */
  lemma ExampleReplaysRequest(w: Wiring, st: GateState, m: Inbound, sink: int)
    requires w.isRegistryTelegram(m) && m.data == ExampleData && m.telLen == 12
    requires st.registry.None? && st.commandStore == Some(Command(SetAmplifierAudioSinkCmd, sink))
    ensures AfterMessage(w, st, m)
         == Returned(st.(registry := Some(ExampleRegistry), sent := st.sent + [Stream(0x10, 0x01, 0x22, 0, sink)]))
  {
    ExamplePayload(m);
    ExampleStream(sink);
    var built := st.(registry := Some(ExampleRegistry));
    assert AfterMessage(w, st, m) == Returned(AfterSetSink(w, built, sink));
  }

  // ---------------------------------------------------------------------
  // The gate object
  // ---------------------------------------------------------------------

  /** The `AutomationServer` / `SinkManager` object. */
  class CommandGate {
    const wiring: Wiring
    var registry: Option<Registry>
    var commandStore: Option<Command>
    var sent: seq<Outbound>

    function State(): GateState
      reads this
    {
      GateState(registry, commandStore, sent)
    }

    constructor (wiring: Wiring)
      ensures this.wiring == wiring && State() == Initial
    {
      this.wiring := wiring;
      registry := None;
      commandStore := None;
      sent := [];
    }

    method ExecuteStep(command: string, args: int)
      modifies this
      ensures State() == AfterExecuteStep(wiring, old(State()), Command(command, args))
    {
      if command == SetAmplifierAudioSinkCmd {
        SetAmplifierAudioSink(args);
      }
    }

    method SetAmplifierAudioSink(sink: int)
      modifies this
      ensures State() == AfterSetSink(wiring, old(State()), sink)
    {
      if registry.None? {
        commandStore := Some(Command(SetAmplifierAudioSinkCmd, sink));
        sent := sent + [wiring.registryRequest];
      } else if AmplifierLabel in registry.value {
        var amplifiers := registry.value[AmplifierLabel];
        // intended reading of `amplifier.address.readUint8(0/1)`: see AmplifierStream
        if amplifiers != [] {
          var amplifier := amplifiers[0];
          sent := sent + [Stream(amplifier.address / 0x100, amplifier.address % 0x100,
                                 amplifier.fBlockID, amplifier.instanceID, sink)];
        }
      }
    }

    /**
     * The inbound-message handler. `threw` says the parse loop read past the
     * payload and Node raised a RangeError, which ends the handler there.
     */
    method NewMessageRx(m: Inbound) returns (threw: bool)
      modifies this
      ensures (if threw then Threw(State()) else Returned(State())) == AfterMessage(wiring, old(State()), m)
    {
      threw := false;
      if registry.None? && wiring.isRegistryTelegram(m) {
        threw := BuildRegistry(Subarray(m.data, m.telLen));
        if threw {
          return;
        }
      }
      if commandStore.Some? {
        ExecuteStep(commandStore.value.cmd, commandStore.value.args);
      }
    }

    /**
     * The parse loop of the handler: `registry = {}`, then one record per
     * four bytes, each pushed under its label. A read past the payload ends
     * the loop with `threw`, leaving what was pushed so far.
     */
    method BuildRegistry(finalData: seq<byte>) returns (threw: bool)
      modifies this`registry
      ensures registry == Some(Parse(finalData).registry)
      ensures threw <==> Parse(finalData).RangeError?
    {
      registry := Some(map[]);
      var i := 0;
      ghost var k := 0;
      while i < |finalData|
        invariant i == 4 * k && i <= |finalData|
        invariant registry == Some(ParseRecords(finalData, k))
      {
        if i + 2 >= |finalData| {
          // readUInt8(i + 2) is out of range
          ParseThrowsOnFBlockID(finalData, k);
          return true;
        }
        var fBlockID := finalData[i + 2];
        var readableName := Label(fBlockID);
        OpenList(readableName);
        if i + 3 >= |finalData| {
          // readUint16BE(i) is still in range, readUInt8(i + 3) is not
          ParseThrowsOnInstanceID(finalData, k);
          return true;
        }
        var entry := Entry(ReadUint16BE(finalData, i), finalData[i + 3], fBlockID);
        AppendEntry(readableName, entry);
        ParseRecordsNext(finalData, k);
        i, k := i + 4, k + 1;
      }
      ParseCompletes(finalData, k);
      return false;
    }

    /** `registry[name].push(e)` on a list the loop has just made sure exists. */
    method AppendEntry(name: string, e: Entry)
      requires registry.Some? && name in registry.value
      modifies this`registry
      ensures registry == Some(old(registry).value[name := old(registry).value[name] + [e]])
    {
      registry := Some(registry.value[name := registry.value[name] + [e]]);
    }

    /** `if (!(name in registry)) registry[name] = []`. */
    method OpenList(name: string)
      requires registry.Some?
      modifies this`registry
      ensures registry == Some(Touch(old(registry).value, name))
    {
      if name !in registry.value {
        registry := Some(registry.value[name := []]);
      }
    }
  }
}
