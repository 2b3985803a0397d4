/**
 * The `SinkManager` of src/automaticStartup.ts: the gate wired to the
 * stand-alone module's bus connection. A registry telegram is a message
 * whose `dataType` is 2561; the registry is requested with an explicit
 * control message. Loading the module creates one `SinkManager` and at once
 * asks it to route the amplifier to sink 2.
 */
module AutomaticStartup {
  import opened Optional
  import opened RegistryParse
  import opened Gate

  /** `data.dataType == 2561` */
  predicate IsRegistryTelegram(m: Inbound) {
    m.dataType == RegistryMessageType
  }

  /**
   * The `sendControlMessage` app message that requests the registry: target
   * address 0x0400, function block 0x02 (NetworkMaster), instance 0,
   * function 0xa01, operation type 0x01, no data.
   */
  const RegistryRequest: Outbound := ControlMessage(0x04, 0x00, 0x02, 0, 0xa01, 0x01, [])

  const StandaloneWiring: Wiring := Wiring(IsRegistryTelegram, RegistryRequest)

  /** The sink the module routes the amplifier to on start-up. */
  const StartupSink: int := 2

  /** `new SinkManager()`: both fields `null`, nothing sent. */
  method NewSinkManager() returns (manager: CommandGate)
    ensures fresh(manager)
    ensures manager.wiring == StandaloneWiring && manager.State() == Initial
  {
    manager := new CommandGate(StandaloneWiring);
  }

  /**
   * Loading the module: `new SinkManager()`, then
   * `setAmplifierAudioSink(2)`. No registry exists yet, so the request is
   * stored and the registry requested, once.
   */
  method ModuleStartup() returns (manager: CommandGate)
    ensures fresh(manager) && manager.wiring == StandaloneWiring
    ensures manager.State() == Loaded
  {
    manager := NewSinkManager();
    manager.SetAmplifierAudioSink(StartupSink);
  }

  // ---------------------------------------------------------------------
  // What this copy of the gate does differently
  // ---------------------------------------------------------------------

  /** A request without a registry stores the command and sends the registry request. */
  lemma StandaloneRequestsRegistry(st: GateState, sink: int)
    requires st.registry.None?
    ensures AfterSetSink(StandaloneWiring, st, sink).sent
         == st.sent + [ControlMessage(0x04, 0x00, 0x02, 0, 0xa01, 0x01, [])]
    ensures AfterSetSink(StandaloneWiring, st, sink).commandStore == Some(Command(SetAmplifierAudioSinkCmd, sink))
  {
  }

  /** A message whose `dataType` is not 2561 never builds the registry. */
  lemma StandaloneIgnoresOtherMessages(st: GateState, m: Inbound)
    requires st.registry.None? && m.dataType != RegistryMessageType
    ensures AfterMessage(StandaloneWiring, st, m).state.registry.None?
    ensures AfterMessage(StandaloneWiring, st, m).Returned?
  {
  }

  /** A registry telegram received while the registry is absent builds it from the payload. */
  lemma StandaloneBuildsFromTelegram(st: GateState, m: Inbound)
    requires st.registry.None? && m.dataType == RegistryMessageType
    ensures AfterMessage(StandaloneWiring, st, m).state.registry == Some(Parse(Payload(m)).registry)
    ensures AfterMessage(StandaloneWiring, st, m).Threw? <==> |Payload(m)| % 4 != 0
  {
  }

  /** The stand-alone copy never looks at `eventType` or `type`. */
  lemma StandaloneIgnoresEventType(st: GateState, m: Inbound, eventType: EventType, msgType: int)
    ensures AfterMessage(StandaloneWiring, st, m)
         == AfterMessage(StandaloneWiring, st, m.(eventType := eventType, msgType := msgType))
  {
  }

  // ---------------------------------------------------------------------
  // A start-up, end to end
  // ---------------------------------------------------------------------

  /** A registry telegram for the stand-alone copy, carrying the example buffer. */
  const Telegram: Inbound := Inbound(OtherEvent, 0, RegistryMessageType, 12, ExampleData)

  /** The module right after loading: sink 2 stored, the registry requested once. */
  const Loaded: GateState := GateState(None, Some(Command(SetAmplifierAudioSinkCmd, StartupSink)), [RegistryRequest])

  lemma LoadedState()
    ensures AfterSetSink(StandaloneWiring, Initial, StartupSink) == Loaded
  {
  }

  /**
   * After loading the module, the telegram builds the registry and the
   * stored request is replayed: the module has sent the registry request,
   * then the stream from the first amplifier to sink 2.
   */
  lemma StandaloneStartup()
    ensures Step(StandaloneWiring, Loaded, Received(Telegram))
         == GateState(Some(ExampleRegistry), Some(Command(SetAmplifierAudioSinkCmd, StartupSink)),
                      [RegistryRequest, Stream(0x10, 0x01, 0x22, 0, StartupSink)])
  {
    ExampleReplaysRequest(StandaloneWiring, Loaded, Telegram, StartupSink);
  }
}
