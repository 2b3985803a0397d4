/**
 * The `AutomationServer` of src/server/StartupAutomation.ts: the gate wired
 * to the server's event stream. A registry telegram is a message whose
 * `eventType` is `SocketMostMessageRxEvent` and whose `type` is 2561; the
 * registry is requested by sending the imported `REQ_REGISTRY` message.
 */
module StartupAutomation {
  import opened Optional
  import opened RegistryParse
  import opened Gate

  /** `data.eventType == Os8104Events.SocketMostMessageRxEvent && data.type == 2561` */
  predicate IsRegistryTelegram(m: Inbound) {
    m.eventType == SocketMostMessageRxEvent && m.msgType == RegistryMessageType
  }

  const ServerWiring: Wiring := Wiring(IsRegistryTelegram, RequestRegistry)

  /** `new AutomationServer(...)`: both fields `null`, nothing sent. */
  method NewAutomationServer() returns (server: CommandGate)
    ensures fresh(server)
    ensures server.wiring == ServerWiring && server.State() == Initial
  {
    server := new CommandGate(ServerWiring);
  }

  // ---------------------------------------------------------------------
  // What this copy of the gate does differently
  // ---------------------------------------------------------------------

  /** A request without a registry stores the command and sends `REQ_REGISTRY`. */
  lemma ServerRequestsRegistry(st: GateState, sink: int)
    requires st.registry.None?
    ensures AfterSetSink(ServerWiring, st, sink).sent == st.sent + [RequestRegistry]
    ensures AfterSetSink(ServerWiring, st, sink).commandStore == Some(Command(SetAmplifierAudioSinkCmd, sink))
  {
  }

  /** A message of another type, or from another event, never builds the registry. */
  lemma ServerIgnoresOtherMessages(st: GateState, m: Inbound)
    requires st.registry.None?
    requires m.eventType != SocketMostMessageRxEvent || m.msgType != RegistryMessageType
    ensures AfterMessage(ServerWiring, st, m).state.registry.None?
    ensures AfterMessage(ServerWiring, st, m).Returned?
  {
  }

  /** A registry telegram received while the registry is absent builds it from the payload. */
  lemma ServerBuildsFromTelegram(st: GateState, m: Inbound)
    requires st.registry.None?
    requires m.eventType == SocketMostMessageRxEvent && m.msgType == RegistryMessageType
    ensures AfterMessage(ServerWiring, st, m).state.registry == Some(Parse(Payload(m)).registry)
    ensures AfterMessage(ServerWiring, st, m).Threw? <==> |Payload(m)| % 4 != 0
  {
  }

  /** The server never looks at `dataType`. */
  lemma ServerIgnoresDataType(st: GateState, m: Inbound, dataType: int)
    ensures AfterMessage(ServerWiring, st, m) == AfterMessage(ServerWiring, st, m.(dataType := dataType))
  {
  }

  // ---------------------------------------------------------------------
  // A start-up, end to end
  // ---------------------------------------------------------------------

  /** A registry telegram for the server, carrying the example buffer. */
  const Telegram: Inbound := Inbound(SocketMostMessageRxEvent, RegistryMessageType, 0, 12, ExampleData)

  /** The server after `setAmplifierAudioSink(2)`, before any registry. */
  const Requested: GateState := GateState(None, Some(Command(SetAmplifierAudioSinkCmd, 2)), [RequestRegistry])

  /** The server once the example registry has arrived and sink 2 has been served. */
  const Started: GateState :=
    GateState(Some(ExampleRegistry), Some(Command(SetAmplifierAudioSinkCmd, 2)),
              [RequestRegistry, Stream(0x10, 0x01, 0x22, 0, 2)])

  /** The request comes first: it is stored and `REQ_REGISTRY` is sent. */
  lemma ServerRequestFirst()
    ensures Run(ServerWiring, Initial, [SetSinkRequest(2)]) == Requested
  {
    RunOne(ServerWiring, Initial, SetSinkRequest(2));
  }

  /**
   * Then the telegram: it builds the registry and the stored request is
   * replayed at once, streaming to the FIRST amplifier (address 0x1001).
   */
  lemma ServerTelegramNext()
    ensures Run(ServerWiring, Requested, [Received(Telegram)]) == Started
  {
    ExampleReplaysRequest(ServerWiring, Requested, Telegram, 2);
    RunOne(ServerWiring, Requested, Received(Telegram));
  }

  /** `setAmplifierAudioSink(2)` before the registry, then the telegram. */
  lemma ServerStartup()
    ensures Run(ServerWiring, Initial, [SetSinkRequest(2), Received(Telegram)]) == Started
  {
    assert [SetSinkRequest(2), Received(Telegram)] == [SetSinkRequest(2)] + [Received(Telegram)];
    RunConcat(ServerWiring, Initial, [SetSinkRequest(2)], [Received(Telegram)]);
    ServerRequestFirst();
    ServerTelegramNext();
  }

  /**
   * The stored request is never cleared: once started, every further message
   * the server receives, of whatever kind, streams to the amplifier again.
   */
  lemma ServerStreamsOnEveryMessage(m: Inbound)
    ensures AfterMessage(ServerWiring, Started, m)
         == Returned(Started.(sent := Started.sent + [Stream(0x10, 0x01, 0x22, 0, 2)]))
  {
    ExampleStream(2);
  }

  /**
   * The same request on the started server, as the code is written: reading
   * `address` of the amplifier LIST throws, and no stream is sent.
   */
  lemma ServerAsWrittenThrows()
    ensures AfterSetSinkAsWritten(ServerWiring, Started, 2) == Threw(Started)
    ensures AfterSetSink(ServerWiring, Started, 2).sent == Started.sent + [Stream(0x10, 0x01, 0x22, 0, 2)]
  {
    ExampleStream(2);
  }
}
