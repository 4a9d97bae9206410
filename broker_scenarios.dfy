/** The broker's test scenarios, each as a method that builds the mocks, runs one broker
    call and returns what the scenario inspects afterwards; the postconditions are the
    scenario's checks. */
module BrokerScenarios {
  import opened Errors
  import opened Core
  import opened Codec
  import opened Mocks
  import opened Broker

  const Addr: DevAddr := [2, 3, 2, 3]
  const Payload: seq<byte> := [0x50, 0x61, 0x79, 0x6c, 0x6f, 0x61, 0x64]   // "Payload"
  const PacketKey: Key := [1, 1, 2, 2, 3, 3, 4, 4, 5, 5, 6, 6, 7, 7, 8, 8]
  const FCnt: uint32 := 5

  /** The first candidate of every HandleUp scenario; its key never authenticates the packet. */
  const EntryA := DevEntry([1, 2, 3], [1, 2, 3, 4, 5, 6, 7, 8], [1, 2, 3, 4, 5, 6, 7, 8],
                           [1, 2, 3, 4, 5, 6, 7, 8, 9, 10, 11, 12, 13, 14, 15, 16])

  /** The second candidate when no MIC is valid. */
  const EntryNoMatch := DevEntry([1, 2, 3], [1, 1, 1, 1, 5, 5, 5, 5], [4, 4, 4, 4, 5, 5, 5, 5],
                                 [1, 2, 3, 4, 5, 6, 7, 8, 6, 6, 11, 12, 13, 14, 12, 16])

  /** The second candidate when one MIC is valid: it holds the key the packet was signed with. */
  const EntryB := DevEntry([1, 2, 3], [1, 1, 1, 1, 5, 5, 5, 5], [4, 4, 4, 4, 2, 3, 2, 3], PacketKey)

  /** An uplink packet from `devAddr`, signed with `key`, with empty metadata. */
  function NewBPacket(mic: MicFunction, devAddr: DevAddr, payload: seq<byte>, key: Key, fcnt: uint32): (p: BPacket)
    ensures forall e: DevEntry :: e.nwkSKey == key ==> MicValid(mic, p, e)
  {
    BPacket(devAddr, fcnt, payload, [], mic(key, devAddr, fcnt, payload))
  }

  /** `key` signs the scenarios' packet differently from the packet's own key. */
  predicate SignsDifferently(mic: MicFunction, key: Key) {
    mic(key, Addr, FCnt, Payload) != mic(PacketKey, Addr, FCnt, Payload)
  }

  // ----- Register -----

  /** Register a device. */
  method RegisterDevice(mic: MicFunction, r: Registration)
    returns (err: Option<ErrorKind>, inAck: Option<bool>, inStoreDevices: Option<Registration>, inStoreApp: Option<Registration>)
    requires r.BRegistration?
    ensures err == None && inAck == Some(true)
    ensures inStoreDevices == Some(r) && inStoreApp == None
  {
    var an := new MockAckNacker();
    var store := new MockStorage();
    var broker := new Broker(store, mic);
    err := broker.Register(r, an);
    inAck, inStoreDevices, inStoreApp := an.inAck, store.inStoreDevices, store.inStoreApp;
  }

  /** Register an application. */
  method RegisterApplication(mic: MicFunction, r: Registration)
    returns (err: Option<ErrorKind>, inAck: Option<bool>, inStoreDevices: Option<Registration>, inStoreApp: Option<Registration>)
    requires r.ARegistration?
    ensures err == None && inAck == Some(true)
    ensures inStoreDevices == None && inStoreApp == Some(r)
  {
    var an := new MockAckNacker();
    var store := new MockStorage();
    var broker := new Broker(store, mic);
    err := broker.Register(r, an);
    inAck, inStoreDevices, inStoreApp := an.inAck, store.inStoreDevices, store.inStoreApp;
  }

  /** Register a device while the device store fails. */
  method RegisterDeviceStoreFailed(mic: MicFunction, r: Registration)
    returns (err: Option<ErrorKind>, inAck: Option<bool>, inStoreDevices: Option<Registration>, inStoreApp: Option<Registration>)
    requires r.BRegistration?
    ensures err == Some(Structural) && inAck == Some(false)
    ensures inStoreDevices == Some(r) && inStoreApp == None
  {
    var an := new MockAckNacker();
    var store := new MockStorage();
    store.failures := store.failures["StoreDevice" := Structural];
    var broker := new Broker(store, mic);
    err := broker.Register(r, an);
    inAck, inStoreDevices, inStoreApp := an.inAck, store.inStoreDevices, store.inStoreApp;
  }

  /** Register an application while the application store fails. */
  method RegisterApplicationStoreFailed(mic: MicFunction, r: Registration)
    returns (err: Option<ErrorKind>, inAck: Option<bool>, inStoreDevices: Option<Registration>, inStoreApp: Option<Registration>)
    requires r.ARegistration?
    ensures err == Some(Structural) && inAck == Some(false)
    ensures inStoreDevices == None && inStoreApp == Some(r)
  {
    var an := new MockAckNacker();
    var store := new MockStorage();
    store.failures := store.failures["StoreApplication" := Structural];
    var broker := new Broker(store, mic);
    err := broker.Register(r, an);
    inAck, inStoreDevices, inStoreApp := an.inAck, store.inStoreDevices, store.inStoreApp;
  }

  /** Register a registration that is neither a device nor an application. */
  method RegisterWrongRegistration(mic: MicFunction, r: Registration)
    returns (err: Option<ErrorKind>, inAck: Option<bool>, inStoreDevices: Option<Registration>, inStoreApp: Option<Registration>)
    requires r.RRegistration?
    ensures err == Some(Structural) && inAck == Some(false)
    ensures inStoreDevices == None && inStoreApp == None
  {
    var an := new MockAckNacker();
    var store := new MockStorage();
    var broker := new Broker(store, mic);
    err := broker.Register(r, an);
    inAck, inStoreDevices, inStoreApp := an.inAck, store.inStoreDevices, store.inStoreApp;
  }

  // ----- HandleUp -----

  /** What a HandleUp scenario inspects after the call. */
  datatype Observed = Observed(
    err: Option<ErrorKind>,
    inAck: Option<bool>,
    inStoreDevices: Option<Registration>,
    inStoreApp: Option<Registration>,
    inSendPacket: Option<HPacket>,
    inSendRecipients: Option<seq<Recipient>>)

  /** Runs HandleUp on `data` against the given mocks and collects what the scenario checks. */
  method Run(broker: Broker, data: seq<byte>, adapter: MockAdapter) returns (o: Observed)
    requires SoundProvisioning(broker.mic, data, broker.storage.LookupAnswer())
    modifies broker.storage, adapter
    ensures var eff := HandleUpEffects(broker.mic, data, old(broker.storage.LookupAnswer()),
                                       old(adapter.GetRecipientAnswer()), old(adapter.SendAnswer()));
            o == Observed(eff.err, Some(eff.err.None?),
                          old(broker.storage.inStoreDevices), old(broker.storage.inStoreApp),
                          Latest(old(adapter.inSendPacket), eff.sent),
                          Latest(old(adapter.inSendRecipients), eff.sentTo))
  {
    var an := new MockAckNacker();
    var err := broker.HandleUp(data, an, adapter);
    o := Observed(err, an.inAck, broker.storage.inStoreDevices, broker.storage.inStoreApp,
                  adapter.inSendPacket, adapter.inSendRecipients);
  }

  /** Send an unknown packet: the directory knows no device at its address. */
  method HandleUpUnknownPacket(mic: MicFunction) returns (o: Observed)
    ensures o == Observed(Some(Behavioural), Some(false), None, None, None, None)
  {
    var adapter := new MockAdapter();
    var store := new MockStorage();
    store.failures := store.failures["LookupDevices" := Behavioural];
    var bpacket := NewBPacket(mic, Addr, Payload, PacketKey, FCnt);
    var data := Encode(bpacket);
    DecodeEncode(bpacket);
    var broker := new Broker(store, mic);
    o := Run(broker, data, adapter);
  }

  /** Send an invalid packet: three bytes are no frame. */
  method HandleUpInvalidPacket(mic: MicFunction) returns (o: Observed)
    ensures o == Observed(Some(Structural), Some(false), None, None, None, None)
  {
    var adapter := new MockAdapter();
    var store := new MockStorage();
    var broker := new Broker(store, mic);
    o := Run(broker, [1, 2, 3], adapter);
  }

  /** Send a packet; the directory has two entries and neither key reproduces its MIC. */
  method HandleUpNoValidMic(mic: MicFunction) returns (o: Observed)
    requires SignsDifferently(mic, EntryA.nwkSKey) && SignsDifferently(mic, EntryNoMatch.nwkSKey)
    ensures o == Observed(Some(Behavioural), Some(false), None, None, None, None)
  {
    var adapter := new MockAdapter();
    var store := new MockStorage();
    store.outLookupDevices := [EntryA, EntryNoMatch];
    var bpacket := NewBPacket(mic, Addr, Payload, PacketKey, FCnt);
    var data := Encode(bpacket);
    DecodeEncode(bpacket);
    NoMicMatchRejected(mic, data, store.outLookupDevices, adapter.GetRecipientAnswer(), adapter.SendAnswer());
    var broker := new Broker(store, mic);
    o := Run(broker, data, adapter);
  }

  /** Send a packet; the directory has two entries and the second one's key reproduces its
      MIC: the packet is translated for that entry and sent to its single recipient. */
  method HandleUpOneValidMic(mic: MicFunction) returns (o: Observed, recipient: Recipient)
    requires SignsDifferently(mic, EntryA.nwkSKey)
    ensures recipient == NewMockRecipient()
    ensures o == Observed(None, Some(true), None, None,
                          Some(HPacket(EntryB.appEUI, EntryB.devEUI, Payload, [])), Some([recipient]))
  {
    recipient := NewMockRecipient();
    var adapter := new MockAdapter();
    adapter.outGetRecipient := recipient;
    var store := new MockStorage();
    store.outLookupDevices := [EntryA, EntryB];
    var bpacket := NewBPacket(mic, Addr, Payload, PacketKey, FCnt);
    var data := Encode(bpacket);
    DecodeEncode(bpacket);
    UniqueMatchForwarded(mic, data, store.outLookupDevices, 1, recipient, adapter.SendAnswer());
    var broker := new Broker(store, mic);
    o := Run(broker, data, adapter);
  }

  /** As above, but the recipient cannot be resolved: nothing is sent. */
  method HandleUpGetRecipientFails(mic: MicFunction) returns (o: Observed)
    requires SignsDifferently(mic, EntryA.nwkSKey)
    ensures o == Observed(Some(Structural), Some(false), None, None, None, None)
  {
    var adapter := new MockAdapter();
    adapter.failures := adapter.failures["GetRecipient" := Structural];
    var store := new MockStorage();
    store.outLookupDevices := [EntryA, EntryB];
    var bpacket := NewBPacket(mic, Addr, Payload, PacketKey, FCnt);
    var data := Encode(bpacket);
    DecodeEncode(bpacket);
    UniqueMatchResolveFailure(mic, data, store.outLookupDevices, 1, Structural, adapter.SendAnswer());
    var broker := new Broker(store, mic);
    o := Run(broker, data, adapter);
  }

  /** As above, but delivery fails: Send was called with the translated packet and the single
      recipient, and its error kind is returned. */
  method HandleUpSendFails(mic: MicFunction) returns (o: Observed, recipient: Recipient)
    requires SignsDifferently(mic, EntryA.nwkSKey)
    ensures recipient == NewMockRecipient()
    ensures o == Observed(Some(Operational), Some(false), None, None,
                          Some(HPacket(EntryB.appEUI, EntryB.devEUI, Payload, [])), Some([recipient]))
  {
    recipient := NewMockRecipient();
    var adapter := new MockAdapter();
    adapter.outGetRecipient := recipient;
    adapter.failures := adapter.failures["Send" := Operational];
    var store := new MockStorage();
    store.outLookupDevices := [EntryA, EntryB];
    var bpacket := NewBPacket(mic, Addr, Payload, PacketKey, FCnt);
    var data := Encode(bpacket);
    DecodeEncode(bpacket);
    UniqueMatchForwarded(mic, data, store.outLookupDevices, 1, recipient, adapter.SendAnswer());
    var broker := new Broker(store, mic);
    o := Run(broker, data, adapter);
  }
}
