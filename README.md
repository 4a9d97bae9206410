# Broker of The Things Network, modelled in Dafny

The broker sits between routers and handlers. Routers hand it raw uplink frames that name
their sender only by a 4-byte device address, which several devices may share. The broker
decodes the frame, asks its directory (the storage) for every device registered at that
address, keeps the one candidate whose network session key reproduces the frame's message
integrity code (MIC), rewrites the packet so that it is addressed by that device's
application and device identifiers, resolves the handler's recipient and sends the packet
there. It also accepts registrations: a device registration goes to the device store, an
application registration to the application store, anything else is refused. Every call
ends with exactly one Ack or Nack, and failures are classified as Structural, Behavioural
or Operational.

The model follows the broker's test suite, `core/components/broker/broker_test.go`, which
drives `Broker.Register` and `Broker.HandleUp` against recording mocks and inspects what
they recorded. The collaborators are therefore classes that hold the mocks' fields the tests
read, plus call logs so that the number and order of calls can be stated:

- `Mocks.MockAckNacker`: `inAck` (the last Ack or Nack), and the added counter `calls`;
- `Broker.MockStorage`: the scripted `failures` and `outLookupDevices`, the recorded
  `inStoreDevices` and `inStoreApp`, and the added logs `lookupCalls`, `storeDeviceCalls`
  and `storeAppCalls`;
- `Mocks.MockAdapter`: the scripted `failures` and `outGetRecipient`, the recorded
  `inSendPacket` and `inSendRecipients`, and the added logs `getRecipientCalls` and `sendCalls`.

Files, one module each:

- `errors.dfy` (`Errors`): the error kinds, `Option`, `Result`.
- `core.dfy` (`Core`): bytes, addresses, identifiers, keys, registrations, the handler packet.
- `codec.dfy` (`Codec`): the uplink packet, its frame, `Encode`/`Decode` and both round trips.
- `mocks.dfy` (`Mocks`): the ack-nacker and adapter doubles.
- `broker.dfy` (`Broker`): the directory entry, the storage double, MIC disambiguation, the
  pure pipeline `HandleUpEffects`, the lemmas about it, and the `Broker` class.
- `broker_scenarios.dfy` (`BrokerScenarios`): every scenario of the test file as a method
  whose postconditions are that scenario's checks.

`Broker.HandleUp` is an imperative method: it decodes, calls the storage, scans the
candidates in a loop, calls the adapter, and returns early at the first failing stage. Its
postcondition ties every recorded field of every mock to `HandleUpEffects`, a function of
the data and of the answers the mocks were scripted to give. The properties the tests check
are then lemmas about `HandleUpEffects`, stated for all inputs, and the scenarios apply them
to the test's own constants.

The MIC is a cryptographic function from a foreign library, so the broker is given it as a
function value (`Broker.MicFunction`, an argument of the `Broker` constructor). Only two
assumptions are made about it: HandleUp requires `Broker.SoundProvisioning` (at most one
looked-up candidate reproduces the packet's MIC), and where a scenario relies on a key not
reproducing the packet's MIC, that is the scenario's precondition
(`BrokerScenarios.SignsDifferently`).

## Model

| member | source | states |
|---|---|---|
| `Codec.Decode` | core/components/broker/broker_test.go:156-175 | input shorter than the minimum frame (such as three bytes) is rejected as Structural; every decode failure is Structural; a decoded packet fits its length prefixes and accounts for every input byte |
| `Codec.Encode` | core/components/broker/broker_test.go:134-139 | a packet's frame is the minimum frame size plus its payload and metadata lengths |
| `Codec.DecodeEncode` | core/components/broker/broker_test.go:246-252 | decoding the frame of a well-formed packet gives back that packet, so HandleUp sees exactly the packet the test marshalled |
| `Codec.EncodeDecode` | core/components/broker/broker_test.go:246-252 | every frame that decodes is the encoding of its result: a frame has only one reading |
| `Mocks.NewMockRecipient` | core/components/broker/broker_test.go:227-230 | the recipient a fresh mock adapter hands out, and the one the scenarios script as the adapter's answer |
| `Mocks.MockAckNacker.constructor` | core/components/broker/broker_test.go:23 | a fresh ack-nacker has recorded no outcome and no call |
| `Mocks.MockAckNacker.Ack` | core/components/broker/broker_test.go:264-266 | records an Ack and counts one more acknowledgement call |
| `Mocks.MockAckNacker.Nack` | core/components/broker/broker_test.go:145-147 | records a Nack and counts one more acknowledgement call |
| `Mocks.MockAdapter.constructor` | core/components/broker/broker_test.go:131 | a fresh adapter has no failures, hands out the default mock recipient and has recorded and logged nothing |
| `Mocks.MockAdapter.GetRecipient` | core/components/broker/broker_test.go:280-282 | logs the raw descriptor and answers with the scripted recipient, or with the scripted "GetRecipient" failure; sends nothing |
| `Mocks.MockAdapter.Send` | core/components/broker/broker_test.go:328-329 | records and logs the packet and the recipient list and answers with the scripted "Send" failure, if any; resolves nothing |
| `Broker.MockStorage.constructor` | core/components/broker/broker_test.go:24 | a fresh storage has no failures, no candidates and has recorded and logged nothing |
| `Broker.MockStorage.LookupDevices` | core/components/broker/broker_test.go:133 | logs the looked-up address and answers with the scripted candidates or the scripted "LookupDevices" failure; stores nothing |
| `Broker.MockStorage.StoreDevice` | core/components/broker/broker_test.go:67 | records and logs the device registration even when the scripted "StoreDevice" failure is returned; touches nothing else |
| `Broker.MockStorage.StoreApplication` | core/components/broker/broker_test.go:89 | records and logs the application registration even when the scripted "StoreApplication" failure is returned; touches nothing else |
| `Broker.AckOrNack` | core/components/broker/broker_test.go:32-33 | exactly one acknowledgement call: an Ack when there is no error, a Nack otherwise |
| `Broker.Broker.constructor` | core/components/broker/broker_test.go:28 | the broker is built on the given storage and MIC function |
| `Broker.Broker.Register` | core/components/broker/broker_test.go:18-123 | a device registration goes to StoreDevice only, an application registration to StoreApplication only, any other registration yields Structural without any store call; the targeted store is called exactly once and the other never, with no retry after a failure; a store failure's kind is returned unchanged; exactly one Ack (no error) or Nack (error); no lookup; scripted answers untouched |
| `Broker.Broker.MicMatches` | core/components/broker/broker_test.go:186-199 | the loop over the looked-up candidates returns exactly those, in order, whose session key reproduces the packet's MIC |
| `Broker.Broker.HandleUp` | core/components/broker/broker_test.go:125-371 | the returned error equals that of the pipeline `HandleUpEffects` on the mocks' scripted answers, and the lookup, resolve and send logs each grow by exactly the one call that pipeline makes at that stage, or by none; so no stage is retried and only the matching candidate's descriptor is resolved; exactly one Ack (no error) or Nack (error); neither store is called; scripted answers untouched |
| `Broker.Broker.Forward` | core/components/broker/broker_test.go:125-371 | the stages of HandleUp before the acknowledgement, with the same effects on the storage and adapter logs and fields |
| `Broker.MicValid` | core/components/broker/broker_test.go:191 | a directory entry authenticates a packet when the MIC function under the entry's network session key gives the packet's MIC |
| `Broker.Matches` | core/components/broker/broker_test.go:186-199 | the order-preserving filter of the candidates: no more matches than candidates, and each match is a candidate that authenticates the packet |
| `Broker.Translate` | core/components/broker/broker_test.go:253-258 | the handler packet takes the AppEUI and DevEUI of the authenticated entry and the payload and metadata of the uplink packet unchanged |
| `Broker.HandleUpEffects` | core/components/broker/broker_test.go:125-371 | the pipeline short-circuits: a lookup happens exactly when the data decodes, a resolution only after a successful lookup, a send exactly when the resolution succeeded, to exactly the resolved recipient; the call succeeds exactly when a packet was sent and Send succeeded |
| `Broker.MatchesAppend` | core/components/broker/broker_test.go:186-199 | the matches of two candidate lists laid end to end are the matches of the first followed by those of the second |
| `Broker.MatchesMembership` | core/components/broker/broker_test.go:186-199 | a record is among the matches exactly when it is a candidate and its key reproduces the MIC |
| `Broker.MatchesEmpty` | core/components/broker/broker_test.go:179-218 | there is no match exactly when no candidate's key reproduces the MIC |
| `Broker.MatchesUnique` | core/components/broker/broker_test.go:232-245 | when only the candidate at index i reproduces the MIC, the matches are exactly that candidate |
| `Broker.UndecodableRejected` | core/components/broker/broker_test.go:156-175 | input that does not decode yields Structural and no lookup, no resolution, no send |
| `Broker.LookupFailurePropagated` | core/components/broker/broker_test.go:126-152 | a failed candidate lookup returns the lookup's own error kind, and nothing is resolved or sent |
| `Broker.NoMicMatchRejected` | core/components/broker/broker_test.go:179-218 | when no candidate's key reproduces the MIC the result is Behavioural, with no resolution and no send |
| `Broker.UniqueMatchResolveFailure` | core/components/broker/broker_test.go:275-317 | with a single authenticating candidate, its descriptor is resolved; a resolution failure returns its own kind and nothing is sent |
| `Broker.UniqueMatchForwarded` | core/components/broker/broker_test.go:222-271 | with a single authenticating candidate whose recipient resolves, the packet carrying that candidate's AppEUI and DevEUI and the frame's payload and metadata is sent to exactly that one recipient, and the result is Send's own outcome |
| `Broker.SentOnlyWhenAuthenticated` | core/components/broker/broker_test.go:253-270 | whatever is sent keeps the decoded payload and metadata, carries the identifiers of a looked-up candidate whose key reproduces the MIC, and goes to a single resolved recipient |
| `BrokerScenarios.NewBPacket` | core/components/broker/broker_test.go:134-139 | a packet built from a signing key is authenticated by every directory entry that holds that key |
| `BrokerScenarios.RegisterDevice` | core/components/broker/broker_test.go:19-36 | no error, an Ack, the registration in the device store and nothing in the application store |
| `BrokerScenarios.RegisterApplication` | core/components/broker/broker_test.go:40-57 | no error, an Ack, the registration in the application store and nothing in the device store |
| `BrokerScenarios.RegisterDeviceStoreFailed` | core/components/broker/broker_test.go:61-79 | Structural, a Nack, the failed device store call recorded and the application store untouched |
| `BrokerScenarios.RegisterApplicationStoreFailed` | core/components/broker/broker_test.go:83-101 | Structural, a Nack, the failed application store call recorded and the device store untouched |
| `BrokerScenarios.RegisterWrongRegistration` | core/components/broker/broker_test.go:105-122 | Structural, a Nack and neither store called |
| `BrokerScenarios.Run` | core/components/broker/broker_test.go:141-151 | one HandleUp call with a fresh ack-nacker, and what the scenario inspects afterwards |
| `BrokerScenarios.HandleUpUnknownPacket` | core/components/broker/broker_test.go:126-152 | Behavioural, a Nack, no registration, nothing sent and no recipients |
| `BrokerScenarios.HandleUpInvalidPacket` | core/components/broker/broker_test.go:156-175 | Structural, a Nack, no registration, nothing sent and no recipients |
| `BrokerScenarios.HandleUpNoValidMic` | core/components/broker/broker_test.go:179-218 | Behavioural, a Nack, no registration, nothing sent and no recipients |
| `BrokerScenarios.HandleUpOneValidMic` | core/components/broker/broker_test.go:222-271 | no error, an Ack, no registration, the packet built from the second entry's AppEUI and DevEUI with the frame's payload and metadata sent to exactly the mock recipient |
| `BrokerScenarios.HandleUpGetRecipientFails` | core/components/broker/broker_test.go:275-317 | Structural, a Nack, no registration, nothing sent and no recipients |
| `BrokerScenarios.HandleUpSendFails` | core/components/broker/broker_test.go:321-370 | Operational, a Nack, no registration, yet Send was called with the translated packet and exactly the mock recipient |

## Left out

- MIC computation: the AES-CMAC message integrity code of section 4.4 of the LoRaWAN 1.0 specification comes from a foreign library; the broker receives it as a function value, and the only assumptions about it are `Broker.SoundProvisioning` (HandleUp's precondition) and `BrokerScenarios.SignsDifferently` (the scenarios' premises).
- Frame layout: the real binary layout of a broker packet and of the LoRaWAN PHY payload is not part of this model. `Codec` uses a layout of its own (a type tag, the address, a 32-bit frame counter, length-prefixed payload and metadata, a 4-byte MIC), so its tag value and field order are this model's choices; what the model relies on is that decoding inverts encoding and that short input is rejected.
- Metadata: the structured metadata block (signal quality, timestamps) is kept as its encoded bytes, copied unchanged; its fields are not modelled.
- Broker.Broker.HandleUp: requires `SoundProvisioning`, that at most one candidate reproduces the MIC. Two matching candidates are an invariant violation of key provisioning, never exercised by the tests; the model neither recovers from it nor picks the first match.
- Broker.Broker.HandleUp: a lookup failure's kind is passed through unchanged. A broker could instead report every lookup failure as Behavioural; the tests only script a Behavioural lookup failure, on which both readings agree.
- Mock call logs: `Mocks.MockAckNacker.calls`, `Broker.MockStorage.lookupCalls`, `storeDeviceCalls`, `storeAppCalls`, `Mocks.MockAdapter.getRecipientCalls` and `sendCalls` are added so that the number and order of calls can be stated; the tests read only the latest-call fields.
- Handler packet construction: `core.NewHPacket` may return an error, which the tests ignore; `core` is not part of this model and translation is total here.
- MIC validation errors: a key for which the MIC cannot be computed at all is not modelled; the MIC function is total.
- Downlink: the adapter's scripted `OutSend` response and any downlink it carries are not modelled; HandleUp acknowledges without a payload.
- Mock registrations: the contents of `NewMockBRegistration`, `NewMockARegistration` and `NewMockRRegistration` are not part of this model; the Register scenarios hold for every registration of the corresponding variant.
- `newBPacket`: not part of this model; `BrokerScenarios.NewBPacket` builds the packet with empty metadata and the MIC of the given key.
- Error messages: errors carry only their kind; the human-readable messages are left out.
- Logging, the test helpers (`testutil.Desc`, `errutil.CheckErrors` and the helper that boxes an expected error kind) and the internals of the `mocks` package are left out; only the recorded fields they expose are modelled.
- Real collaborators: the persistence engine, network adapters and the Ack/Nack transport are outside the shown code.
- Concurrency: the broker holds no state between calls and the shown code has none.
