/** The broker: registers devices and applications, and authenticates, translates and
    forwards uplink packets to the handler of the one device that sent them. */
module Broker {
  import opened Errors
  import opened Core
  import opened Codec
  import opened Mocks

  /** A directory record: which handler serves a device, and the key that authenticates it. */
  datatype DevEntry = DevEntry(recipient: seq<byte>, appEUI: Eui, devEUI: Eui, nwkSKey: Key)

  /** The message integrity code of a packet's address, frame counter and payload under a key.
      The cryptographic computation belongs to a foreign library, so the broker is given it. */
  type MicFunction = (Key, DevAddr, uint32, seq<byte>) -> Mic

  /** `e`'s session key reproduces the MIC that `p` carries. */
  predicate MicValid(mic: MicFunction, p: BPacket, e: DevEntry) {
    mic(e.nwkSKey, p.devAddr, p.fcnt, p.payload) == p.mic
  }

  /** The candidates, in directory order, whose key authenticates `p`. */
  function Matches(mic: MicFunction, p: BPacket, entries: seq<DevEntry>): (ms: seq<DevEntry>)
    ensures |ms| <= |entries|
    ensures forall k :: 0 <= k < |ms| ==> ms[k] in entries && MicValid(mic, p, ms[k])
  {
    if entries == [] then []
    else (if MicValid(mic, p, entries[0]) then [entries[0]] else []) + Matches(mic, p, entries[1..])
  }

  lemma {:induction false} MatchesAppend(mic: MicFunction, p: BPacket, a: seq<DevEntry>, b: seq<DevEntry>)
    ensures Matches(mic, p, a + b) == Matches(mic, p, a) + Matches(mic, p, b)
  {
    if a == [] {
      assert a + b == b;
    } else {
      assert (a + b)[0] == a[0] && (a + b)[1..] == a[1..] + b;
      MatchesAppend(mic, p, a[1..], b);
    }
  }

  /** A candidate is kept exactly when it is one of the entries and authenticates the packet. */
  lemma {:induction false} MatchesMembership(mic: MicFunction, p: BPacket, entries: seq<DevEntry>, e: DevEntry)
    ensures e in Matches(mic, p, entries) <==> e in entries && MicValid(mic, p, e)
  {
    if entries != [] {
      MatchesMembership(mic, p, entries[1..], e);
      assert entries == [entries[0]] + entries[1..];
    }
  }

  /** No match at all exactly when no candidate authenticates the packet. */
  lemma {:induction false} MatchesEmpty(mic: MicFunction, p: BPacket, entries: seq<DevEntry>)
    ensures Matches(mic, p, entries) == [] <==> forall i :: 0 <= i < |entries| ==> !MicValid(mic, p, entries[i])
  {
    if entries != [] {
      MatchesEmpty(mic, p, entries[1..]);
      assert forall i :: 1 <= i < |entries| ==> entries[i] == entries[1..][i - 1];
    }
  }

  /** When the candidate at `i` is the only one that authenticates the packet, it is the
      whole match list. */
  lemma {:induction false} MatchesUnique(mic: MicFunction, p: BPacket, entries: seq<DevEntry>, i: nat)
    requires i < |entries| && MicValid(mic, p, entries[i])
    requires forall j :: 0 <= j < |entries| && j != i ==> !MicValid(mic, p, entries[j])
    ensures Matches(mic, p, entries) == [entries[i]]
  {
    if i == 0 {
      MatchesEmpty(mic, p, entries[1..]);
    } else {
      MatchesUnique(mic, p, entries[1..], i - 1);
    }
  }

  /** The handler packet for `p` once `e` has been proved its sender: the identifiers come from
      the directory record, the payload and metadata from the packet. */
  function Translate(p: BPacket, e: DevEntry): (h: HPacket)
    ensures h.payload == p.payload && h.metadata == p.metadata
    ensures h.appEUI == e.appEUI && h.devEUI == e.devEUI
  {
    HPacket(e.appEUI, e.devEUI, p.payload, p.metadata)
  }

  /** Key provisioning is sound for this input: no two candidates both authenticate it.
      More than one match is an invariant violation, not an outcome of HandleUp. */
  predicate SoundProvisioning(mic: MicFunction, data: seq<byte>, lookup: Result<seq<DevEntry>>) {
    Decode(data).Success? && lookup.Success? ==> |Matches(mic, Decode(data).value, lookup.value)| <= 1
  }

  /** What one HandleUp call does, as the collaborators record it: the error it returns,
      the address it looked up, the descriptor it resolved, the packet it sent and to whom. */
  datatype UpEffects = UpEffects(
    err: Option<ErrorKind>,
    lookedUp: Option<DevAddr>,
    resolved: Option<seq<byte>>,
    sent: Option<HPacket>,
    sentTo: Option<seq<Recipient>>)

  /** The Send call, if any, that HandleUp makes. */
  function SendCall(eff: UpEffects): Option<(HPacket, seq<Recipient>)> {
    if eff.sent.Some? && eff.sentTo.Some? then Some((eff.sent.value, eff.sentTo.value)) else None
  }

  /** The HandleUp pipeline over the answers its collaborators give: decode, look up the
      candidates, keep the one that authenticates the packet, translate, resolve, send.
      The first failing stage decides the error, and no later stage runs. */
  function HandleUpEffects(mic: MicFunction, data: seq<byte>, lookup: Result<seq<DevEntry>>,
                           getRecipient: Result<Recipient>, send: Option<ErrorKind>): (eff: UpEffects)
    requires SoundProvisioning(mic, data, lookup)
    // a stage runs only when every stage before it succeeded
    ensures eff.lookedUp.Some? <==> Decode(data).Success?
    ensures eff.lookedUp.Some? ==> eff.lookedUp.value == Decode(data).value.devAddr
    ensures eff.resolved.Some? ==> eff.lookedUp.Some? && lookup.Success?
    ensures eff.sent.Some? <==> eff.resolved.Some? && getRecipient.Success?
    ensures eff.sentTo.Some? <==> eff.sent.Some?
    ensures eff.sentTo.Some? ==> eff.sentTo.value == [getRecipient.value]
    // the call fails exactly when some stage failed, and then with that stage's kind
    ensures eff.err.None? <==> eff.sent.Some? && send.None?
    ensures eff.sent.Some? ==> eff.err == send
  {
    match Decode(data)
    case Failure(_) => UpEffects(Some(Structural), None, None, None, None)
    case Success(p) =>
      match lookup
      case Failure(k) => UpEffects(Some(k), Some(p.devAddr), None, None, None)
      case Success(entries) =>
        var ms := Matches(mic, p, entries);
        if ms == [] then UpEffects(Some(Behavioural), Some(p.devAddr), None, None, None)
        else
          var e := ms[0];
          match getRecipient
          case Failure(k) => UpEffects(Some(k), Some(p.devAddr), Some(e.recipient), None, None)
          case Success(r) => UpEffects(send, Some(p.devAddr), Some(e.recipient), Some(Translate(p, e)), Some([r]))
  }

  /** Input that does not decode is Structural, and nothing is looked up, resolved or sent. */
  lemma UndecodableRejected(mic: MicFunction, data: seq<byte>, lookup: Result<seq<DevEntry>>,
                            getRecipient: Result<Recipient>, send: Option<ErrorKind>)
    requires Decode(data).Failure?
    ensures SoundProvisioning(mic, data, lookup)
    ensures HandleUpEffects(mic, data, lookup, getRecipient, send) == UpEffects(Some(Structural), None, None, None, None)
  {
  }

  /** A failed lookup returns the lookup's error kind; nothing is resolved or sent. */
  lemma LookupFailurePropagated(mic: MicFunction, data: seq<byte>, k: ErrorKind,
                                getRecipient: Result<Recipient>, send: Option<ErrorKind>)
    requires Decode(data).Success?
    ensures SoundProvisioning(mic, data, Failure(k))
    ensures HandleUpEffects(mic, data, Failure(k), getRecipient, send)
         == UpEffects(Some(k), Some(Decode(data).value.devAddr), None, None, None)
  {
  }

  /** When no candidate's key reproduces the MIC the answer is Behavioural, and no recipient is
      resolved and nothing is sent. */
  lemma {:induction false} NoMicMatchRejected(mic: MicFunction, data: seq<byte>, entries: seq<DevEntry>,
                                              getRecipient: Result<Recipient>, send: Option<ErrorKind>)
    requires Decode(data).Success?
    requires forall i :: 0 <= i < |entries| ==> !MicValid(mic, Decode(data).value, entries[i])
    ensures SoundProvisioning(mic, data, Success(entries))
    ensures HandleUpEffects(mic, data, Success(entries), getRecipient, send)
         == UpEffects(Some(Behavioural), Some(Decode(data).value.devAddr), None, None, None)
  {
    MatchesEmpty(mic, Decode(data).value, entries);
  }

  /** When exactly one candidate authenticates the packet, its descriptor is resolved; if that
      fails, its error kind is returned and nothing is sent. */
  lemma {:induction false} UniqueMatchResolveFailure(mic: MicFunction, data: seq<byte>, entries: seq<DevEntry>, i: nat,
                                                     k: ErrorKind, send: Option<ErrorKind>)
    requires Decode(data).Success?
    requires i < |entries| && MicValid(mic, Decode(data).value, entries[i])
    requires forall j :: 0 <= j < |entries| && j != i ==> !MicValid(mic, Decode(data).value, entries[j])
    ensures SoundProvisioning(mic, data, Success(entries))
    ensures HandleUpEffects(mic, data, Success(entries), Failure(k), send)
         == UpEffects(Some(k), Some(Decode(data).value.devAddr), Some(entries[i].recipient), None, None)
  {
    MatchesUnique(mic, Decode(data).value, entries, i);
  }

  /** When exactly one candidate authenticates the packet and its recipient resolves, the
      translated packet goes to exactly that one recipient, and the call returns what Send
      returns: no error (an Ack) or Send's own error kind. */
  lemma {:induction false} UniqueMatchForwarded(mic: MicFunction, data: seq<byte>, entries: seq<DevEntry>, i: nat,
                                                r: Recipient, send: Option<ErrorKind>)
    requires Decode(data).Success?
    requires i < |entries| && MicValid(mic, Decode(data).value, entries[i])
    requires forall j :: 0 <= j < |entries| && j != i ==> !MicValid(mic, Decode(data).value, entries[j])
    ensures SoundProvisioning(mic, data, Success(entries))
    ensures var p := Decode(data).value;
              HandleUpEffects(mic, data, Success(entries), Success(r), send)
              == UpEffects(send, Some(p.devAddr), Some(entries[i].recipient),
                           Some(HPacket(entries[i].appEUI, entries[i].devEUI, p.payload, p.metadata)), Some([r]))
  {
    MatchesUnique(mic, Decode(data).value, entries, i);
  }

  /** The authentication boundary: whatever is sent carries the identifiers of a directory
      candidate whose key authenticates the decoded packet, the packet's own payload and
      metadata, and goes to a single recipient. */
  lemma {:induction false} SentOnlyWhenAuthenticated(mic: MicFunction, data: seq<byte>, lookup: Result<seq<DevEntry>>,
                                                     getRecipient: Result<Recipient>, send: Option<ErrorKind>)
    requires SoundProvisioning(mic, data, lookup)
    requires HandleUpEffects(mic, data, lookup, getRecipient, send).sent.Some?
    ensures Decode(data).Success? && lookup.Success? && getRecipient.Success?
    ensures var p, h := Decode(data).value, HandleUpEffects(mic, data, lookup, getRecipient, send).sent.value;
              h.payload == p.payload && h.metadata == p.metadata &&
              exists e :: e in lookup.value && MicValid(mic, p, e) && h.appEUI == e.appEUI && h.devEUI == e.devEUI
    ensures HandleUpEffects(mic, data, lookup, getRecipient, send).sentTo == Some([getRecipient.value])
  {
    var p := Decode(data).value;
    var e := Matches(mic, p, lookup.value)[0];
    MatchesMembership(mic, p, lookup.value, e);
  }

  /** Stands for the device directory the broker is built on. Besides the fields the
      scenarios read, it logs every call it receives, in order. */
  class MockStorage {
    var failures: map<string, ErrorKind>     // keyed by "LookupDevices", "StoreDevice", "StoreApplication"
    var outLookupDevices: seq<DevEntry>
    var inStoreDevices: Option<Registration>
    var inStoreApp: Option<Registration>
    var lookupCalls: seq<DevAddr>             // the address of every LookupDevices call
    var storeDeviceCalls: seq<Registration>   // the argument of every StoreDevice call
    var storeAppCalls: seq<Registration>      // the argument of every StoreApplication call

    constructor ()
      ensures failures == map[] && outLookupDevices == []
      ensures inStoreDevices == None && inStoreApp == None
      ensures lookupCalls == [] && storeDeviceCalls == [] && storeAppCalls == []
    {
      failures, outLookupDevices := map[], [];
      inStoreDevices, inStoreApp := None, None;
      lookupCalls, storeDeviceCalls, storeAppCalls := [], [], [];
    }

    /** What LookupDevices will answer. */
    function LookupAnswer(): Result<seq<DevEntry>>
      reads this
    {
      if "LookupDevices" in failures then Failure(failures["LookupDevices"]) else Success(outLookupDevices)
    }

    method LookupDevices(devAddr: DevAddr) returns (r: Result<seq<DevEntry>>)
      modifies this
      ensures r == old(LookupAnswer())
      ensures lookupCalls == old(lookupCalls) + [devAddr]
      ensures failures == old(failures) && outLookupDevices == old(outLookupDevices)
      ensures inStoreDevices == old(inStoreDevices) && inStoreApp == old(inStoreApp)
      ensures storeDeviceCalls == old(storeDeviceCalls) && storeAppCalls == old(storeAppCalls)
    {
      lookupCalls := lookupCalls + [devAddr];
      if "LookupDevices" in failures {
        r := Failure(failures["LookupDevices"]);
      } else {
        r := Success(outLookupDevices);
      }
    }

    method StoreDevice(reg: Registration) returns (err: Option<ErrorKind>)
      requires reg.BRegistration?
      modifies this
      ensures err == FailureOf(old(failures), "StoreDevice")
      ensures inStoreDevices == Some(reg) && storeDeviceCalls == old(storeDeviceCalls) + [reg]
      ensures failures == old(failures) && outLookupDevices == old(outLookupDevices)
      ensures inStoreApp == old(inStoreApp)
      ensures lookupCalls == old(lookupCalls) && storeAppCalls == old(storeAppCalls)
    {
      inStoreDevices := Some(reg);
      storeDeviceCalls := storeDeviceCalls + [reg];
      err := FailureOf(failures, "StoreDevice");
    }

    method StoreApplication(reg: Registration) returns (err: Option<ErrorKind>)
      requires reg.ARegistration?
      modifies this
      ensures err == FailureOf(old(failures), "StoreApplication")
      ensures inStoreApp == Some(reg) && storeAppCalls == old(storeAppCalls) + [reg]
      ensures failures == old(failures) && outLookupDevices == old(outLookupDevices)
      ensures inStoreDevices == old(inStoreDevices)
      ensures lookupCalls == old(lookupCalls) && storeDeviceCalls == old(storeDeviceCalls)
    {
      inStoreApp := Some(reg);
      storeAppCalls := storeAppCalls + [reg];
      err := FailureOf(failures, "StoreApplication");
    }
  }

  /** Reports the single outcome of a call: an Ack when it succeeded, a Nack otherwise. */
  method AckOrNack(an: MockAckNacker, err: Option<ErrorKind>)
    modifies an
    ensures an.inAck == Some(err.None?) && an.calls == old(an.calls) + 1
  {
    if err.None? {
      an.Ack();
    } else {
      an.Nack();
    }
  }

  class Broker {
    const storage: MockStorage
    const mic: MicFunction

    constructor (storage: MockStorage, mic: MicFunction)
      ensures this.storage == storage && this.mic == mic
    {
      this.storage, this.mic := storage, mic;
    }

    /** Stores a device or an application registration; refuses any other registration as
        Structural without touching the directory. A store failure is returned unchanged.
        Exactly one Ack or Nack is reported. */
    method Register(reg: Registration, an: MockAckNacker) returns (err: Option<ErrorKind>)
      modifies storage, an
      ensures reg.BRegistration? ==>
                err == FailureOf(old(storage.failures), "StoreDevice") &&
                storage.inStoreDevices == Some(reg) && storage.inStoreApp == old(storage.inStoreApp)
      ensures reg.ARegistration? ==>
                err == FailureOf(old(storage.failures), "StoreApplication") &&
                storage.inStoreApp == Some(reg) && storage.inStoreDevices == old(storage.inStoreDevices)
      ensures reg.RRegistration? ==>
                err == Some(Structural) &&
                storage.inStoreDevices == old(storage.inStoreDevices) && storage.inStoreApp == old(storage.inStoreApp)
      // one store call at most, to the targeted store only, and no retry
      ensures storage.storeDeviceCalls == old(storage.storeDeviceCalls) + (if reg.BRegistration? then [reg] else [])
      ensures storage.storeAppCalls == old(storage.storeAppCalls) + (if reg.ARegistration? then [reg] else [])
      ensures an.inAck == Some(err.None?) && an.calls == old(an.calls) + 1
      ensures storage.failures == old(storage.failures) && storage.outLookupDevices == old(storage.outLookupDevices)
      ensures storage.lookupCalls == old(storage.lookupCalls)
    {
      match reg {
        case BRegistration(_, _, _, _) =>
          err := storage.StoreDevice(reg);
        case ARegistration(_, _) =>
          err := storage.StoreApplication(reg);
        case RRegistration(_, _) =>
          err := Some(Structural);
      }
      AckOrNack(an, err);
    }

    /** The candidates, in directory order, whose key authenticates `packet`. */
    method MicMatches(packet: BPacket, entries: seq<DevEntry>) returns (matches: seq<DevEntry>)
      ensures matches == Matches(mic, packet, entries)
    {
      matches := [];
      var i := 0;
      while i < |entries|
        invariant 0 <= i <= |entries|
        invariant matches == Matches(mic, packet, entries[..i])
      {
        assert entries[..i + 1] == entries[..i] + [entries[i]];
        MatchesAppend(mic, packet, entries[..i], [entries[i]]);
        if MicValid(mic, packet, entries[i]) {
          matches := matches + [entries[i]];
        }
        i := i + 1;
      }
      assert entries[..i] == entries;
    }

    /** Decodes, authenticates, translates and forwards one uplink packet, and reports the
        outcome with exactly one Ack or Nack. The directory is only read. */
    method HandleUp(data: seq<byte>, an: MockAckNacker, adapter: MockAdapter) returns (err: Option<ErrorKind>)
      requires SoundProvisioning(mic, data, storage.LookupAnswer())
      modifies storage, an, adapter
      ensures var eff := HandleUpEffects(mic, data, old(storage.LookupAnswer()),
                                         old(adapter.GetRecipientAnswer()), old(adapter.SendAnswer()));
              err == eff.err &&
              storage.lookupCalls == old(storage.lookupCalls) + Trace(eff.lookedUp) &&
              adapter.getRecipientCalls == old(adapter.getRecipientCalls) + Trace(eff.resolved) &&
              adapter.sendCalls == old(adapter.sendCalls) + Trace(SendCall(eff)) &&
              adapter.inSendPacket == Latest(old(adapter.inSendPacket), eff.sent) &&
              adapter.inSendRecipients == Latest(old(adapter.inSendRecipients), eff.sentTo)
      ensures an.inAck == Some(err.None?) && an.calls == old(an.calls) + 1
      ensures storage.inStoreDevices == old(storage.inStoreDevices) && storage.inStoreApp == old(storage.inStoreApp)
      ensures storage.storeDeviceCalls == old(storage.storeDeviceCalls) && storage.storeAppCalls == old(storage.storeAppCalls)
      ensures storage.failures == old(storage.failures) && storage.outLookupDevices == old(storage.outLookupDevices)
      ensures adapter.failures == old(adapter.failures) && adapter.outGetRecipient == old(adapter.outGetRecipient)
    {
      err := Forward(data, adapter);
      AckOrNack(an, err);
    }

    /** The stages of HandleUp up to, but not including, the Ack or Nack. */
    method Forward(data: seq<byte>, adapter: MockAdapter) returns (err: Option<ErrorKind>)
      requires SoundProvisioning(mic, data, storage.LookupAnswer())
      modifies storage, adapter
      ensures var eff := HandleUpEffects(mic, data, old(storage.LookupAnswer()),
                                         old(adapter.GetRecipientAnswer()), old(adapter.SendAnswer()));
              err == eff.err &&
              storage.lookupCalls == old(storage.lookupCalls) + Trace(eff.lookedUp) &&
              adapter.getRecipientCalls == old(adapter.getRecipientCalls) + Trace(eff.resolved) &&
              adapter.sendCalls == old(adapter.sendCalls) + Trace(SendCall(eff)) &&
              adapter.inSendPacket == Latest(old(adapter.inSendPacket), eff.sent) &&
              adapter.inSendRecipients == Latest(old(adapter.inSendRecipients), eff.sentTo)
      ensures storage.inStoreDevices == old(storage.inStoreDevices) && storage.inStoreApp == old(storage.inStoreApp)
      ensures storage.storeDeviceCalls == old(storage.storeDeviceCalls) && storage.storeAppCalls == old(storage.storeAppCalls)
      ensures storage.failures == old(storage.failures) && storage.outLookupDevices == old(storage.outLookupDevices)
      ensures adapter.failures == old(adapter.failures) && adapter.outGetRecipient == old(adapter.outGetRecipient)
    {
      var decoded := Decode(data);
      if decoded.Failure? {
        return Some(Structural);
      }
      var packet := decoded.value;
      var lookup := storage.LookupDevices(packet.devAddr);
      if lookup.Failure? {
        return Some(lookup.error);
      }
      var matches := MicMatches(packet, lookup.value);
      if matches == [] {
        return Some(Behavioural);
      }
      // Sound provisioning leaves exactly one match.
      var entry := matches[0];
      var recipient := adapter.GetRecipient(entry.recipient);
      if recipient.Failure? {
        return Some(recipient.error);
      }
      err := adapter.Send(Translate(packet, entry), [recipient.value]);
    }
  }
}
