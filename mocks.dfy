/** Recording test doubles for the collaborators of a component: each remembers the
    arguments of its last call and answers with what a scenario told it to. */
module Mocks {
  import opened Errors
  import opened Core

  /** The failure a mock was told to raise from the call named `name`, if any. */
  function FailureOf(failures: map<string, ErrorKind>, name: string): Option<ErrorKind> {
    if name in failures then Some(failures[name]) else None
  }

  /** Where a latest-call record stands after an operation that may have made that call. */
  function Latest<T>(previous: Option<T>, call: Option<T>): Option<T> {
    if call.Some? then call else previous
  }

  /** The call log entry of an operation that made the call `call`, or none if it did not. */
  function Trace<T>(call: Option<T>): seq<T> {
    if call.Some? then [call.value] else []
  }

  /** The recipient a fresh mock adapter hands out. */
  function NewMockRecipient(): Recipient {
    Recipient([])
  }

  /** Stands for the transport that acknowledges an inbound packet or registration. */
  class MockAckNacker {
    var inAck: Option<bool>    // Some(true) after an Ack, Some(false) after a Nack
    var calls: nat            // how many Ack and Nack calls were made in all

    constructor ()
      ensures inAck == None && calls == 0
    {
      inAck, calls := None, 0;
    }

    method Ack()
      modifies this
      ensures inAck == Some(true) && calls == old(calls) + 1
    {
      inAck, calls := Some(true), calls + 1;
    }

    method Nack()
      modifies this
      ensures inAck == Some(false) && calls == old(calls) + 1
    {
      inAck, calls := Some(false), calls + 1;
    }
  }

  /** Stands for the network adapter that resolves recipients and delivers packets. Besides
      the fields the scenarios read, it logs every call it receives, in order. */
  class MockAdapter {
    var failures: map<string, ErrorKind>       // keyed by "GetRecipient" and "Send"
    var outGetRecipient: Recipient
    var inSendPacket: Option<HPacket>
    var inSendRecipients: Option<seq<Recipient>>
    var getRecipientCalls: seq<seq<byte>>       // the descriptor of every GetRecipient call
    var sendCalls: seq<(HPacket, seq<Recipient>)>  // the arguments of every Send call

    constructor ()
      ensures failures == map[] && outGetRecipient == NewMockRecipient()
      ensures inSendPacket == None && inSendRecipients == None
      ensures getRecipientCalls == [] && sendCalls == []
    {
      failures, outGetRecipient := map[], NewMockRecipient();
      inSendPacket, inSendRecipients := None, None;
      getRecipientCalls, sendCalls := [], [];
    }

    /** What GetRecipient will answer. */
    function GetRecipientAnswer(): Result<Recipient>
      reads this
    {
      if "GetRecipient" in failures then Failure(failures["GetRecipient"]) else Success(outGetRecipient)
    }

    /** What Send will answer. */
    function SendAnswer(): Option<ErrorKind>
      reads this
    {
      FailureOf(failures, "Send")
    }

    method GetRecipient(raw: seq<byte>) returns (r: Result<Recipient>)
      modifies this
      ensures r == old(GetRecipientAnswer())
      ensures getRecipientCalls == old(getRecipientCalls) + [raw]
      ensures failures == old(failures) && outGetRecipient == old(outGetRecipient)
      ensures inSendPacket == old(inSendPacket) && inSendRecipients == old(inSendRecipients)
      ensures sendCalls == old(sendCalls)
    {
      getRecipientCalls := getRecipientCalls + [raw];
      if "GetRecipient" in failures {
        r := Failure(failures["GetRecipient"]);
      } else {
        r := Success(outGetRecipient);
      }
    }

    method Send(p: HPacket, recipients: seq<Recipient>) returns (err: Option<ErrorKind>)
      modifies this
      ensures err == old(SendAnswer())
      ensures inSendPacket == Some(p) && inSendRecipients == Some(recipients)
      ensures sendCalls == old(sendCalls) + [(p, recipients)]
      ensures failures == old(failures) && outGetRecipient == old(outGetRecipient)
      ensures getRecipientCalls == old(getRecipientCalls)
    {
      inSendPacket, inSendRecipients := Some(p), Some(recipients);
      sendCalls := sendCalls + [(p, recipients)];
      err := FailureOf(failures, "Send");
    }
  }
}
