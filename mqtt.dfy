/** The MQTT session wrapper of mqtt_client.c: one static client handle, one
    static 256-byte mailbox (received_message) that the receive callback
    overwrites in place and that mqtt_subscribe hands out.

    The NetX Duo MQTT library is foreign: the status of each of its calls is an
    input, the calls themselves are recorded, and what the library delivers to the
    callback is a Delivery value. */
module MqttClient {
  import opened Status
  import opened Address
  import opened Wrappers
  import opened CStrings

  const BrokerPort: nat := 1883
  const ClientId: string := "mxchip_client"
  const StackSize: nat := 4096
  const ThreadPriority: nat := 3
  const KeepAliveSeconds: nat := 60

  /** The broker mqtt_connect targets, IP_ADDRESS(18, 134, 118, 11). */
  const Broker: Word := IpAddress(Octets(18, 134, 118, 11))

  /** The callback's local topic_buffer[100] and the static received_message[256]. */
  const TopicBufferSize: nat := 100
  const MailboxSize: nat := 256

  /** The calls the wrapper makes into the MQTT library. */
  datatype MqttCall =
    | ClientCreate(clientId: string, clientIdLength: nat, stackSize: nat, priority: nat)
    | ClientConnect(broker: Word, port: nat, keepAlive: nat, cleanSession: bool)
    | ClientPublish(topic: string, topicLength: nat, message: string, messageLength: nat, retain: bool, qos: nat)
    | ClientSubscribe(topic: string, topicLength: nat, qos: nat)
    | NotifySet
    | MessageGet(topicCapacity: nat, messageCapacity: nat)

  const CreateClient: MqttCall := ClientCreate(ClientId, |ClientId|, StackSize, ThreadPriority)
  const BrokerConnect: MqttCall := ClientConnect(Broker, BrokerPort, KeepAliveSeconds, true)

  /** The calls mqtt_connect makes: create the client, and connect to the broker
      only when the creation succeeded. */
  function ConnectCalls(create: U32): (calls: seq<MqttCall>)
    ensures |calls| >= 1 && calls[0] == CreateClient
    ensures BrokerConnect in calls <==> create == NX_SUCCESS
    ensures forall c :: c in calls ==> c == CreateClient || c == BrokerConnect
  {
    [CreateClient] + if create == NX_SUCCESS then [BrokerConnect] else []
  }

  /** The publish a call to mqtt_publish issues for two C strings: their texts up
      to the terminator, with those lengths, not retained, at QoS 0. */
  function PublishCall(topic: seq<char>, message: seq<char>): (call: MqttCall)
    ensures call.ClientPublish? && call.topicLength == |call.topic| && call.messageLength == |call.message|
    ensures '\0' !in call.topic && '\0' !in call.message
    ensures call.topic <= topic && (|call.topic| < |topic| ==> topic[|call.topic|] == '\0')
    ensures call.message <= message && (|call.message| < |message| ==> message[|call.message|] == '\0')
    ensures !call.retain && call.qos == 0
  {
    ClientPublish(Text(topic), StrLen(topic), Text(message), StrLen(message), false, 0)
  }

  /** What nxd_mqtt_client_message_get hands the callback: the topic and the
      payload it copied. */
  datatype Delivery = Delivery(topic: seq<char>, message: seq<char>)

  /** The library copies no more than the capacity it is given. */
  predicate Fits(d: Delivery, topicCapacity: nat, messageCapacity: nat)
  {
    |d.topic| <= topicCapacity && |d.message| <= messageCapacity
  }

  /** A NUL written at index |topic| or |message| falls outside topic_buffer or
      received_message. */
  predicate Overruns(d: Delivery)
  {
    |d.topic| >= TopicBufferSize || |d.message| >= MailboxSize
  }

  /** The mailbox after a message is copied into it and terminated at its length
      (the terminator is lost when the message fills the whole buffer); bytes past
      the terminator keep whatever an earlier message left there. */
  function Delivered(box: seq<char>, message: seq<char>): seq<char>
    requires |message| <= |box|
  {
    if |message| < |box| then message + ['\0'] + box[|message| + 1..] else message
  }

  class Session {
    /** The calls made into the MQTT library so far. */
    var calls: seq<MqttCall>
    /** Whether mqtt_callback is installed as the receive notification. */
    var notifying: bool
    /** received_message: the one mailbox shared by every subscriber. */
    const mailbox: array<char>

    ghost predicate Valid()
      reads this
    {
      mailbox.Length == MailboxSize
    }

    /** The state at boot: no call made, no callback installed, and the static
        mailbox zero-filled. */
    constructor ()
      ensures Valid() && fresh(mailbox)
      ensures calls == [] && !notifying
      ensures forall i :: 0 <= i < mailbox.Length ==> mailbox[i] == '\0'
    {
      calls, notifying := [], false;
      mailbox := new char[MailboxSize](_ => '\0');
    }

    /** mqtt_connect: create the client and, when that succeeded, connect to the
        broker; failures are only printed. */
    method Connect(create: U32)
      modifies this`calls
      ensures calls == old(calls) + ConnectCalls(create)
    {
      calls := calls + [CreateClient];
      if create != NX_SUCCESS {
        return;
      }
      calls := calls + [BrokerConnect];
    }

    /** mqtt_publish: exactly one publish, whatever its status; there is no retry. */
    method Publish(topic: seq<char>, message: seq<char>)
      modifies this`calls
      ensures calls == old(calls) + [PublishCall(topic, message)]
    {
      calls := calls + [PublishCall(topic, message)];
    }

    /** mqtt_subscribe: subscribe at QoS 0; on failure return NULL and install
        nothing, on success install mqtt_callback and return the shared mailbox.
        The mailbox is neither read nor cleared. */
    method Subscribe(topic: seq<char>, status: U32) returns (received: Option<array<char>>)
      modifies this`calls, this`notifying
      ensures calls == old(calls) + [ClientSubscribe(Text(topic), StrLen(topic), 0)] +
        (if status == NX_SUCCESS then [NotifySet] else [])
      ensures notifying == (old(notifying) || status == NX_SUCCESS)
      ensures received == if status == NX_SUCCESS then Some(mailbox) else None
      ensures mailbox[..] == old(mailbox[..])
    {
      calls := calls + [ClientSubscribe(Text(topic), StrLen(topic), 0)];
      if status != NX_SUCCESS {
        return None;
      }
      calls := calls + [NotifySet];
      notifying := true;
      return Some(mailbox);
    }

    /** mqtt_callback as written: fetch the message with the full sizes of both
        buffers as capacities, then terminate both at the reported lengths. The
        result says whether a terminator fell outside its buffer; the model then
        leaves that write out. */
    method Callback(d: Delivery) returns (overrun: bool)
      requires Valid() && notifying
      requires Fits(d, TopicBufferSize, MailboxSize)
      modifies this`calls, mailbox
      ensures calls == old(calls) + [MessageGet(TopicBufferSize, MailboxSize)]
      ensures mailbox[..] == Delivered(old(mailbox[..]), d.message)
      ensures overrun == Overruns(d)
    {
      calls := calls + [MessageGet(TopicBufferSize, MailboxSize)];
      overrun := Receive(d);
    }

    /** mqtt_callback with one byte of each buffer kept for the terminator: the
        library is given the capacities 99 and 255, so the terminators always
        land inside the buffers. */
    method CallbackWithRoom(d: Delivery)
      requires Valid() && notifying
      requires Fits(d, TopicBufferSize - 1, MailboxSize - 1)
      modifies this`calls, mailbox
      ensures calls == old(calls) + [MessageGet(TopicBufferSize - 1, MailboxSize - 1)]
      ensures mailbox[..] == Delivered(old(mailbox[..]), d.message)
      ensures !Overruns(d)
      ensures '\0' !in d.message ==> Text(mailbox[..]) == d.message
    {
      calls := calls + [MessageGet(TopicBufferSize - 1, MailboxSize - 1)];
      var overrun := Receive(d);
      assert !overrun;
      if '\0' !in d.message {
        DeliveredReadsAsMessage(old(mailbox[..]), d.message);
      }
    }

    /** The copy the library makes and the two terminator writes of the callback. */
    method Receive(d: Delivery) returns (overrun: bool)
      requires Valid()
      requires Fits(d, TopicBufferSize, MailboxSize)
      modifies mailbox
      ensures mailbox[..] == Delivered(old(mailbox[..]), d.message)
      ensures overrun == Overruns(d)
    {
      var topicBuffer := new char[TopicBufferSize];
      forall i | 0 <= i < |d.topic| {
        topicBuffer[i] := d.topic[i];
      }
      forall i | 0 <= i < |d.message| {
        mailbox[i] := d.message[i];
      }
      overrun := false;
      if |d.topic| < TopicBufferSize {
        topicBuffer[|d.topic|] := '\0';
      } else {
        overrun := true;
      }
      if |d.message| < MailboxSize {
        mailbox[|d.message|] := '\0';
      } else {
        overrun := true;
      }
      assert mailbox[..] == Delivered(old(mailbox[..]), d.message);
    }
  }

  /** A terminated message reads back, through the pointer mqtt_subscribe returned,
      as exactly the message. */
  lemma DeliveredReadsAsMessage(box: seq<char>, message: seq<char>)
    requires |message| < |box| && '\0' !in message
    ensures Text(Delivered(box, message)) == message
  {
    TextOfTerminated(message, box[|message| + 1..]);
  }

  /** Last write wins: after two deliveries with no read in between, the mailbox
      reads as the second message, whatever the first was; only bytes of the first
      past the second's terminator survive. */
  lemma LastWriteWins(box: seq<char>, first: seq<char>, second: seq<char>)
    requires |first| <= |box| && |second| < |box| && '\0' !in second
    ensures Text(Delivered(Delivered(box, first), second)) == second
    ensures Delivered(Delivered(box, first), second)[..|second| + 1] == Delivered(box, second)[..|second| + 1]
    ensures Delivered(Delivered(box, first), second)[|second| + 1..] == Delivered(box, first)[|second| + 1..]
  {
    DeliveredReadsAsMessage(Delivered(box, first), second);
  }

  /** Before any delivery the zero-filled mailbox reads as the empty string, which
      the subscriber treats as no message. */
  lemma ZeroedMailboxReadsEmpty(box: seq<char>)
    requires forall i :: 0 <= i < |box| ==> box[i] == '\0'
    ensures Text(box) == []
  {
    TextEmptyIffLeadingNul(box);
  }

  /** The capacities mqtt_callback passes admit a delivery whose terminator falls
      outside the mailbox: a 256-byte payload. */
  lemma FullMessageOverruns()
    ensures var d := Delivery("fun/led", seq(MailboxSize, _ => 'x'));
      Fits(d, TopicBufferSize, MailboxSize) && Overruns(d)
  {
  }

  /** With one byte of each buffer kept for the terminator no delivery overruns. */
  lemma RoomForTerminatorNeverOverruns(d: Delivery)
    requires Fits(d, TopicBufferSize - 1, MailboxSize - 1)
    ensures !Overruns(d)
  {
  }
}
