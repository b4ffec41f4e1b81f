/**
 * The view model around the MQTT client: which credentials reach the
 * client, the connection status and its `connected` mirror, the message
 * log the delegate callbacks append to, and the two publish events.
 *
 * The client library itself is not modelled. What the view model asks of
 * it is recorded, in order, in `requests`; what it reports back arrives as
 * the parameters of the delegate methods.
 */
module Mqtt {
  import opened Common
  import opened Events
  import opened Text
  import Profiles

  /** The client's connection state. */
  datatype ConnState = Disconnected | Connecting | Connected

  /** Log levels; `Incoming` is Swift's `.message`, `Succes` keeps the source's spelling. */
  datatype Level = Incoming | Succes | Warning | Error | Info

  /** One line of the message log. */
  datatype Message = Message(id: Uuid, content: string, level: Level)

  /** A log line without its identity. */
  datatype Entry = Entry(content: string, level: Level)

  function Entries(ms: seq<Message>): (r: seq<Entry>)
    ensures |r| == |ms|
    ensures forall i :: 0 <= i < |ms| ==> r[i] == Entry(ms[i].content, ms[i].level)
  {
    if ms == [] then [] else [Entry(ms[0].content, ms[0].level)] + Entries(ms[1..])
  }

  datatype QoS = Qos0 | Qos1 | Qos2

  /** The client library's `description` of a QoS level. */
  function QosDescription(q: QoS): string {
    match q
    case Qos0 => "qos0"
    case Qos1 => "qos1"
    case Qos2 => "qos2"
  }

  /** What the view model configures on a new client. */
  datatype ClientConfig = ClientConfig(
    clientId: string, host: string, port: UInt16, username: string, password: string,
    enableSSL: bool, allowUntrustCACertificate: bool)

  /** A call the view model makes on the client. */
  datatype Request =
    | Open(config: ClientConfig, timeout: nat)
    | Close
    | Publish(topic: string, data: string)
    | Subscribe(topic: string, qos: QoS)
    | Unsubscribe(topics: seq<string>)

  /** An untyped value from the client's `NSDictionary` of granted subscriptions. */
  datatype AnyValue = Str(s: string) | Number(n: int) | Other

  /** `as? String`. */
  function AsString(v: AnyValue): (r: Option<string>)
    ensures r.Some? <==> v.Str?
    ensures r.Some? ==> r.value == v.s
  {
    if v.Str? then Some(v.s) else None
  }

  /** `as? UInt16`: succeeds for numbers a `UInt16` can hold exactly. */
  function AsUInt16(v: AnyValue): (r: Option<UInt16>)
    ensures r.Some? <==> v.Number? && 0 <= v.n < 0x1_0000
    ensures r.Some? ==> r.value == v.n
  {
    if v.Number? && 0 <= v.n < 0x1_0000 then Some(v.n) else None
  }

  /**
   * The configuration `connect` builds: the forward profile takes the
   * client id, user name and password typed on the settings page, a
   * stored profile its own; TLS is always on and untrusted CA
   * certificates are allowed as the settings say.
   */
  function ConnectConfig(profile: Profiles.Item, clientID: string, username: string, password: string,
                         host: string, port: UInt16, allowSerts: bool): (c: ClientConfig)
    ensures profile.isForward ==> c.clientId == clientID && c.username == username && c.password == password
    ensures !profile.isForward ==>
      c.clientId == profile.clientId && c.username == profile.login && c.password == profile.password
    ensures c.host == host && c.port == port && c.enableSSL && c.allowUntrustCACertificate == allowSerts
  {
    if profile.isForward then ClientConfig(clientID, host, port, username, password, true, allowSerts)
    else ClientConfig(profile.clientId, host, port, profile.login, profile.password, true, allowSerts)
  }

  /**
   * The text logged for a received message: the payload as text when it
   * decodes, else its bytes as a bracketed decimal list, which gives the
   * bytes back when parsed.
   */
  function RenderPayload(text: Option<string>, payload: seq<Byte>): (r: string)
    ensures text.Some? ==> r == text.value
    ensures text.None? ==> ParseBytes(r) == Some(payload)
  {
    match text
    case Some(t) => t
    case None => RenderBytesRoundTrip(payload); RenderBytes(payload)
  }

  /** The success text of a granted subscription. */
  function SuccessContent(topic: string, qos: UInt16): string {
    "Succes connected to topic: " + topic + " with QOS: " + Decimal(qos)
  }

  /** The success text names the topic and then the granted QoS in decimal, both readable back. */
  lemma SuccessContentReadsBack(topic: string, qos: UInt16)
    ensures var r := SuccessContent(topic, qos); var k := |"Succes connected to topic: "|;
      |r| > k + |topic| && r[k..k + |topic|] == topic
    ensures var r := SuccessContent(topic, qos); var m := |"Succes connected to topic: "| + |topic| + |" with QOS: "|;
      |r| > m && AllDigits(r[m..]) && DigitsValue(r[m..]) == qos
  {
    var m := |"Succes connected to topic: "| + |topic| + |" with QOS: "|;
    assert SuccessContent(topic, qos)[m..] == Decimal(qos);
    DecimalRoundTrip(qos);
  }

  /** The line one pair of a subscribe result gives: one for a `String` and a `UInt16`, else none. */
  function SuccessLine(p: (AnyValue, AnyValue)): (r: seq<Entry>)
    ensures r != [] <==> p.0.Str? && p.1.Number? && 0 <= p.1.n < 0x1_0000
    ensures r != [] ==> r == [Entry(SuccessContent(p.0.s, p.1.n), Succes)]
  {
    match (AsString(p.0), AsUInt16(p.1))
    case (Some(topic), Some(qos)) => [Entry(SuccessContent(topic, qos), Succes)]
    case _ => []
  }

  /** The success lines of a subscribe result: the `compactMap` of `SuccessLine`. */
  function SuccessEntries(success: seq<(AnyValue, AnyValue)>): (r: seq<Entry>)
    ensures |r| <= |success|
    ensures forall e :: e in r ==> e.level == Succes
  {
    if success == [] then []
    else SuccessLine(success[0]) + SuccessEntries(success[1..])
  }

  /** A single pair gives exactly its own line, or none. */
  lemma SuccessEntriesSingle(p: (AnyValue, AnyValue))
    ensures SuccessEntries([p]) == SuccessLine(p)
  {
    assert [p][1..] == [];
  }

  /** The lines of a concatenation are the lines of each part, in order. */
  lemma {:induction false} SuccessEntriesAppend(a: seq<(AnyValue, AnyValue)>, b: seq<(AnyValue, AnyValue)>)
    ensures SuccessEntries(a + b) == SuccessEntries(a) + SuccessEntries(b)
  {
    if a == [] {
      assert a + b == b;
    } else {
      assert (a + b)[0] == a[0];
      assert (a + b)[1..] == a[1..] + b;
      SuccessEntriesAppend(a[1..], b);
    }
  }

  /** With only well-typed pairs, every pair gives its line, in order. */
  lemma {:induction false} SuccessEntriesWellTyped(topics: seq<string>, qos: seq<UInt16>)
    requires |topics| == |qos|
    ensures var r := SuccessEntries(seq(|topics|, i requires 0 <= i < |topics| => (Str(topics[i]), Number(qos[i]))));
      |r| == |topics| && forall i :: 0 <= i < |r| ==> r[i] == Entry(SuccessContent(topics[i], qos[i]), Succes)
  {
    var pairs := seq(|topics|, i requires 0 <= i < |topics| => (Str(topics[i]), Number(qos[i])));
    if topics != [] {
      var rest := seq(|topics| - 1, i requires 0 <= i < |topics| - 1 => (Str(topics[1..][i]), Number(qos[1..][i])));
      SuccessEntriesWellTyped(topics[1..], qos[1..]);
      assert pairs[1..] == rest;
      var head := Entry(SuccessContent(topics[0], qos[0]), Succes);
      assert SuccessLine(pairs[0]) == [head];
      var r := SuccessEntries(pairs);
      assert r == [head] + SuccessEntries(rest);
      forall i | 0 < i < |r|
        ensures r[i] == Entry(SuccessContent(topics[i], qos[i]), Succes)
      {
        assert r[i] == SuccessEntries(rest)[i - 1];
        assert topics[1..][i - 1] == topics[i] && qos[1..][i - 1] == qos[i];
      }
    }
  }

  /** Pairs whose key is not a `String` or whose value is not a `UInt16` leave no line. */
  lemma {:induction false} SuccessEntriesSkipsIllTyped(success: seq<(AnyValue, AnyValue)>)
    requires forall i :: 0 <= i < |success| ==> AsString(success[i].0).None? || AsUInt16(success[i].1).None?
    ensures SuccessEntries(success) == []
  {
    if success != [] {
      SuccessEntriesSkipsIllTyped(success[1..]);
    }
  }

  function FailureEntries(failed: seq<string>): (r: seq<Entry>)
    ensures |r| == |failed|
    ensures forall i :: 0 <= i < |failed| ==> r[i] == Entry("Faild connected to topic: " + failed[i], Error)
  {
    seq(|failed|, i requires 0 <= i < |failed| => Entry("Faild connected to topic: " + failed[i], Error))
  }

  function UnsubscribeEntries(topics: seq<string>): (r: seq<Entry>)
    ensures |r| == |topics|
    ensures forall i :: 0 <= i < |topics| ==> r[i] == Entry("Unsubscribe topic: " + topics[i], Warning)
  {
    seq(|topics|, i requires 0 <= i < |topics| => Entry("Unsubscribe topic: " + topics[i], Warning))
  }

  /** Log lines with consecutive fresh identities from `start`. */
  function Stamp(es: seq<Entry>, start: nat): (r: seq<Message>)
    ensures |r| == |es| && Entries(r) == es
    ensures forall i :: 0 <= i < |r| ==> r[i].id == start + i
  {
    var r := seq(|es|, i requires 0 <= i < |es| => Message(start + i, es[i].content, es[i].level));
    assert forall i :: 0 <= i < |es| ==> Entries(r)[i] == es[i];
    r
  }

  /** Appending messages and taking their entries commute. */
  lemma EntriesAppend(ms: seq<Message>, more: seq<Message>)
    ensures Entries(ms + more) == Entries(ms) + Entries(more)
  {
    var l, r := Entries(ms + more), Entries(ms) + Entries(more);
    forall i | 0 <= i < |l|
      ensures l[i] == r[i]
    {
      if i < |ms| {
        assert (ms + more)[i] == ms[i];
      } else {
        assert (ms + more)[i] == more[i - |ms|];
      }
    }
  }

  /** Lines stamped from `next` on keep identities below the new bound and distinct. */
  lemma StampedIdsFresh(ms: seq<Message>, lines: seq<Entry>, next: nat)
    requires forall i :: 0 <= i < |ms| ==> ms[i].id < next
    requires forall i, j :: 0 <= i < j < |ms| ==> ms[i].id != ms[j].id
    ensures var r := ms + Stamp(lines, next);
      && (forall i :: 0 <= i < |r| ==> r[i].id < next + |lines|)
      && (forall i, j :: 0 <= i < j < |r| ==> r[i].id != r[j].id)
  {
    var st := Stamp(lines, next);
    var r := ms + st;
    forall i, j | 0 <= i < j < |r|
      ensures r[i].id != r[j].id
    {
      if j >= |ms| {
        assert r[j] == st[j - |ms|];
        if i >= |ms| {
          assert r[i] == st[i - |ms|];
        }
      }
    }
  }

  class MqttViewModel<A> {
    var clientID: string
    var currentProfile: Profiles.Item
    var username: string
    var password: string
    var host: string
    var port: UInt16
    var allowSerts: bool
    var status: ConnState
    var connected: bool
    var error: Option<string>
    var messages: seq<Message>
    var subscriptions: seq<string>
    const didPublishMessage: Event<UInt16, A>
    const didPublishAck: Event<UInt16, A>
    /** `mqtt`: absent until the first `connect`. */
    var client: Option<ClientConfig>
    /** Every call made on the client, oldest first. */
    var requests: seq<Request>
    /** The next identity the UUID generator hands out. */
    var nextUuid: nat

    /**
     * `connected` mirrors `status`; the two publish events are distinct;
     * every log line has its own identity.
     */
    ghost predicate Valid()
      reads this
    {
      && connected == (status == Connected)
      && didPublishMessage != didPublishAck
      && (forall i :: 0 <= i < |messages| ==> messages[i].id < nextUuid)
      && (forall i, j :: 0 <= i < j < |messages| ==> messages[i].id != messages[j].id)
    }

    /** The default values; the process identifier names the client. */
    constructor(processIdentifier: nat, firstUuid: nat)
      ensures Valid() && fresh(didPublishMessage) && fresh(didPublishAck)
      ensures clientID == "Process-" + Decimal(processIdentifier)
      ensures currentProfile == Profiles.Forward(firstUuid)
      ensures username == "" && password == "" && host == "" && port == 8883 && !allowSerts
      ensures status == Disconnected && error == None && messages == [] && subscriptions == []
      ensures client == None && requests == [] && nextUuid == firstUuid + 1
      ensures didPublishMessage.listeners == map[] && didPublishAck.listeners == map[]
    {
      clientID := "Process-" + Decimal(processIdentifier);
      currentProfile := Profiles.Forward(firstUuid);
      username, password, host := "", "", "";
      port := 8883;
      allowSerts := false;
      status := Disconnected;
      connected := false;
      error := None;
      messages, subscriptions := [], [];
      didPublishMessage := new Event();
      didPublishAck := new Event();
      client, requests := None, [];
      nextUuid := firstUuid + 1;
    }

    /** Appends one log line with a fresh identity. */
    method Log(content: string, level: Level)
      requires Valid()
      modifies this`messages, this`nextUuid
      ensures Valid()
      ensures messages == old(messages) + [Message(old(nextUuid), content, level)]
      ensures Entries(messages) == Entries(old(messages)) + [Entry(content, level)]
    {
      messages := messages + [Message(nextUuid, content, level)];
      assert Entries(messages) == Entries(old(messages)) + [Entry(content, level)];
      nextUuid := nextUuid + 1;
    }

    /** `connect`: a new client configured from the current profile, then asked to connect within 10. */
    method Connect()
      modifies this`client, this`requests
      ensures client == Some(ConnectConfig(currentProfile, clientID, username, password, host, port, allowSerts))
      ensures requests == old(requests) + [Open(client.value, 10)]
    {
      var config := ConnectConfig(currentProfile, clientID, username, password, host, port, allowSerts);
      client := Some(config);
      requests := requests + [Open(config, 10)];
    }

    /** The client is implicitly unwrapped: calling it before `connect` traps. */
    method Disconnect()
      requires client.Some?
      modifies this`requests
      ensures requests == old(requests) + [Close]
    {
      requests := requests + [Close];
    }

    method Publish(topic: string, data: string)
      requires client.Some?
      modifies this`requests
      ensures requests == old(requests) + [Request.Publish(topic, data)]
    {
      requests := requests + [Request.Publish(topic, data)];
    }

    /** `subscribe`: one info line, then the request to the client. */
    method Subscribe(topic: string, qos: QoS := Qos1)
      requires Valid() && client.Some?
      modifies this`messages, this`nextUuid, this`requests
      ensures Valid()
      ensures Entries(messages) ==
        Entries(old(messages)) + [Entry("Connecting to " + topic + " with " + QosDescription(qos), Info)]
      ensures messages[..|old(messages)|] == old(messages)
      ensures requests == old(requests) + [Request.Subscribe(topic, qos)]
    {
      Log("Connecting to " + topic + " with " + QosDescription(qos), Info);
      requests := requests + [Request.Subscribe(topic, qos)];
    }

    method Unsubscribe(topic: string)
      requires client.Some?
      modifies this`requests
      ensures requests == old(requests) + [Request.Unsubscribe([topic])]
    {
      requests := requests + [Request.Unsubscribe([topic])];
    }

    /** `unsubscribeAll`: every topic the client reports as subscribed, in one request. */
    method UnsubscribeAll(clientSubscriptions: seq<string>)
      requires client.Some?
      modifies this`requests
      ensures requests == old(requests) + [Request.Unsubscribe(clientSubscriptions)]
    {
      requests := requests + [Request.Unsubscribe(clientSubscriptions)];
    }

    /** The certificate-trust callback accepts every chain, whatever `allowSerts` says. */
    method DidReceiveTrust() returns (trusted: bool)
      ensures trusted
    {
      trusted := true;
    }

    /** A state change: `status` and its `connected` mirror, and a fresh subscription list. */
    method DidStateChangeTo(state: ConnState, clientSubscriptions: seq<string>)
      requires Valid()
      modifies this`status, this`connected, this`subscriptions
      ensures Valid()
      ensures status == state && connected == (state == Connected)
      ensures subscriptions == clientSubscriptions
    {
      status := state;
      connected := status == Connected;
      subscriptions := clientSubscriptions;
    }

    method DidPublishMessage(id: UInt16) returns (calls: seq<Call<UInt16, A>>)
      modifies didPublishMessage
      ensures didPublishMessage.listeners == Live(old(didPublishMessage.listeners))
      ensures forall k :: k in Targets(calls) <==> k in LiveKeys(old(didPublishMessage.listeners))
      ensures CalledOnce(calls)
      ensures forall c :: c in calls ==>
        c.subject == id && c.listener in old(didPublishMessage.listeners)
        && c.action == old(didPublishMessage.listeners)[c.listener].action
    {
      calls := didPublishMessage.Notify(id);
    }

    method DidPublishAck(id: UInt16) returns (calls: seq<Call<UInt16, A>>)
      modifies didPublishAck
      ensures didPublishAck.listeners == Live(old(didPublishAck.listeners))
      ensures forall k :: k in Targets(calls) <==> k in LiveKeys(old(didPublishAck.listeners))
      ensures CalledOnce(calls)
      ensures forall c :: c in calls ==>
        c.subject == id && c.listener in old(didPublishAck.listeners)
        && c.action == old(didPublishAck.listeners)[c.listener].action
    {
      calls := didPublishAck.Notify(id);
    }

    /** A received message: one line, the payload's text or its byte list. */
    method DidReceiveMessage(text: Option<string>, payload: seq<Byte>)
      requires Valid()
      modifies this`messages, this`nextUuid
      ensures Valid()
      ensures Entries(messages) == Entries(old(messages)) + [Entry(RenderPayload(text, payload), Incoming)]
      ensures messages[..|old(messages)|] == old(messages)
    {
      Log(RenderPayload(text, payload), Incoming);
    }

    /** `append(contentsOf:)`: the lines go to the end at once, each with a fresh identity. */
    method AppendAll(lines: seq<Entry>)
      requires Valid()
      modifies this`messages, this`nextUuid
      ensures Valid()
      ensures Entries(messages) == Entries(old(messages)) + lines
      ensures messages[..|old(messages)|] == old(messages)
    {
      var stamped := Stamp(lines, nextUuid);
      StampedIdsFresh(messages, lines, nextUuid);
      EntriesAppend(messages, stamped);
      messages := messages + stamped;
      nextUuid := nextUuid + |lines|;
      assert messages[..|old(messages)|] == old(messages);
    }

    /** A `forEach` that logs one line per element, in order. */
    method LogEach(lines: seq<Entry>)
      requires Valid()
      modifies this`messages, this`nextUuid
      ensures Valid()
      ensures Entries(messages) == Entries(old(messages)) + lines
      ensures messages[..|old(messages)|] == old(messages)
    {
      var i := 0;
      while i < |lines|
        invariant 0 <= i <= |lines|
        invariant Valid()
        invariant Entries(messages) == Entries(old(messages)) + lines[..i]
        invariant messages[..|old(messages)|] == old(messages)
      {
        Log(lines[i].content, lines[i].level);
        assert lines[..i + 1] == lines[..i] + [lines[i]];
        i := i + 1;
      }
      assert lines[..|lines|] == lines;
    }

    /**
     * A subscribe result: the subscription list is refreshed, then one
     * success line per well-typed pair, then one error line per failed
     * topic in order.
     */
    method DidSubscribeTopics(success: seq<(AnyValue, AnyValue)>, failed: seq<string>, clientSubscriptions: seq<string>)
      requires Valid()
      modifies this`messages, this`nextUuid, this`subscriptions
      ensures Valid()
      ensures subscriptions == clientSubscriptions
      ensures Entries(messages) == Entries(old(messages)) + SuccessEntries(success) + FailureEntries(failed)
      ensures messages[..|old(messages)|] == old(messages)
    {
      subscriptions := clientSubscriptions;
      AppendAll(SuccessEntries(success));
      ghost var middle := messages;
      LogEach(FailureEntries(failed));
      assert messages[..|middle|] == middle;
      assert messages[..|old(messages)|] == middle[..|old(messages)|];
    }

    /** An unsubscribe result: the list is refreshed, then one warning line per topic in order. */
    method DidUnsubscribeTopics(topics: seq<string>, clientSubscriptions: seq<string>)
      requires Valid()
      modifies this`messages, this`nextUuid, this`subscriptions
      ensures Valid()
      ensures subscriptions == clientSubscriptions
      ensures Entries(messages) == Entries(old(messages)) + UnsubscribeEntries(topics)
      ensures messages[..|old(messages)|] == old(messages)
    {
      subscriptions := clientSubscriptions;
      LogEach(UnsubscribeEntries(topics));
    }

    /** A disconnect records the error's description when there is one, and only then. */
    method MqttDidDisconnect(err: Option<string>)
      modifies this`error
      ensures err.Some? ==> error == err
      ensures err.None? ==> error == old(error)
    {
      if err.Some? {
        error := err;
      }
    }
  }
}
