// The authenticated relay channel: hello, proof, content
// (frontend/remote/broker-client.js, handleSocketMessage and what it calls). A payload is
// handed on only inside an epoch: after a proof that echoes the latest hello, signed by the
// pinned key, and before the next hello or the relay leaving.

module RelayChannel {
  import opened Options
  import opened ContentNonce
  import opened ReplayWindow

  // A JSON field the code compares with `!==`, so absent, null and text stay apart.
  datatype Field = Missing | Null | Text(text: string)

  // Text fields the code only tests for truth: "" stands for every falsy value.
  datatype Payload = Payload(
    kind: string,
    target: Field,
    protocolSupported: bool,
    helloNonce: string,
    deviceId: Field,
    session: string,
    nonce: string,
    signature: string,
    body: string)

  datatype Peer = Peer(role: string, id: string)

  datatype Frame =
    | Welcome(protocolSupported: bool, peerId: string, peers: seq<Peer>)
    | Presence(peer: Peer, kind: string)
    | Message(from: Peer, payload: Payload)
    | Other

  datatype Signed = Signed(payload: Payload, fromPeerId: string, brokerRoomId: string, session: string, nonce: string)

  // What a socket was opened for. `verify` is verifyRelayContent, kept abstract.
  datatype Pinned = Pinned(
    relayPeerId: string,
    relayVerifyKey: string,
    brokerRoomId: string,
    verify: (string, string, Signed) -> bool)

  // 18 random bytes in hexadecimal.
  type HelloNonce = s: string | |s| == 36 witness "000000000000000000000000000000000000"

  // A frame arrives, with the randomness and the device id a hello would use.
  datatype Event = Arrives(frame: Frame, helloBytes: HelloNonce, deviceId: string)

  // The mutable half of a connection; "" is null.
  datatype Channel = Channel(
    socketPeerId: Field,
    session: string,
    helloNonce: string,
    helloDeviceId: string,
    window: Window)

  const OPENED := Channel(Null, "", "", "", FRESH)

  function PeerField(id: string): Field {
    if id == "" then Null else Text(id)
  }

  // sendRelayHello
  function Hello(c: Channel, e: Event): Channel {
    Channel(c.socketPeerId, "", e.helloBytes, e.deviceId, FRESH)
  }

  function SignedBy(pin: Pinned, from: Peer, payload: Payload): Signed {
    Signed(payload, from.id, pin.brokerRoomId, payload.session, payload.nonce)
  }

  predicate Verified(pin: Pinned, from: Peer, payload: Payload) {
    payload.nonce != "" && payload.signature != ""
    && pin.verify(pin.relayVerifyKey, payload.signature, SignedBy(pin, from, payload))
  }

  // From the pinned relay, to this socket, in a protocol it speaks, with a key to check it by.
  predicate Addressed(pin: Pinned, c: Channel, from: Peer, payload: Payload) {
    && from.role == "relay" && from.id == pin.relayPeerId
    && payload.target == c.socketPeerId
    && payload.protocolSupported
    && pin.relayVerifyKey != ""
  }

  // acceptRelayHelloProof accepts.
  predicate ProofHolds(pin: Pinned, c: Channel, from: Peer, payload: Payload) {
    && c.helloNonce != "" && payload.helloNonce == c.helloNonce
    && payload.deviceId == Text(c.helloDeviceId)
    && payload.session != ""
    && Verified(pin, from, payload)
    && Accepts(c.window, payload.nonce, payload.signature)
  }

  // acceptRelayContent accepts.
  predicate ContentHolds(pin: Pinned, c: Channel, from: Peer, payload: Payload) {
    && c.session != "" && payload.session == c.session
    && Verified(pin, from, payload)
    && Accepts(c.window, payload.nonce, payload.signature)
  }

  predicate ProofAccepted(pin: Pinned, c: Channel, e: Event) {
    e.frame.Message? && Addressed(pin, c, e.frame.from, e.frame.payload)
    && e.frame.payload.kind == "relay_hello_proof" && ProofHolds(pin, c, e.frame.from, e.frame.payload)
  }

  predicate ContentAccepted(pin: Pinned, c: Channel, e: Event) {
    e.frame.Message? && Addressed(pin, c, e.frame.from, e.frame.payload)
    && e.frame.payload.kind != "relay_hello_proof" && ContentHolds(pin, c, e.frame.from, e.frame.payload)
  }

  predicate RelayPresent(pin: Pinned, peers: seq<Peer>) {
    Peer("relay", pin.relayPeerId) in peers
  }

  predicate SendsHello(pin: Pinned, e: Event) {
    pin.relayVerifyKey != "" && match e.frame
      case Welcome(supported, _, peers) => supported && RelayPresent(pin, peers)
      case Presence(peer, kind) => peer == Peer("relay", pin.relayPeerId) && kind == "joined"
      case _ => false
  }

  predicate RelayLeft(pin: Pinned, e: Event) {
    e.frame.Presence? && e.frame.peer == Peer("relay", pin.relayPeerId) && e.frame.kind == "left"
  }

  function Remembering(c: Channel, payload: Payload): Channel {
    c.(window := Remember(c.window, payload.nonce, payload.signature))
  }

  function Step(pin: Pinned, c: Channel, e: Event): Channel {
    var joined :=
      if e.frame.Welcome? && e.frame.protocolSupported then c.(socketPeerId := PeerField(e.frame.peerId)) else c;
    if SendsHello(pin, e) then Hello(joined, e)
    else if RelayLeft(pin, e) then joined.(session := "", helloNonce := "")
    else if ProofAccepted(pin, c, e) then Remembering(c, e.frame.payload).(session := e.frame.payload.session)
    else if ContentAccepted(pin, c, e) then Remembering(c, e.frame.payload)
    else joined
  }

  function Run(pin: Pinned, events: seq<Event>): Channel {
    if events == [] then OPENED else Step(pin, Run(pin, events[..|events| - 1]), events[|events| - 1])
  }

  function Before(pin: Pinned, events: seq<Event>, i: nat): Channel
    requires i <= |events|
  {
    Run(pin, events[..i])
  }

  // onBrokerPayload is called with event i's payload.
  predicate Delivered(pin: Pinned, events: seq<Event>, i: nat)
    requires i < |events|
  {
    ContentAccepted(pin, Before(pin, events, i), events[i])
  }

  predicate Proved(pin: Pinned, events: seq<Event>, j: nat)
    requires j < |events|
  {
    ProofAccepted(pin, Before(pin, events, j), events[j])
  }

  predicate Resets(pin: Pinned, e: Event) {
    SendsHello(pin, e) || RelayLeft(pin, e)
  }

  lemma StepBefore(pin: Pinned, events: seq<Event>, i: nat)
    requires i < |events|
    ensures Before(pin, events, i + 1) == Step(pin, Before(pin, events, i), events[i])
  {
    assert events[..i + 1][..i] == events[..i];
  }

  // ----- Epochs ------------------------------------------------------------------------

  // A channel that waits for a proof, or has one, is past a hello with no reset since.
  lemma {:induction false} LatestHello(pin: Pinned, events: seq<Event>, n: nat) returns (h: nat)
    requires n <= |events| && Before(pin, events, n).helloNonce != ""
    ensures h < n && SendsHello(pin, events[h])
    ensures Before(pin, events, n).helloNonce == events[h].helloBytes
    ensures Before(pin, events, n).helloDeviceId == events[h].deviceId
    ensures forall k :: h < k < n ==> !Resets(pin, events[k])
  {
    StepBefore(pin, events, n - 1);
    if SendsHello(pin, events[n - 1]) {
      h := n - 1;
    } else {
      h := LatestHello(pin, events, n - 1);
    }
  }

  // An open channel is past an accepted proof, with no reset and no later proof since.
  lemma {:induction false} LatestProof(pin: Pinned, events: seq<Event>, n: nat) returns (j: nat)
    requires n <= |events| && Before(pin, events, n).session != ""
    ensures j < n && Proved(pin, events, j)
    ensures Before(pin, events, n).session == events[j].frame.payload.session
    ensures forall k :: j < k < n ==> !Resets(pin, events[k]) && !Proved(pin, events, k)
  {
    StepBefore(pin, events, n - 1);
    if Proved(pin, events, n - 1) {
      j := n - 1;
    } else {
      j := LatestProof(pin, events, n - 1);
    }
  }

  // Every payload handed on came from the pinned relay, to this socket, signed under the
  // pinned key, in the session of the latest accepted proof; that proof echoed the latest
  // hello and was signed too, and nothing has reset the channel since.
  lemma DeliveryIsInsideAnEpoch(pin: Pinned, events: seq<Event>, i: nat) returns (h: nat, j: nat)
    requires i < |events| && Delivered(pin, events, i)
    ensures h < j < i
    ensures SendsHello(pin, events[h]) && Proved(pin, events, j)
    ensures forall k :: h < k <= i ==> !Resets(pin, events[k])
    ensures forall k :: j < k < i ==> !Proved(pin, events, k)
    ensures var proof, payload := events[j].frame.payload, events[i].frame.payload;
      && events[j].frame.from == Peer("relay", pin.relayPeerId)
      && events[i].frame.from == Peer("relay", pin.relayPeerId)
      && payload.target == Before(pin, events, i).socketPeerId
      && proof.helloNonce == events[h].helloBytes && proof.deviceId == Text(events[h].deviceId)
      && payload.session == proof.session
      && Verified(pin, events[j].frame.from, proof)
      && Verified(pin, events[i].frame.from, payload)
  {
    j := LatestProof(pin, events, i);
    h := LatestHello(pin, events, j);
  }

  // Between a reset and the next accepted proof nothing is handed on.
  lemma SilentUntilProved(pin: Pinned, events: seq<Event>, h: nat, i: nat)
    requires h < i < |events| && Resets(pin, events[h])
    requires forall k :: h < k < i ==> !Proved(pin, events, k)
    ensures !Delivered(pin, events, i)
  {
    if Delivered(pin, events, i) {
      var j := LatestProof(pin, events, i);
    }
  }

  // ----- Replays -----------------------------------------------------------------------

  predicate Accepted(pin: Pinned, events: seq<Event>, i: nat)
    requires i < |events|
  {
    Proved(pin, events, i) || Delivered(pin, events, i)
  }

  // What was accepted with a signature is known by it, or has left the window.
  predicate Knows(w: Window, n: nat, signature: string) {
    n <= w.high - CONTENT_REPLAY_WINDOW || (n in w.seen && w.seen[n] == signature)
  }

  lemma RememberKnows(w: Window, nonce: string, signature: string)
    requires Accepts(w, nonce, signature) && signature != ""
    ensures Knows(Remember(w, nonce, signature), ContentSequence(nonce).value, signature)
  {
  }

  lemma StepKeepsKnowing(pin: Pinned, c: Channel, e: Event, n: nat, signature: string)
    requires Knows(c.window, n, signature) && signature != "" && !SendsHello(pin, e)
    ensures Knows(Step(pin, c, e).window, n, signature)
  {
  }

  lemma {:induction false} StaysKnown(pin: Pinned, events: seq<Event>, i: nat, j: nat, n: nat, signature: string)
    requires i < j <= |events| && Accepted(pin, events, i)
    requires ContentSequence(events[i].frame.payload.nonce) == Some(n) && events[i].frame.payload.signature == signature
    requires forall k :: i < k < j ==> !SendsHello(pin, events[k])
    ensures Knows(Before(pin, events, j).window, n, signature)
  {
    StepBefore(pin, events, j - 1);
    if i < j - 1 {
      StaysKnown(pin, events, i, j - 1, n, signature);
      StepKeepsKnowing(pin, Before(pin, events, j - 1), events[j - 1], n, signature);
    } else {
      RememberKnows(Before(pin, events, i).window, events[i].frame.payload.nonce, signature);
    }
  }

  // Between two hellos no sequence number is accepted under two signatures, proofs and
  // content counted together; the relay leaving does not forget what was accepted.
  lemma OneSignaturePerEpoch(pin: Pinned, events: seq<Event>, i: nat, j: nat)
    requires i < j < |events| && Accepted(pin, events, i) && Accepted(pin, events, j)
    requires forall k :: i < k < j ==> !SendsHello(pin, events[k])
    requires events[i].frame.payload.nonce == events[j].frame.payload.nonce
    ensures events[i].frame.payload.signature == events[j].frame.payload.signature
  {
    StaysKnown(pin, events, i, j,
      ContentSequence(events[i].frame.payload.nonce).value, events[i].frame.payload.signature);
  }

  // The window is no deduplicator: a delivered frame that arrives again at once is delivered again.
  lemma ExactReplayIsDeliveredAgain(pin: Pinned, events: seq<Event>)
    requires events != [] && Delivered(pin, events, |events| - 1)
    ensures Delivered(pin, events + [events[|events| - 1]], |events|)
  {
  }

  // ----- The connection object ---------------------------------------------------------

  class Connection {
    const pin: Pinned
    var socketPeerId: Field
    var relayContentSession: string
    var helloNonce: string
    var helloDeviceId: string
    var contentHighSeq: nat
    var seenContentSeqs: map<nat, string>
    // Payloads handed to onBrokerPayload, in order.
    var delivered: seq<Payload>

    function View(): Channel
      reads this
    {
      Channel(socketPeerId, relayContentSession, helloNonce, helloDeviceId, Window(contentHighSeq, seenContentSeqs))
    }

    constructor (pin: Pinned)
      ensures this.pin == pin && View() == OPENED && delivered == []
    {
      this.pin := pin;
      socketPeerId, relayContentSession, helloNonce, helloDeviceId := Null, "", "", "";
      contentHighSeq, seenContentSeqs, delivered := 0, map[], [];
    }

    method HandleSocketMessage(e: Event)
      modifies this
      ensures View() == Step(pin, old(View()), e)
      ensures delivered == old(delivered)
        + (if ContentAccepted(pin, old(View()), e) then [e.frame.payload] else [])
    {
      match e.frame
      case Welcome(supported, peerId, peers) =>
        if supported {
          socketPeerId := if peerId == "" then Null else Text(peerId);
          if pin.relayVerifyKey != "" && Peer("relay", pin.relayPeerId) in peers {
            SendRelayHello(e);
          }
        }
      case Presence(peer, kind) =>
        if peer == Peer("relay", pin.relayPeerId) {
          if kind == "left" {
            relayContentSession, helloNonce := "", "";
          } else if kind == "joined" && pin.relayVerifyKey != "" {
            SendRelayHello(e);
          }
        }
      case Message(from, payload) =>
        HandlePayload(from, payload, e);
      case Other =>
    }

    method SendRelayHello(e: Event)
      modifies this
      ensures View() == Hello(old(View()), e) && delivered == old(delivered)
    {
      helloNonce, relayContentSession := e.helloBytes, "";
      contentHighSeq, seenContentSeqs := 0, map[];
      helloDeviceId := e.deviceId;
    }

    method HandlePayload(from: Peer, payload: Payload, ghost e: Event)
      requires e.frame == Message(from, payload)
      modifies this
      ensures View() == Step(pin, old(View()), e)
      ensures delivered == old(delivered)
        + (if ContentAccepted(pin, old(View()), e) then [payload] else [])
    {
      if from.role != "relay" || from.id != pin.relayPeerId { return; }
      if payload.target != socketPeerId || !payload.protocolSupported || pin.relayVerifyKey == "" { return; }
      if payload.kind == "relay_hello_proof" {
        AcceptRelayHelloProof(from, payload);
        return;
      }
      if relayContentSession == "" { return; }
      var accepted := AcceptRelayContent(from, payload);
      if accepted {
        delivered := delivered + [payload];
      }
    }

    method AcceptRelayHelloProof(from: Peer, payload: Payload)
      modifies this
      ensures delivered == old(delivered)
      ensures View() == if ProofHolds(pin, old(View()), from, payload)
        then Remembering(old(View()), payload).(session := payload.session) else old(View())
    {
      if helloNonce == "" || payload.helloNonce != helloNonce { return; }
      if payload.deviceId != Text(helloDeviceId) { return; }
      if payload.session == "" || payload.nonce == "" || payload.signature == "" { return; }
      var signed := Signed(payload, from.id, pin.brokerRoomId, payload.session, payload.nonce);
      if !pin.verify(pin.relayVerifyKey, payload.signature, signed) { return; }
      var accepted := RememberContentNonce(payload.nonce, payload.signature);
      if accepted {
        relayContentSession := payload.session;
      }
    }

    method AcceptRelayContent(from: Peer, payload: Payload) returns (accepted: bool)
      requires relayContentSession != ""
      modifies this
      ensures delivered == old(delivered)
      ensures accepted <==> ContentHolds(pin, old(View()), from, payload)
      ensures View() == if accepted then Remembering(old(View()), payload) else old(View())
    {
      if payload.session != relayContentSession { return false; }
      if payload.nonce == "" || payload.signature == "" { return false; }
      var signed := Signed(payload, from.id, pin.brokerRoomId, payload.session, payload.nonce);
      if !pin.verify(pin.relayVerifyKey, payload.signature, signed) { return false; }
      accepted := RememberContentNonce(payload.nonce, payload.signature);
    }

    method RememberContentNonce(nonce: string, signature: string) returns (accepted: bool)
      modifies this`contentHighSeq, this`seenContentSeqs
      ensures accepted <==> Accepts(old(View()).window, nonce, signature)
      ensures View() == old(View()).(window := Remember(old(View()).window, nonce, signature))
    {
      var sequence := ContentSequence(nonce);
      if sequence.None? { return false; }
      var n := sequence.value;
      if n <= contentHighSeq - CONTENT_REPLAY_WINDOW { return false; }
      if n in seenContentSeqs && seenContentSeqs[n] != "" {
        return seenContentSeqs[n] == signature;
      }
      seenContentSeqs := seenContentSeqs[n := signature];
      if n > contentHighSeq {
        contentHighSeq := n;
      }
      DropUpTo(contentHighSeq - CONTENT_REPLAY_WINDOW);
      accepted := true;
    }

    method DropUpTo(floor: int)
      modifies this`seenContentSeqs
      ensures seenContentSeqs == Prune(old(seenContentSeqs), floor)
    {
      var keys := seenContentSeqs.Keys;
      while keys != {}
        invariant keys <= old(seenContentSeqs).Keys
        invariant forall k :: k in seenContentSeqs <==> k in old(seenContentSeqs) && (k in keys || k > floor)
        invariant forall k :: k in seenContentSeqs ==> seenContentSeqs[k] == old(seenContentSeqs)[k]
      {
        var k :| k in keys;
        keys := keys - {k};
        if k <= floor {
          seenContentSeqs := seenContentSeqs - {k};
        }
      }
    }
  }
}
