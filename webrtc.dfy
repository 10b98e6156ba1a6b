/**
 * Per-client peer session negotiation of the `useWebRTC` hook: the
 * tie-break election on `ready`, the ICE candidate queue, the one-shot
 * offer/answer guard and the card messages on the data channel.
 *
 * Each signaling handler is one atomic method of `Negotiator`; the browser
 * transport (SDP creation, ICE gathering, media) is reduced to opaque values
 * handed to the handlers.
 */
module WebRTC {
  import opened Wrappers

  /** An opaque session description (offer or answer). */
  type Sdp = string

  /** An opaque connectivity candidate. */
  datatype Candidate = Candidate(payload: string)

  /** Broadcast events on the room's signaling topic `room:<roomId>`. */
  datatype Signal =
    | Ready(clientId: string, username: string)
    | Offer(offer: Sdp, username: string)
    | Answer(answer: Sdp, username: string)
    | IceCandidate(candidate: Candidate)

  /** `RTCDataChannel.readyState`. */
  datatype ReadyState = Connecting | Open | Closing | Closed

  datatype DataChannel = DataChannel(channelLabel: string, readyState: ReadyState)

  /** The declared-card object carried by a `card-declared` message (opaque JSON). */
  datatype Card = Card(name: string, details: string)

  /**
   * A data-channel message as seen after `JSON.parse`: `Unparseable` when
   * parsing throws, otherwise its `type` and `data` members (absent = None).
   */
  datatype Frame = Unparseable | Parsed(kind: Option<string>, data: Option<Card>)

  const CARD_DECLARED := "card-declared"
  const GAME_EVENTS := "game-events"

  /** The frame `sendCard` writes: `{type: 'card-declared', data}`. */
  function CardFrame(card: Card): Frame
  {
    Parsed(Some(CARD_DECLARED), Some(card))
  }

  /**
   * JavaScript's `<` on strings: lexicographic order on character codes,
   * where a proper prefix is smaller.
   */
  function Less(a: string, b: string): (r: bool)
    ensures |a| < |b| && a == b[..|a|] ==> r
    ensures r ==> a != b
  {
    if |a| == 0 then |b| > 0
    else if |b| == 0 then false
    else if a[0] != b[0] then a[0] < b[0]
    else Less(a[1..], b[1..])
  }

  lemma {:induction false} LessAsymmetric(a: string, b: string)
    ensures !(Less(a, b) && Less(b, a))
  {
    if |a| > 0 && |b| > 0 && a[0] == b[0] {
      LessAsymmetric(a[1..], b[1..]);
    }
  }

  lemma {:induction false} LessTotal(a: string, b: string)
    ensures a == b || Less(a, b) || Less(b, a)
  {
    if |a| > 0 && |b| > 0 && a[0] == b[0] {
      LessTotal(a[1..], b[1..]);
      if a[1..] == b[1..] {
        assert a == [a[0]] + a[1..] && b == [b[0]] + b[1..];
      }
    }
  }

  lemma {:induction false} LessTransitive(a: string, b: string, c: string)
    requires Less(a, b) && Less(b, c)
    ensures Less(a, c)
  {
    if |a| > 0 && a[0] == b[0] && b[0] == c[0] {
      LessTransitive(a[1..], b[1..], c[1..]);
    }
  }

  /** What the `ready` handler does, given whether a remote description is set. */
  datatype ReadyAction = BecomeOfferer | Reannounce | Ignore

  function ReadyActionFor(hasRemote: bool, myId: string, theirId: string): (r: ReadyAction)
    ensures r == BecomeOfferer <==> !hasRemote && Less(myId, theirId)
    ensures r == Reannounce <==> !hasRemote && Less(theirId, myId)
    ensures r == Ignore <==> hasRemote || myId == theirId
  {
    LessAsymmetric(myId, theirId);
    LessTotal(myId, theirId);
    if !hasRemote && Less(myId, theirId) then BecomeOfferer
    else if !hasRemote && Less(theirId, myId) then Reannounce
    else Ignore
  }

  /**
   * Of two clients with distinct ids that both still lack a remote
   * description, exactly one becomes the offerer on the other's `ready`,
   * and the other re-announces.
   */
  lemma ExactlyOneOfferer(a: string, b: string)
    requires a != b
    ensures (ReadyActionFor(false, a, b) == BecomeOfferer) != (ReadyActionFor(false, b, a) == BecomeOfferer)
    ensures ReadyActionFor(false, a, b) == BecomeOfferer ==> ReadyActionFor(false, b, a) == Reannounce
    ensures ReadyActionFor(false, b, a) == BecomeOfferer ==> ReadyActionFor(false, a, b) == Reannounce
  {
  }

  /** The number of `offer` broadcasts in a signaling log. */
  function CountOffers(log: seq<Signal>): nat
  {
    if log == [] then 0
    else CountOffers(log[..|log| - 1]) + (if log[|log| - 1].Offer? then 1 else 0)
  }

  lemma CountOffersAppend(log: seq<Signal>, s: Signal)
    ensures CountOffers(log + [s]) == CountOffers(log) + (if s.Offer? then 1 else 0)
  {
    assert (log + [s])[..|log|] == log;
  }

  /** The `latestReceivedCard` after one data-channel message. */
  function Receive(latest: Option<Card>, f: Frame): (r: Option<Card>)
    ensures f == Unparseable ==> r == latest
    ensures f.Parsed? && f.kind != Some(CARD_DECLARED) ==> r == latest
  {
    if f.Parsed? && f.kind == Some(CARD_DECLARED) then f.data else latest
  }

  lemma CardFrameRoundTrip(latest: Option<Card>, card: Card)
    ensures Receive(latest, CardFrame(card)) == Some(card)
  {
  }

  class Negotiator {
    /** `clientId.current`, a random base-36 token fixed for the session. */
    const clientId: string
    /** The local display name sent with `ready`, `offer` and `answer`. */
    const username: string

    var remoteDescription: Option<Sdp>
    var localDescription: Option<Sdp>
    var remoteUsername: Option<string>
    /** `iceCandidatesQueue.current`: candidates received before a remote description. */
    var queue: seq<Candidate>
    /** Candidates handed to `addIceCandidate`, in order. */
    var applied: seq<Candidate>
    /** Every broadcast sent on the signaling topic, in order. */
    var outbox: seq<Signal>
    /** `dataChannel.current`. */
    var dataChannel: Option<DataChannel>
    /** How many times this client called `createDataChannel`. */
    var channelsCreated: nat
    /** Every frame written to the data channel, in order. */
    var sent: seq<Frame>
    var latestReceivedCard: Option<Card>

    /**
     * Once a remote description is set the queue has been drained and is
     * bypassed; every created data channel goes with exactly one offer.
     */
    ghost predicate Valid()
      reads this
    {
      && (remoteDescription.Some? ==> queue == [])
      && channelsCreated == CountOffers(outbox)
      && (channelsCreated > 0 ==> dataChannel.Some?)
    }

    constructor (clientId: string, username: string)
      ensures this.clientId == clientId && this.username == username
      ensures remoteDescription == None && localDescription == None && remoteUsername == None
      ensures queue == [] && applied == [] && outbox == [] && sent == []
      ensures dataChannel == None && channelsCreated == 0 && latestReceivedCard == None
      ensures Valid()
    {
      this.clientId := clientId;
      this.username := username;
      remoteDescription, localDescription, remoteUsername := None, None, None;
      queue, applied, outbox, sent := [], [], [], [];
      dataChannel, channelsCreated, latestReceivedCard := None, 0, None;
    }

    /** Appends one broadcast to the signaling log. */
    method Broadcast(s: Signal)
      requires Valid()
      requires !s.Offer?
      modifies this`outbox
      ensures outbox == old(outbox) + [s]
      ensures Valid()
    {
      CountOffersAppend(outbox, s);
      outbox := outbox + [s];
    }

    /** The subscribe callback: announce `ready` once the topic is joined. */
    method OnSubscribe(status: string)
      requires Valid()
      modifies this`outbox
      ensures Valid()
      ensures outbox == if status == "SUBSCRIBED" then old(outbox) + [Ready(clientId, username)] else old(outbox)
    {
      if status == "SUBSCRIBED" {
        Broadcast(Ready(clientId, username));
      }
    }

    /** `pc.onicecandidate`: a locally gathered candidate is broadcast at once. */
    method OnLocalCandidate(candidate: Option<Candidate>)
      requires Valid()
      modifies this`outbox
      ensures Valid()
      ensures outbox == if candidate.Some? then old(outbox) + [IceCandidate(candidate.value)] else old(outbox)
    {
      if candidate.Some? {
        Broadcast(IceCandidate(candidate.value));
      }
    }

    /** The `ice-candidate` handler: apply directly, or queue until a remote description exists. */
    method OnIceCandidate(candidate: Candidate)
      requires Valid()
      modifies this`queue, this`applied
      ensures Valid()
      ensures remoteDescription.Some? ==> applied == old(applied) + [candidate] && queue == old(queue)
      ensures remoteDescription.None? ==> queue == old(queue) + [candidate] && applied == old(applied)
    {
      if remoteDescription.Some? {
        applied := applied + [candidate];
      } else {
        queue := queue + [candidate];
      }
    }

    /** The `while`/`shift` loop: hand every queued candidate over, oldest first. */
    method DrainQueue()
      modifies this`queue, this`applied
      ensures applied == old(applied) + old(queue) && queue == []
    {
      while |queue| > 0
        invariant applied + queue == old(applied) + old(queue)
        decreases |queue|
      {
        var c := queue[0];
        assert queue == [c] + queue[1..];
        queue := queue[1..];
        applied := applied + [c];
      }
    }

    /**
     * The `offer` handler. `answer` is the description `createAnswer`
     * produces; it is used only when the offer is the first description.
     */
    method OnOffer(offer: Sdp, remoteName: string, answer: Sdp)
      requires Valid()
      modifies this`remoteUsername, this`remoteDescription, this`localDescription
      modifies this`queue, this`applied, this`outbox
      ensures Valid()
      ensures remoteUsername == if remoteName != "" then Some(remoteName) else old(remoteUsername)
      ensures old(remoteDescription).Some? ==>
        && remoteDescription == old(remoteDescription) && localDescription == old(localDescription)
        && queue == old(queue) && applied == old(applied) && outbox == old(outbox)
      ensures old(remoteDescription).None? ==>
        && remoteDescription == Some(offer) && localDescription == Some(answer)
        && applied == old(applied) + old(queue) && queue == []
        && outbox == old(outbox) + [Answer(answer, username)]
    {
      if remoteName != "" {
        remoteUsername := Some(remoteName);
      }
      if remoteDescription.None? {
        remoteDescription := Some(offer);
        DrainQueue();
        localDescription := Some(answer);
        Broadcast(Answer(answer, username));
      }
    }

    /** The `answer` handler. */
    method OnAnswer(answer: Sdp, remoteName: string)
      requires Valid()
      modifies this`remoteUsername, this`remoteDescription, this`queue, this`applied
      ensures Valid()
      ensures remoteUsername == if remoteName != "" then Some(remoteName) else old(remoteUsername)
      ensures old(remoteDescription).Some? ==>
        remoteDescription == old(remoteDescription) && queue == old(queue) && applied == old(applied)
      ensures old(remoteDescription).None? ==>
        remoteDescription == Some(answer) && applied == old(applied) + old(queue) && queue == []
    {
      if remoteName != "" {
        remoteUsername := Some(remoteName);
      }
      if remoteDescription.None? {
        remoteDescription := Some(answer);
        DrainQueue();
      }
    }

    /**
     * The `ready` handler. `offer` is the description `createOffer` produces;
     * it is used only on the offerer branch.
     */
    method OnReady(theirId: string, remoteName: string, offer: Sdp)
      requires Valid()
      modifies this`remoteUsername, this`dataChannel, this`channelsCreated
      modifies this`localDescription, this`outbox
      ensures Valid()
      ensures remoteUsername == if remoteName != "" then Some(remoteName) else old(remoteUsername)
      ensures ReadyActionFor(remoteDescription.Some?, clientId, theirId) == BecomeOfferer ==>
        && dataChannel == Some(DataChannel(GAME_EVENTS, Connecting))
        && channelsCreated == old(channelsCreated) + 1
        && localDescription == Some(offer)
        && outbox == old(outbox) + [Offer(offer, username)]
      ensures ReadyActionFor(remoteDescription.Some?, clientId, theirId) == Reannounce ==>
        && dataChannel == old(dataChannel) && channelsCreated == old(channelsCreated)
        && localDescription == old(localDescription)
        && outbox == old(outbox) + [Ready(clientId, username)]
      ensures ReadyActionFor(remoteDescription.Some?, clientId, theirId) == Ignore ==>
        && dataChannel == old(dataChannel) && channelsCreated == old(channelsCreated)
        && localDescription == old(localDescription) && outbox == old(outbox)
    {
      if remoteName != "" {
        remoteUsername := Some(remoteName);
      }
      var action := ReadyActionFor(remoteDescription.Some?, clientId, theirId);
      if action == BecomeOfferer {
        CountOffersAppend(outbox, Offer(offer, username));
        dataChannel := Some(DataChannel(GAME_EVENTS, Connecting));
        channelsCreated := channelsCreated + 1;
        localDescription := Some(offer);
        outbox := outbox + [Offer(offer, username)];
      } else if action == Reannounce {
        Broadcast(Ready(clientId, username));
      }
    }

    /** `pc.ondatachannel`: the answerer stores the channel the offerer created. */
    method OnDataChannel(incoming: DataChannel)
      requires Valid()
      modifies this`dataChannel
      ensures Valid()
      ensures dataChannel == Some(incoming)
    {
      dataChannel := Some(incoming);
    }

    /** The transport moves the current channel's `readyState` (e.g. `onopen`). */
    method OnChannelState(state: ReadyState)
      requires Valid()
      modifies this`dataChannel
      ensures Valid()
      ensures dataChannel == if old(dataChannel).Some? then Some(old(dataChannel).value.(readyState := state)) else None
    {
      if dataChannel.Some? {
        dataChannel := Some(dataChannel.value.(readyState := state));
      }
    }

    /** `sendCard`: write a `card-declared` frame only on an open channel; no other transport. */
    method SendCard(card: Card)
      requires Valid()
      modifies this`sent
      ensures Valid()
      ensures dataChannel.Some? && dataChannel.value.readyState == Open ==> sent == old(sent) + [CardFrame(card)]
      ensures !(dataChannel.Some? && dataChannel.value.readyState == Open) ==> sent == old(sent)
    {
      if dataChannel.Some? && dataChannel.value.readyState == Open {
        sent := sent + [CardFrame(card)];
      }
    }

    /** `onmessage` on either side's channel. */
    method OnDataMessage(f: Frame)
      requires Valid()
      modifies this`latestReceivedCard
      ensures Valid()
      ensures latestReceivedCard == Receive(old(latestReceivedCard), f)
    {
      if f.Parsed? && f.kind == Some(CARD_DECLARED) {
        latestReceivedCard := f.data;
      }
    }
  }

  /** The two scenario ids are ordered `a1` < `b2`. */
  lemma ScenarioIdsOrdered()
    ensures Less("a1", "b2") && !Less("b2", "a1")
  {
    assert "a1"[0] == 'a' && "b2"[0] == 'b';
    LessAsymmetric("a1", "b2");
  }

  /** A client opens its session and, once subscribed, announces itself. */
  method Join(clientId: string, username: string) returns (n: Negotiator)
    ensures fresh(n) && n.Valid()
    ensures n.clientId == clientId && n.username == username
    ensures n.remoteDescription == None && n.remoteUsername == None
    ensures n.queue == [] && n.applied == [] && n.outbox == [Ready(clientId, username)]
    ensures n.dataChannel == None && n.channelsCreated == 0
  {
    n := new Negotiator(clientId, username);
    n.OnSubscribe("SUBSCRIBED");
  }

  /**
   * Both clients join the room, `b2` first. Its subscribe-time `ready` goes
   * out while `a1` is not yet listening; then `a1` subscribes and announces,
   * and `b2`, the larger id, hears that `ready` and re-announces.
   */
  method Meet() returns (a: Negotiator, b: Negotiator)
    ensures fresh(a) && fresh(b) && a != b && a.Valid() && b.Valid()
    ensures a.clientId == "a1" && a.username == "Yugi" && b.clientId == "b2" && b.username == "Kaiba"
    ensures a.channelsCreated == 0 && b.channelsCreated == 0
    ensures a.remoteDescription == None && b.remoteDescription == None
    ensures a.dataChannel == None && b.dataChannel == None
    ensures b.queue == [] && b.applied == []
    ensures a.remoteUsername == None && b.remoteUsername == Some("Yugi")
    ensures a.outbox == [Ready("a1", "Yugi")]
    ensures b.outbox == [Ready("b2", "Kaiba"), Ready("b2", "Kaiba")]
  {
    b := Join("b2", "Kaiba");
    a := Join("a1", "Yugi");
    ScenarioIdsOrdered();
    assert ReadyActionFor(b.remoteDescription.Some?, "b2", "a1") == Reannounce;
    b.OnReady("a1", "Yugi", "unused-sdp");
    assert b.outbox == [Ready("b2", "Kaiba")] + [Ready("b2", "Kaiba")];
  }

  /**
   * `a1` hears `b2`'s re-announced `ready`; as the smaller id it creates the
   * channel and broadcasts the offer, then the candidate its connection
   * gathers.
   */
  method Announce() returns (a: Negotiator, b: Negotiator)
    ensures fresh(a) && fresh(b) && a != b && a.Valid() && b.Valid()
    ensures a.clientId == "a1" && a.username == "Yugi" && b.clientId == "b2" && b.username == "Kaiba"
    ensures a.channelsCreated == 1 && b.channelsCreated == 0
    ensures a.remoteDescription == None && b.remoteDescription == None
    ensures a.dataChannel == Some(DataChannel(GAME_EVENTS, Connecting)) && b.dataChannel == None
    ensures a.outbox == [Ready("a1", "Yugi"), Offer("offer-sdp", "Yugi"), IceCandidate(Candidate("a-host"))]
    ensures b.outbox == [Ready("b2", "Kaiba"), Ready("b2", "Kaiba")]
    ensures b.queue == [] && b.applied == []
    ensures a.remoteUsername == Some("Kaiba") && b.remoteUsername == Some("Yugi")
  {
    a, b := Meet();
    ScenarioIdsOrdered();
    assert ReadyActionFor(a.remoteDescription.Some?, "a1", "b2") == BecomeOfferer;
    a.OnReady("b2", "Kaiba", "offer-sdp");
    assert a.outbox == [Ready("a1", "Yugi"), Offer("offer-sdp", "Yugi")];
    a.OnLocalCandidate(Some(Candidate("a-host")));
  }

  /**
   * `b2` handles the offer and the candidate `a1` broadcast, the candidate
   * first: it arrives while the offer handler still awaits
   * `setRemoteDescription`, so it finds no remote description and is
   * queued. `a1` then applies the answer `b2` broadcasts.
   */
  method Exchange(a: Negotiator, b: Negotiator)
    requires a != b && a.Valid() && b.Valid()
    requires a.remoteDescription == None && b.remoteDescription == None
    requires b.queue == [] && b.applied == [] && a.username == "Yugi" && b.username == "Kaiba"
    requires Offer("offer-sdp", "Yugi") in a.outbox && IceCandidate(Candidate("a-host")) in a.outbox
    modifies a, b
    ensures a.Valid() && b.Valid()
    ensures a.remoteDescription == Some("answer-sdp") && b.remoteDescription == Some("offer-sdp")
    ensures a.channelsCreated == old(a.channelsCreated) && b.channelsCreated == old(b.channelsCreated)
    ensures a.dataChannel == old(a.dataChannel) && b.dataChannel == old(b.dataChannel)
    ensures b.applied == [Candidate("a-host")] && b.queue == []
    ensures b.outbox == old(b.outbox) + [Answer("answer-sdp", "Kaiba")] && a.outbox == old(a.outbox)
  {
    b.OnIceCandidate(Candidate("a-host"));
    b.OnOffer("offer-sdp", "Yugi", "answer-sdp");
    a.OnAnswer("answer-sdp", "Kaiba");
  }

  /**
   * Two clients `a1` and `b2` meet in a room, `b2` subscribing first: `a1`
   * (the smaller id) creates the only data channel and offers, `b2`
   * answers, the candidate `a1` sent is applied after the description, and
   * a declared card crosses the channel. Every signal handled is one the
   * other side broadcast.
   */
  method Handshake(card: Card) returns (a: Negotiator, b: Negotiator)
    ensures a.channelsCreated == 1 && b.channelsCreated == 0
    ensures a.remoteDescription == Some("answer-sdp") && b.remoteDescription == Some("offer-sdp")
    ensures b.applied == [Candidate("a-host")] && b.queue == []
    ensures a.outbox == [Ready("a1", "Yugi"), Offer("offer-sdp", "Yugi"), IceCandidate(Candidate("a-host"))]
    ensures b.outbox == [Ready("b2", "Kaiba"), Ready("b2", "Kaiba"), Answer("answer-sdp", "Kaiba")]
    ensures b.latestReceivedCard == Some(card)
  {
    a, b := Announce();
    Exchange(a, b);
    b.OnDataChannel(DataChannel(GAME_EVENTS, Open));
    a.OnChannelState(Open);
    a.SendCard(card);
    b.OnDataMessage(a.sent[|a.sent| - 1]);
  }
}
