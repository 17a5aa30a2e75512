/**
 * The WebSocket channel of the server: the set of connected sockets, and
 * the `message` handler that answers `chat_message` frames to their sender
 * and broadcasts stored `conversation_message` frames as `new_message` to
 * every open socket.
 */
module Realtime {
  import opened Js
  import Assistant

  /** A socket in the server's client set; `open` is `readyState === OPEN`. */
  datatype Connection = Connection(id: nat, open: bool)

  /** What the handler passes to `storage.createMessage`. */
  datatype Draft = Draft(
    conversationId: JsStr,
    senderId: JsStr,
    senderType: JsStr,
    content: JsStr,
    messageType: string,
    isRead: bool)

  /** A message as storage returns it: the draft under the id storage gave it. */
  datatype StoredMessage = StoredMessage(id: string, draft: Draft)

  /**
   * An inbound frame after `JSON.parse`.  `Unparseable` also covers frames
   * whose parse yields no object to read a `type` from; a `chat_message`
   * whose `query` is missing or not a string carries `None`.
   */
  datatype Frame =
    | Unparseable
    | ChatMessage(query: Option<string>)
    | ConversationMessage(conversationId: JsStr, senderId: JsStr, senderType: JsStr, content: JsStr)
    | OtherType(kind: string)

  datatype Event = ChatResponse(answer: string, timestamp: string) | NewMessage(stored: StoredMessage)

  /** One outbound frame, sent to the socket with id `to`. */
  datatype Delivery = Delivery(to: nat, event: Event)

  function DraftOf(frame: Frame): Draft
    requires frame.ConversationMessage?
  {
    Draft(frame.conversationId, frame.senderId, frame.senderType, frame.content, "text", false)
  }

  /** The deliveries of `event` to the open connections, in registration order. */
  function BroadcastTo(conns: seq<Connection>, event: Event): (r: seq<Delivery>)
    ensures |r| <= |conns|
    ensures forall k :: 0 <= k < |r| ==> r[k].event == event
  {
    if conns == [] then []
    else
      var last := conns[|conns| - 1];
      BroadcastTo(conns[..|conns| - 1], event) + (if last.open then [Delivery(last.id, event)] else [])
  }

  /**
   * What the `message` handler sends for one frame from socket `origin`,
   * given what the responder reads, the id storage gives a created message
   * (`None` when `createMessage` fails) and the clock's ISO text.  `ws.send`
   * on a socket that is no longer OPEN sends nothing, so the answer to a
   * `chat_message` reaches its sender only while that socket is open.
   */
  function Reactions(origin: nat, frame: Frame, conns: seq<Connection>, data: Assistant.Snapshot,
                     createdId: Option<string>, now: string): (r: seq<Delivery>)
    ensures forall d :: d in r ==> IsOpenIn(conns, d.to)
    ensures frame.Unparseable? || frame.OtherType? ==> r == []
    ensures frame.ChatMessage? ==> forall d :: d in r ==> d.to == origin
  {
    match frame
    case Unparseable => []
    case OtherType(_) => []
    case ChatMessage(query) =>
      if query.Some? && IsOpenIn(conns, origin) then [Delivery(origin, ChatResponse(Assistant.Respond(query.value, data), now))]
      else []
    case ConversationMessage(_, _, _, _) =>
      if createdId.None? then []
      else
        var event := NewMessage(StoredMessage(createdId.value, DraftOf(frame)));
        BroadcastOnlyToOpen(conns, event);
        BroadcastTo(conns, event)
  }

  /** The number of deliveries addressed to socket `id`. */
  function DeliveriesTo(ds: seq<Delivery>, id: nat): nat
  {
    if ds == [] then 0
    else DeliveriesTo(ds[..|ds| - 1], id) + (if ds[|ds| - 1].to == id then 1 else 0)
  }

  lemma {:induction false} DeliveriesToAppend(a: seq<Delivery>, b: seq<Delivery>, id: nat)
    ensures DeliveriesTo(a + b, id) == DeliveriesTo(a, id) + DeliveriesTo(b, id)
    decreases |b|
  {
    if b == [] {
      assert a + b == a;
    } else {
      DeliveriesToAppend(a, b[..|b| - 1], id);
      assert (a + b)[..|a + b| - 1] == a + b[..|b| - 1];
    }
  }

  predicate DistinctIds(conns: seq<Connection>)
  {
    forall i, j :: 0 <= i < j < |conns| ==> conns[i].id != conns[j].id
  }

  predicate IsOpenIn(conns: seq<Connection>, id: nat)
  {
    exists i :: 0 <= i < |conns| && conns[i].id == id && conns[i].open
  }

  /**
   * A socket is open in a list exactly when it is open in the list's front
   * part or is its open last entry; with distinct ids it is not both.
   */
  lemma OpenInSplit(conns: seq<Connection>, id: nat)
    requires conns != [] && DistinctIds(conns)
    ensures var init, last := conns[..|conns| - 1], conns[|conns| - 1];
      && (IsOpenIn(conns, id) <==> IsOpenIn(init, id) || (last.open && last.id == id))
      && (IsOpenIn(init, id) ==> last.id != id)
  {
    var init, last := conns[..|conns| - 1], conns[|conns| - 1];
    if IsOpenIn(conns, id) {
      var i :| 0 <= i < |conns| && conns[i].id == id && conns[i].open;
      if i < |init| {
        assert init[i] == conns[i];
      }
    }
    if IsOpenIn(init, id) {
      var i :| 0 <= i < |init| && init[i].id == id && init[i].open;
      assert conns[i] == init[i];
    }
  }

  /**
   * A broadcast reaches every open socket exactly once and every other
   * socket (closed, closing or not registered) not at all.
   */
  lemma {:induction false} BroadcastExactlyOnce(conns: seq<Connection>, event: Event, id: nat)
    requires DistinctIds(conns)
    ensures DeliveriesTo(BroadcastTo(conns, event), id) == if IsOpenIn(conns, id) then 1 else 0
  {
    if conns != [] {
      var init, last := conns[..|conns| - 1], conns[|conns| - 1];
      BroadcastExactlyOnce(init, event, id);
      var tail := if last.open then [Delivery(last.id, event)] else [];
      DeliveriesToAppend(BroadcastTo(init, event), tail, id);
      assert DeliveriesTo(tail, id) == if last.open && last.id == id then 1 else 0 by {
        assert tail != [] ==> tail[..0] == [];
      }
      OpenInSplit(conns, id);
    }
  }

  /** Every delivery of a broadcast carries the broadcast event to an open socket. */
  lemma {:induction false} BroadcastOnlyToOpen(conns: seq<Connection>, event: Event)
    ensures forall d :: d in BroadcastTo(conns, event) ==> d.event == event && IsOpenIn(conns, d.to)
  {
    if conns != [] {
      var init := conns[..|conns| - 1];
      BroadcastOnlyToOpen(init, event);
      forall d | d in BroadcastTo(conns, event) ensures d.event == event && IsOpenIn(conns, d.to) {
        if d in BroadcastTo(init, event) {
          var i :| 0 <= i < |init| && init[i].id == d.to && init[i].open;
          assert conns[i] == init[i];
        } else {
          assert conns[|conns| - 1].id == d.to;
        }
      }
    }
  }

  /** The connections other than socket `id`, in their order. */
  function Without(conns: seq<Connection>, id: nat): (r: seq<Connection>)
    ensures forall c :: c in r <==> c in conns && c.id != id
  {
    if conns == [] then []
    else
      var last := conns[|conns| - 1];
      Without(conns[..|conns| - 1], id) + (if last.id == id then [] else [last])
  }

  /** Removing a socket keeps the ids distinct. */
  lemma {:induction false} WithoutKeepsDistinct(conns: seq<Connection>, id: nat)
    requires DistinctIds(conns)
    ensures DistinctIds(Without(conns, id))
  {
    if conns != [] {
      var init, last := conns[..|conns| - 1], conns[|conns| - 1];
      WithoutKeepsDistinct(init, id);
      var w := Without(init, id);
      forall k | 0 <= k < |w| ensures w[k].id != last.id {
        assert w[k] in init;
        var x :| 0 <= x < |init| && init[x] == w[k];
        assert conns[x] == init[x];
      }
    }
  }

  /**
   * A `chat_message` with a query is answered once, to its sender only, and
   * only while the sender's socket is open.
   */
  lemma ChatAnsweredToSenderOnly(origin: nat, query: string, conns: seq<Connection>, data: Assistant.Snapshot,
                                 createdId: Option<string>, now: string)
    ensures var r := Reactions(origin, ChatMessage(Some(query)), conns, data, createdId, now);
      && |r| <= 1
      && (|r| == 1 <==> IsOpenIn(conns, origin))
      && forall d :: d in r ==> d.to == origin && d.event == ChatResponse(Assistant.Respond(query, data), now)
  {
  }

  /** Frames that do not parse, or carry another type, are swallowed: nothing is sent. */
  lemma BadFramesSwallowed(origin: nat, frame: Frame, conns: seq<Connection>, data: Assistant.Snapshot,
                           createdId: Option<string>, now: string)
    requires frame.Unparseable? || frame.OtherType? || frame == ChatMessage(None)
    ensures Reactions(origin, frame, conns, data, createdId, now) == []
  {
  }

  /**
   * The server's set of sockets and the frames it has sent.  `writes` lists
   * the drafts handed to `storage.createMessage`, in order.
   */
  class Channel {
    var connections: seq<Connection>
    var nextId: nat
    var outbox: seq<Delivery>
    var writes: seq<Draft>

    ghost predicate Valid()
      reads this
    {
      && DistinctIds(connections)
      && forall i :: 0 <= i < |connections| ==> connections[i].id < nextId
    }

    constructor ()
      ensures Valid()
      ensures connections == [] && outbox == [] && writes == []
    {
      connections, nextId, outbox, writes := [], 0, [], [];
    }

    /** A socket connects: it joins the set, open, under a fresh id. */
    method Connect() returns (id: nat)
      requires Valid()
      modifies this`connections, this`nextId
      ensures Valid()
      ensures connections == old(connections) + [Connection(id, true)]
      ensures forall i :: 0 <= i < |old(connections)| ==> old(connections)[i].id != id
    {
      id := nextId;
      connections := connections + [Connection(id, true)];
      nextId := nextId + 1;
    }

    /** A socket starts closing: it stays in the set but is no longer OPEN. */
    method BeginClose(id: nat)
      requires Valid()
      modifies this`connections
      ensures Valid()
      ensures |connections| == |old(connections)|
      ensures forall i :: 0 <= i < |connections| ==>
        connections[i] == if old(connections)[i].id == id then Connection(id, false) else old(connections)[i]
    {
      var cs := connections;
      connections := seq(|cs|, i requires 0 <= i < |cs| => if cs[i].id == id then Connection(id, false) else cs[i]);
      assert forall i :: 0 <= i < |cs| ==> connections[i].id == cs[i].id;
    }

    /**
     * A socket closes: the `ws` server's client tracking drops it from
     * `wss.clients` (the handler's own `close` listener only logs); the
     * others keep their order.
     */
    method Disconnect(id: nat)
      requires Valid()
      modifies this`connections
      ensures Valid()
      ensures connections == Without(old(connections), id)
    {
      var kept: seq<Connection> := [];
      var i := 0;
      while i < |connections|
        invariant 0 <= i <= |connections|
        invariant kept == Without(connections[..i], id)
      {
        assert connections[..i + 1][..i] == connections[..i];
        if connections[i].id != id {
          kept := kept + [connections[i]];
        }
        i := i + 1;
      }
      assert connections[..i] == connections;
      WithoutKeepsDistinct(connections, id);
      connections := kept;
    }

    /** The `message` handler for one frame received on socket `origin`. */
    method OnFrame(origin: nat, frame: Frame, data: Assistant.Snapshot, createdId: Option<string>, now: string)
      requires Valid()
      modifies this`outbox, this`writes
      ensures outbox == old(outbox) + Reactions(origin, frame, connections, data, createdId, now)
      ensures writes == old(writes) + (if frame.ConversationMessage? then [DraftOf(frame)] else [])
    {
      match frame
      case ChatMessage(query) =>
        if query.Some? {
          var response := Assistant.Respond(query.value, data);
          if IsOpenIn(connections, origin) {
            outbox := outbox + [Delivery(origin, ChatResponse(response, now))];
          }
        }
      case ConversationMessage(_, _, _, _) =>
        var draft := DraftOf(frame);
        writes := writes + [draft];
        if createdId.Some? {
          var event := NewMessage(StoredMessage(createdId.value, draft));
          var i := 0;
          while i < |connections|
            invariant 0 <= i <= |connections|
            invariant outbox == old(outbox) + BroadcastTo(connections[..i], event)
            invariant writes == old(writes) + [draft]
          {
            assert connections[..i + 1][..i] == connections[..i];
            if connections[i].open {
              outbox := outbox + [Delivery(connections[i].id, event)];
            }
            i := i + 1;
          }
          assert connections[..i] == connections;
        }
      case Unparseable =>
      case OtherType(_) =>
    }
  }
}
