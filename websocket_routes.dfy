/**
 * Live chat over websockets: the rooms of connected sockets per
 * conversation, and the handling of one received frame.
 *
 * A socket is an identity; whether a send to it fails is a parameter. The
 * messages table insert is a parameter too (the saved row, or None when
 * the insert returned nothing or raised).
 */
module WebSocketRoutes {
  import opened Wrappers

  type Socket = nat

  /** The rooms: conversation id to the sockets connected to it. */
  type Rooms = map<string, set<Socket>>

  /** No room is kept once its last socket has left. */
  predicate NoEmptyRoom(rooms: Rooms)
  {
    forall c :: c in rooms ==> rooms[c] != {}
  }

  /** The rooms after `ws` joined conversation c. */
  function Joined(rooms: Rooms, c: string, ws: Socket): (r: Rooms)
    ensures c in r && ws in r[c]
    ensures r.Keys == rooms.Keys + {c}
    ensures forall d :: d in rooms && d != c ==> r[d] == rooms[d]
    ensures c in rooms ==> r[c] == rooms[c] + {ws}
    ensures c !in rooms ==> r[c] == {ws}
  {
    rooms[c := (if c in rooms then rooms[c] else {}) + {ws}]
  }

  /** The rooms after the sockets `gone` left conversation c; an emptied room is dropped. */
  function RemovedFrom(rooms: Rooms, c: string, gone: set<Socket>): Rooms
  {
    if c !in rooms then rooms
    else if rooms[c] - gone == {} then rooms - {c}
    else rooms[c := rooms[c] - gone]
  }

  /** Leaving keeps every room non-empty, touches only room c, and takes exactly the leavers out of it. */
  lemma RemovedFromKeepsRoomsNonEmpty(rooms: Rooms, c: string, gone: set<Socket>)
    requires NoEmptyRoom(rooms)
    ensures NoEmptyRoom(RemovedFrom(rooms, c, gone))
    ensures forall d :: d != c ==> (d in rooms <==> d in RemovedFrom(rooms, c, gone))
    ensures forall d :: d != c && d in rooms ==> RemovedFrom(rooms, c, gone)[d] == rooms[d]
    ensures c in RemovedFrom(rooms, c, gone) <==> c in rooms && rooms[c] - gone != {}
    ensures c in RemovedFrom(rooms, c, gone) ==> RemovedFrom(rooms, c, gone)[c] == rooms[c] - gone
  {
  }

  /** Sockets leaving one after another is the same as leaving together. */
  lemma RemovedFromTwice(rooms: Rooms, c: string, a: set<Socket>, b: set<Socket>)
    ensures RemovedFrom(RemovedFrom(rooms, c, a), c, b) == RemovedFrom(rooms, c, a + b)
  {
    if c in rooms && rooms[c] - a != {} {
      assert (rooms[c] - a) - b == rooms[c] - (a + b);
      if rooms[c] - (a + b) != {} {
        assert rooms[c := rooms[c] - a][c := rooms[c] - (a + b)] == rooms[c := rooms[c] - (a + b)];
      } else {
        assert rooms[c := rooms[c] - a] - {c} == rooms - {c};
      }
    }
  }

  /** A socket that joins a room it was not in and then leaves restores the rooms. */
  lemma JoinThenLeave(rooms: Rooms, c: string, ws: Socket)
    requires NoEmptyRoom(rooms)
    requires c !in rooms || ws !in rooms[c]
    ensures RemovedFrom(Joined(rooms, c, ws), c, {ws}) == rooms
  {
    if c in rooms {
      assert rooms[c] + {ws} - {ws} == rooms[c];
      assert rooms[c := rooms[c]] == rooms;
    } else {
      assert rooms[c := {ws}] - {c} == rooms;
    }
  }

  /** The sockets a broadcast is addressed to: the room without the excluded sender. */
  function Addressees(room: set<Socket>, exclude: Option<Socket>): (r: set<Socket>)
    ensures forall s :: s in r <==> s in room && exclude != Some(s)
  {
    if exclude.Some? then room - {exclude.value} else room
  }

  /** ConnectionManager: the rooms, updated in place. */
  class ConnectionManager {
    var rooms: Rooms

    predicate Valid()
      reads this
    {
      NoEmptyRoom(rooms)
    }

    constructor()
      ensures rooms == map[] && Valid()
    {
      rooms := map[];
    }

    /** connect: add the socket to its room, creating the room when absent. */
    method Connect(ws: Socket, c: string)
      requires Valid()
      modifies this
      ensures Valid()
      ensures rooms == Joined(old(rooms), c, ws)
    {
      if c !in rooms {
        rooms := rooms[c := {}];
      }
      rooms := rooms[c := rooms[c] + {ws}];
    }

    /** disconnect: discard the socket and delete the room once empty; an unknown room is left alone. */
    method Disconnect(ws: Socket, c: string)
      requires Valid()
      modifies this
      ensures Valid()
      ensures rooms == RemovedFrom(old(rooms), c, {ws})
    {
      RemovedFromKeepsRoomsNonEmpty(rooms, c, {ws});
      if c in rooms {
        rooms := rooms[c := rooms[c] - {ws}];
        if rooms[c] == {} {
          rooms := rooms - {c};
        }
      }
    }

    /**
     * broadcast_to_conversation: send to every socket of a snapshot of the
     * room except `exclude`; a socket in `failing` fails its send and is
     * disconnected. Returns the sockets that received the message.
     */
    method Broadcast(c: string, exclude: Option<Socket>, failing: set<Socket>) returns (delivered: set<Socket>)
      requires Valid()
      modifies this
      ensures Valid()
      ensures c !in old(rooms) ==> delivered == {} && rooms == old(rooms)
      ensures c in old(rooms) ==> delivered == Addressees(old(rooms)[c], exclude) - failing
      ensures c in old(rooms) ==> rooms == RemovedFrom(old(rooms), c, Addressees(old(rooms)[c], exclude) * failing)
    {
      delivered := {};
      if c !in rooms {
        return;
      }
      var snapshot := rooms[c];
      var pending := snapshot;
      ghost var failed: set<Socket> := {};
      assert snapshot - failed == snapshot != {};
      assert rooms[c := snapshot] == rooms;
      while pending != {}
        invariant Valid()
        invariant pending <= snapshot
        invariant delivered == Addressees(snapshot - pending, exclude) - failing
        invariant failed == Addressees(snapshot - pending, exclude) * failing
        invariant rooms == RemovedFrom(old(rooms), c, failed)
        decreases pending
      {
        var s :| s in pending;
        pending := pending - {s};
        if exclude != Some(s) {
          if s in failing {
            Disconnect(s, c);
            RemovedFromTwice(old(rooms), c, failed, {s});
            failed := failed + {s};
          } else {
            delivered := delivered + {s};
          }
        }
      }
      assert snapshot - pending == snapshot;
    }
  }

  // ---------- one frame of websocket_chat ----------

  /** A received text frame, as json.loads sees it. */
  datatype Payload =
    | Malformed                                  // not valid JSON
    | Object(fields: map<string, string>)        // a JSON object
    | Container(hasRole: bool, hasContent: bool) // a JSON list or string: `in` tests membership
    | Scalar                                     // a number, true/false or null: `in` raises

  /** The row the insert stores. */
  datatype StoredMessage = StoredMessage(conversationId: string, role: string, content: string, responseType: string)

  /** What the messages table returned for the insert. */
  datatype SavedRow = SavedRow(id: string, timestamp: string)

  /** A frame the server sends. */
  datatype Outgoing =
    | Error(message: string)
    | Message(id: string, role: string, content: string, timestamp: string)
    | MessageSent(messageId: string)

  const MissingFields: string := "Missing required fields: role and content"
  const InvalidJson: string := "Invalid JSON format"
  const SaveFailed: string := "Failed to save message"
  const LiveChat: string := "live_chat"

  /** How the frame is judged before anything is stored. */
  datatype Verdict = Accept(role: string, content: string) | Reject(message: string) | Drop

  /** The validation of websocket_chat: JSON, then both required fields. */
  function Check(p: Payload): (v: Verdict)
    ensures v.Accept? <==> p.Object? && "role" in p.fields && "content" in p.fields
    ensures v.Accept? ==> v.role == p.fields["role"] && v.content == p.fields["content"]
    ensures v.Drop? <==> p.Scalar? || (p.Container? && p.hasRole && p.hasContent)
    ensures v.Reject? ==> v.message == (if p.Malformed? then InvalidJson else MissingFields)
  {
    match p
    case Malformed => Reject(InvalidJson)
    case Object(f) => if "role" in f && "content" in f then Accept(f["role"], f["content"]) else Reject(MissingFields)
    case Container(r, cn) => if r && cn then Drop else Reject(MissingFields)
    case Scalar => Drop
  }

  /**
   * One iteration of websocket_chat's receive loop for socket ws in room c.
   * Returns the row inserted (if any), the frames sent back to ws, the
   * frame broadcast to the others and the sockets it reached, and whether the loop ended (the
   * handler raised, which disconnects ws).
   */
  method HandleFrame(mgr: ConnectionManager, c: string, ws: Socket, p: Payload,
                     saved: Option<SavedRow>, failing: set<Socket>)
    returns (stored: Option<StoredMessage>, replies: seq<Outgoing>, frame: Option<Outgoing>, delivered: set<Socket>, stop: bool)
    requires mgr.Valid()
    modifies mgr
    ensures mgr.Valid()
    ensures stored.Some? <==> Check(p).Accept?
    ensures stored.Some? ==> stored.value == StoredMessage(c, Check(p).role, Check(p).content, LiveChat)
    ensures stop <==> Check(p).Drop?
    ensures stop ==> replies == [] && delivered == {} && mgr.rooms == RemovedFrom(old(mgr.rooms), c, {ws})
    ensures Check(p).Reject? ==> replies == [Error(Check(p).message)] && delivered == {} && mgr.rooms == old(mgr.rooms)
    ensures Check(p).Accept? && saved.None? ==>
      replies == [Error(SaveFailed)] && delivered == {} && mgr.rooms == old(mgr.rooms)
    ensures Check(p).Accept? && saved.Some? ==> replies == [MessageSent(saved.value.id)]
    ensures frame.Some? <==> Check(p).Accept? && saved.Some?
    ensures frame.Some? ==> frame.value == Broadcasted(saved.value, Check(p).role, Check(p).content)
    ensures Check(p).Accept? && saved.Some? && c in old(mgr.rooms) ==>
      delivered == Addressees(old(mgr.rooms)[c], Some(ws)) - failing && ws !in delivered
    ensures Check(p).Accept? && saved.Some? && c !in old(mgr.rooms) ==> delivered == {}
    ensures Check(p).Accept? && saved.Some? ==>
      mgr.rooms == if c in old(mgr.rooms) then RemovedFrom(old(mgr.rooms), c, Addressees(old(mgr.rooms)[c], Some(ws)) * failing)
                   else old(mgr.rooms)
  {
    stored := None;
    replies := [];
    delivered := {};
    stop := false;
    frame := None;
    var v := Check(p);
    match v
    case Drop =>
      mgr.Disconnect(ws, c);
      stop := true;
    case Reject(m) =>
      replies := [Error(m)];
    case Accept(role, content) =>
      stored := Some(StoredMessage(c, role, content, LiveChat));
      if saved.None? {
        replies := [Error(SaveFailed)];
      } else {
        frame := Some(Broadcasted(saved.value, role, content));
        delivered := mgr.Broadcast(c, Some(ws), failing);
        replies := [MessageSent(saved.value.id)];
      }
  }

  /** The broadcast of a saved message: the frame every other socket receives. */
  function Broadcasted(saved: SavedRow, role: string, content: string): (m: Outgoing)
    ensures m.Message? && m.id == saved.id && m.timestamp == saved.timestamp
    ensures m.role == role && m.content == content
  {
    Message(saved.id, role, content, saved.timestamp)
  }
}
