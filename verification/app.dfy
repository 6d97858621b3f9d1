/** The connection handler of the server: arriving connections wait in a
    FIFO queue and are paired two at a time into a new room, which is kept
    in a registry of live rooms until it is closed. */
module App {
  import opened Common

  type Socket = string
  type RoomId = string

  /** A room as the registry knows it: its id and the connections paired into it. */
  datatype RoomEntry = RoomEntry(id: RoomId, players: seq<Socket>)

  /** The pairs formed from a sequence of arrivals, in arrival order. */
  function Pairs(arrivals: seq<Socket>): seq<(Socket, Socket)> {
    if |arrivals| < 2 then [] else [(arrivals[0], arrivals[1])] + Pairs(arrivals[2..])
  }

  /** The connections still waiting after a sequence of arrivals. */
  function Waiting(arrivals: seq<Socket>): seq<Socket> {
    if |arrivals| < 2 then arrivals else Waiting(arrivals[2..])
  }

  /** The k-th room gets the arrivals 2k and 2k+1, and at most the last
      arrival is left waiting. */
  lemma {:induction false} PairsInArrivalOrder(arrivals: seq<Socket>)
    ensures |Pairs(arrivals)| == |arrivals| / 2
    ensures forall k :: 0 <= k < |Pairs(arrivals)| ==> Pairs(arrivals)[k] == (arrivals[2 * k], arrivals[2 * k + 1])
    ensures Waiting(arrivals) == arrivals[2 * (|arrivals| / 2)..]
    ensures |Waiting(arrivals)| <= 1
    decreases |arrivals|
  {
    if |arrivals| >= 2 {
      var rest := arrivals[2..];
      PairsInArrivalOrder(rest);
      forall k | 0 <= k < |Pairs(arrivals)|
        ensures Pairs(arrivals)[k] == (arrivals[2 * k], arrivals[2 * k + 1])
      {
        if k > 0 {
          assert Pairs(arrivals)[k] == Pairs(rest)[k - 1];
        }
      }
      assert rest[2 * (|rest| / 2)..] == arrivals[2 * (|arrivals| / 2)..];
    }
  }

  /** One more arrival either waits alone or completes a pair with the
      connection already waiting. */
  lemma {:induction false} OneMoreArrival(arrivals: seq<Socket>, s: Socket)
    ensures |Waiting(arrivals)| == 0 ==> Pairs(arrivals + [s]) == Pairs(arrivals) && Waiting(arrivals + [s]) == [s]
    ensures |Waiting(arrivals)| == 1 ==>
      Pairs(arrivals + [s]) == Pairs(arrivals) + [(Waiting(arrivals)[0], s)] && Waiting(arrivals + [s]) == []
    decreases |arrivals|
  {
    if |arrivals| >= 2 {
      assert (arrivals + [s])[2..] == arrivals[2..] + [s];
      OneMoreArrival(arrivals[2..], s);
    }
  }

  class Matchmaker {
    /** Connections waiting for a partner, oldest first. */
    var clients: seq<Socket>
    /** The live rooms by id. */
    var instances: map<RoomId, RoomEntry>
    /** Every connection seen so far, in arrival order. */
    ghost var arrivals: seq<Socket>
    /** Every pair formed so far, in the order the rooms were made. */
    ghost var paired: seq<(Socket, Socket)>

    ghost predicate Valid()
      reads this
    {
      clients == Waiting(arrivals) && paired == Pairs(arrivals)
    }

    constructor ()
      ensures Valid() && clients == [] && instances == map[] && arrivals == [] && paired == []
    {
      clients := [];
      instances := map[];
      arrivals := [];
      paired := [];
    }

    /** A new connection joins the queue; when two are waiting, the two
        oldest leave it together as a new room registered under `roomId`.
        Afterwards at most one connection waits. */
    method Connect(socket: Socket, roomId: RoomId) returns (room: Option<RoomEntry>)
      requires Valid()
      modifies this
      ensures Valid() && arrivals == old(arrivals) + [socket]
      ensures |clients| <= 1
      ensures room.Some? <==> |old(clients)| == 1
      ensures room.Some? ==>
        && room.value == RoomEntry(roomId, [old(clients)[0], socket])
        && clients == []
        && instances == old(instances)[roomId := room.value]
        && paired == old(paired) + [(old(clients)[0], socket)]
      ensures room.None? ==> clients == [socket] && instances == old(instances) && paired == old(paired)
    {
      PairsInArrivalOrder(arrivals);
      OneMoreArrival(arrivals, socket);
      clients := clients + [socket];
      arrivals := arrivals + [socket];
      if |clients| > 1 {
        var a := clients[0];
        clients := clients[1..];
        var b := clients[0];
        clients := clients[1..];
        var entry := RoomEntry(roomId, [a, b]);
        instances := instances[roomId := entry];
        paired := paired + [(a, b)];
        room := Some(entry);
      } else {
        room := None;
      }
    }

    /** A player of `room` left and the room reports `playerCount` players
        remaining: the room is retired only when none remain. */
    method Disconnect(room: RoomEntry, playerCount: nat)
      modifies this`instances
      ensures instances == if playerCount == 0 then old(instances) - {room.id} else old(instances)
    {
      if playerCount == 0 {
        instances := instances - {room.id};
      }
    }

    /** The game in `room` is over: every player's connection is closed and
        the room is retired, whatever its player count. */
    method Done(room: RoomEntry) returns (closed: seq<Socket>)
      modifies this`instances
      ensures closed == room.players
      ensures instances == old(instances) - {room.id}
    {
      closed := [];
      var i := 0;
      while i < |room.players|
        invariant 0 <= i <= |room.players|
        invariant closed == room.players[..i]
      {
        closed := closed + [room.players[i]];
        i := i + 1;
      }
      instances := instances - {room.id};
    }
  }

  /** Arrivals A, B, C make a room of A and B while C waits; a fourth
      arrival D makes a room of C and D. */
  method ArrivalOrderScenario(a: Socket, b: Socket, c: Socket, d: Socket, first: RoomId, second: RoomId)
    returns (afterA: Option<RoomEntry>, afterB: Option<RoomEntry>, afterC: Option<RoomEntry>, afterD: Option<RoomEntry>, waiting: seq<Socket>)
    requires first != second
    ensures afterA.None? && afterB == Some(RoomEntry(first, [a, b]))
    ensures afterC.None? && afterD == Some(RoomEntry(second, [c, d]))
    ensures waiting == []
  {
    var m := new Matchmaker();
    afterA := m.Connect(a, first);
    afterB := m.Connect(b, first);
    afterC := m.Connect(c, second);
    afterD := m.Connect(d, second);
    waiting := m.clients;
  }

  /** A room left with players stays registered; a later report of zero
      players retires it. */
  method DisconnectScenario(a: Socket, b: Socket, id: RoomId) returns (afterFirst: bool, afterSecond: bool)
    ensures afterFirst && !afterSecond
  {
    var m := new Matchmaker();
    var _ := m.Connect(a, id);
    var room := m.Connect(b, id);
    m.Disconnect(room.value, 1);
    afterFirst := id in m.instances;
    m.Disconnect(room.value, 0);
    afterSecond := id in m.instances;
  }
}
