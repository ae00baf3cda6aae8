/** The WebSocket server's module-level state and its three handlers. Each
    handler runs to completion before the next event, so each is one method.
    Every `send` is recorded, in order, in `outbox`. */
module Server {
  import opened Protocol
  import opened Registry
  import opened Fanout
  import opened Playback

  class SyncServer {
    // upstreamData
    var status: Status
    var fileName: string
    var currentTime: real
    var timestamp: int
    // the live connections, in insertion order
    var clients: seq<ClientId>
    // the cached directory listing
    var videoFiles: seq<string>
    // every send performed so far
    var outbox: seq<Send>

    /** The registry has no duplicates, and with nobody connected the
        session has been forgotten. */
    ghost predicate Valid()
      reads this
    {
      && Distinct(clients)
      && (clients == [] ==> Upstream() == Initial)
    }

    /** The playback record as a value. */
    function Upstream(): Record
      reads this
    {
      Record(status, fileName, currentTime, timestamp)
    }

    /** Process start: the initial record, no clients, and the catalog read
        once from the directory listing `listing`. */
    constructor (listing: seq<string>)
      ensures Valid()
      ensures Upstream() == Initial && clients == [] && outbox == []
      ensures videoFiles == listing
    {
      status, fileName, currentTime, timestamp := Pause, "", 0.0, 0;
      clients := [];
      videoFiles := listing;
      outbox := [];
    }

    /** `updateVideoFiles`: empty the catalog, then fill it from the listing. */
    method UpdateVideoFiles(listing: seq<string>)
      modifies this`videoFiles
      ensures videoFiles == listing
    {
      videoFiles := [];
      videoFiles := videoFiles + listing;
    }

    /** `broadcastMessage`: one send of `payload` to each client, in order. */
    method Broadcast(payload: Outbound)
      modifies this`outbox
      ensures outbox == old(outbox) + Deliveries(clients, payload)
    {
      var i := 0;
      while i < |clients|
        invariant 0 <= i <= |clients|
        invariant outbox == old(outbox) + Deliveries(clients[..i], payload)
      {
        assert clients[..i + 1][..i] == clients[..i];
        outbox := outbox + [Send(clients[i], payload)];
        i := i + 1;
      }
      assert clients[..i] == clients;
    }

    /** A new connection `c` at millisecond `now`: register it, tell everyone
        (`c` included) the new count, then send `c` the snapshot. The record
        and the catalog are not modified. */
    method Connect(c: ClientId, now: int)
      requires Valid()
      modifies this`clients, this`outbox
      ensures Valid()
      ensures clients == Added(old(clients), c) && c in clients
      ensures outbox == old(outbox)
                        + Deliveries(clients, UserCount(|clients|))
                        + [Send(c, Init(InitSnapshot(Upstream(), videoFiles, now)))]
    {
      clients := Added(clients, c);
      Broadcast(UserCount(|clients|));
      outbox := outbox + [Send(c, Init(InitSnapshot(Upstream(), videoFiles, now)))];
    }

    /** A frame from `sender` at millisecond `now`; `listing` is what the video
        directory holds at that moment. `raised` reports that JSON.parse threw,
        before anything was changed. Frames arrive only on a registered
        connection: the listener is installed after the connection is added
        and no frame follows its close. */
    method OnMessage(sender: ClientId, input: Decoded, now: int, listing: seq<string>) returns (raised: bool)
      requires Valid() && sender in clients
      modifies this`status, this`fileName, this`currentTime, this`timestamp, this`videoFiles, this`outbox
      ensures Valid()
      ensures raised <==> input.Malformed?
      ensures raised ==> Upstream() == old(Upstream()) && videoFiles == old(videoFiles) && outbox == old(outbox)
      ensures input.Parsed? && IsHeartCheck(input.message) ==>
                Upstream() == old(Upstream()) && videoFiles == old(videoFiles)
                && outbox == old(outbox) + [Send(sender, HeartCheckAck)]
      ensures input.Parsed? && IsUpdateVideoFiles(input.message) ==>
                Upstream() == old(Upstream()) && videoFiles == listing
                && outbox == old(outbox) + [Send(sender, VideoList(listing))]
      ensures input.Parsed? && IsControl(input.message) ==>
                Upstream() == ApplyControl(old(Upstream()), input.message, now) && videoFiles == old(videoFiles)
                && outbox == old(outbox) + Deliveries(clients, Relay(input.message))
    {
      if input.Malformed? {
        return true;
      }
      raised := false;
      var m := input.message;
      if IsHeartCheck(m) {
        outbox := outbox + [Send(sender, HeartCheckAck)];
      } else if IsUpdateVideoFiles(m) {
        UpdateVideoFiles(listing);
        outbox := outbox + [Send(sender, VideoList(videoFiles))];
      } else {
        if FileNameTruthy(m) {
          fileName := m.fileName.value;
        }
        if CurrentTimeTruthy(m) {
          currentTime := m.currentTime.value;
          timestamp := now;
        }
        if m.kind == Some(PlayType) {
          status := Play;
        }
        if m.kind == Some(PauseType) {
          status := Pause;
        }
        Broadcast(Relay(m));
      }
    }

    /** Connection `c` closed: unregister it, tell the remaining clients the
        new count, and forget the session when nobody is left. */
    method Close(c: ClientId)
      requires Valid()
      modifies this
      ensures Valid()
      ensures clients == Removed(old(clients), c) && c !in clients
      ensures outbox == old(outbox) + Deliveries(clients, UserCount(|clients|))
      ensures Upstream() == if clients == [] then Initial else old(Upstream())
      ensures videoFiles == old(videoFiles)
    {
      clients := Removed(clients, c);
      Broadcast(UserCount(|clients|));
      if |clients| == 0 {
        fileName := "";
        currentTime := 0.0;
        timestamp := 0;
        status := Pause;
      }
    }
  }
}
