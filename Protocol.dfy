/** Wire-level values of the synchronisation server: the fields it reads from
    a decoded client message, and the messages it sends back. JSON encoding is
    not modelled; a message is the value JSON.parse would have produced. */
module Protocol {

  datatype Option<T> = None | Some(value: T)

  /** An opaque connection handle (a `ws` object in the server). */
  type ClientId = nat

  /** The shared play/pause status; the server only ever stores "play" or "pause". */
  datatype Status = Play | Pause

  const PlayType := "play"
  const PauseType := "pause"
  /** The heartbeat tag, spelled as the server spells it. */
  const HeartCheckType := "hreatcheck"
  const UpdateVideoFilesType := "updateVideoFiles"

  /** The three fields of a decoded client message that the server reads.
      `None` stands for an absent (undefined) field. */
  datatype Message = Message(kind: Option<string>, fileName: Option<string>, currentTime: Option<real>)

  /** The outcome of JSON.parse on the raw frame. */
  datatype Decoded = Parsed(message: Message) | Malformed

  /** JavaScript truthiness of the `fileName` field: present and non-empty. */
  predicate FileNameTruthy(m: Message) {
    m.fileName.Some? && m.fileName.value != ""
  }

  /** JavaScript truthiness of the `currentTime` field: present and non-zero. */
  predicate CurrentTimeTruthy(m: Message) {
    m.currentTime.Some? && m.currentTime.value != 0.0
  }

  predicate IsHeartCheck(m: Message) {
    m.kind == Some(HeartCheckType)
  }

  predicate IsUpdateVideoFiles(m: Message) {
    m.kind == Some(UpdateVideoFilesType)
  }

  /** Every message that is neither a heartbeat nor a catalog refresh is a
      playback-control message: it updates the record and is relayed. */
  predicate IsControl(m: Message) {
    !IsHeartCheck(m) && !IsUpdateVideoFiles(m)
  }

  /** The `initData` object sent to a client when it connects. */
  datatype InitData = InitData(status: Status, videoList: seq<string>, fileName: string, currentTime: real)

  /** Server-to-client messages. */
  datatype Outbound =
    | UserCount(count: nat)            // {type:"userCount", count}
    | Init(initData: InitData)         // {type:"init", initData}
    | HeartCheckAck                    // {type:"hreatcheck"}
    | VideoList(videos: seq<string>)   // {type:"videoList", videos}
    | Relay(message: Message)          // a client's control message, unchanged

  /** One `send` on one connection. */
  datatype Send = Send(to: ClientId, payload: Outbound)
}
