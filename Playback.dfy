/** The shared playback record `upstreamData` as a value, the rule by which a
    control message updates it, and the snapshot a joining client receives. */
module Playback {
  import opened Protocol

  /** `upstreamData`: status (the source's `stauts`), the selected file, the
      reported position in seconds and the millisecond instant it was reported. */
  datatype Record = Record(status: Status, fileName: string, currentTime: real, timestamp: int)

  /** The record at start-up and after the last client leaves. */
  const Initial := Record(Pause, "", 0.0, 0)

  /** The position sent to a joining client at millisecond `now`: zero while
      no position has been reported, otherwise the reported position plus the
      seconds elapsed since it was reported. The status is not consulted and a
      clock that runs backwards is not clamped. */
  function JoinPosition(currentTime: real, timestamp: int, now: int): (r: real)
    ensures currentTime == 0.0 ==> r == 0.0
    ensures currentTime != 0.0 && timestamp <= now ==> r >= currentTime
    ensures currentTime != 0.0 && now < timestamp ==> r < currentTime
  {
    if currentTime == 0.0 then 0.0
    else currentTime + (now - timestamp) as real / 1000.0
  }

  /** The `initData` built for a client that connects at millisecond `now`. */
  function InitSnapshot(p: Record, videoFiles: seq<string>, now: int): (r: InitData)
    ensures r.status == Play <==> p.status == Play
    ensures r.fileName == p.fileName && r.videoList == videoFiles
    ensures p.currentTime == 0.0 ==> r.currentTime == 0.0
    ensures p.currentTime != 0.0 && p.timestamp <= now ==> r.currentTime >= p.currentTime
  {
    InitData(if p.status == Play then Play else Pause, videoFiles, p.fileName,
             JoinPosition(p.currentTime, p.timestamp, now))
  }

  /** A control message applied to the record at millisecond `now`: a truthy
      `fileName` replaces the file, a truthy `currentTime` replaces the position
      and restamps it, a "play" or "pause" type sets the status. */
  function ApplyControl(p: Record, m: Message, now: int): (r: Record)
    ensures FileNameTruthy(m) ==> r.fileName == m.fileName.value
    ensures !FileNameTruthy(m) ==> r.fileName == p.fileName
    ensures CurrentTimeTruthy(m) ==> r.currentTime == m.currentTime.value && r.timestamp == now
    ensures !CurrentTimeTruthy(m) ==> r.currentTime == p.currentTime && r.timestamp == p.timestamp
    ensures m.kind == Some(PlayType) ==> r.status == Play
    ensures m.kind == Some(PauseType) ==> r.status == Pause
    ensures m.kind != Some(PlayType) && m.kind != Some(PauseType) ==> r.status == p.status
  {
    var withFile := if FileNameTruthy(m) then p.(fileName := m.fileName.value) else p;
    var withTime := if CurrentTimeTruthy(m) then withFile.(currentTime := m.currentTime.value, timestamp := now)
                    else withFile;
    if m.kind == Some(PlayType) then withTime.(status := Play)
    else if m.kind == Some(PauseType) then withTime.(status := Pause)
    else withTime
  }

  /** Every client, the sender included, re-receives a relayed control
      message; applying the same message again at the same instant changes
      nothing more. */
  lemma EchoIsIdempotent(p: Record, m: Message, now: int)
    ensures ApplyControl(ApplyControl(p, m, now), m, now) == ApplyControl(p, m, now)
  {
  }

  /** A message that carries no truthy field and is neither "play" nor
      "pause" leaves the record as it was. */
  lemma InertMessageKeepsRecord(p: Record, m: Message, now: int)
    requires !FileNameTruthy(m) && !CurrentTimeTruthy(m)
    requires m.kind != Some(PlayType) && m.kind != Some(PauseType)
    ensures ApplyControl(p, m, now) == p
  {
  }

  /** While a position is set, the join position advances one second per
      thousand milliseconds of wall-clock time. */
  lemma JoinPositionAdvancesWithClock(currentTime: real, timestamp: int, now: int, delta: nat)
    requires currentTime != 0.0
    ensures JoinPosition(currentTime, timestamp, now + delta)
         == JoinPosition(currentTime, timestamp, now) + delta as real / 1000.0
  {
  }

  /** A position reported at `reported` is what a client joining at `joined`
      sees, moved on by the time in between. */
  lemma SeekThenJoin(p: Record, m: Message, reported: int, joined: int, videoFiles: seq<string>)
    requires CurrentTimeTruthy(m)
    ensures InitSnapshot(ApplyControl(p, m, reported), videoFiles, joined).currentTime
         == m.currentTime.value + (joined - reported) as real / 1000.0
  {
  }

  /** A client joining after the record was reset sees nothing selected,
      paused, at position zero. */
  lemma JoinAfterReset(videoFiles: seq<string>, now: int)
    ensures InitSnapshot(Initial, videoFiles, now) == InitData(Pause, videoFiles, "", 0.0)
  {
  }

  /** Joining 10 s after a 30 s position was reported while playing gives 40 s. */
  lemma JoinMidPlayback(videoFiles: seq<string>)
    ensures InitSnapshot(Record(Play, "movie.mp4", 30.0, 5000), videoFiles, 15000).currentTime == 40.0
  {
  }

  /** The position is extrapolated while paused too: a record paused at 12 s
      is offered at 22 s to a client joining 10 s later. */
  lemma PausedJoinIsExtrapolated(videoFiles: seq<string>)
    ensures InitSnapshot(Record(Pause, "movie.mp4", 12.0, 0), videoFiles, 10000).currentTime == 22.0
  {
  }
}
