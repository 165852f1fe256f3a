/**
  The room object: its playback fields are updated in place, one method for each region run
  under the room's lock, and every method takes the machine's step of the same name.
 */
module PlaybackRoom {
  import opened Options
  import opened TrackQueue
  import M = PlaybackMachine

  class Playback {
    ghost const instance: nat
    const trackID: string
    const fileURL: string
    const title: string
    const durationMs: int
    var ready: set<string>
    var started: bool
    var paused: bool
    var t0: int
    var s: int
    var readyTimer: Option<nat>
    var endTimer: Option<nat>

    constructor (ghost instance: nat, trackID: string, fileURL: string, title: string, durationMs: int)
      ensures Value() == M.Play(instance, trackID, fileURL, title, durationMs, {}, false, false, 0, 0, None, None)
    {
      this.instance := instance;
      this.trackID, this.fileURL, this.title, this.durationMs := trackID, fileURL, title, durationMs;
      ready, started, paused, t0, s, readyTimer, endTimer := {}, false, false, 0, 0, None, None;
    }

    ghost function Value(): M.Play
      reads this
    {
      M.Play(instance, trackID, fileURL, title, durationMs, ready, started, paused, t0, s, readyTimer, endTimer)
    }
  }

  class Room {
    const mode: M.Mode
    var sync: M.Sync
    var now: int
    var clients: set<string>
    var queue: seq<Track>
    var playing: Playback?
    var timers: map<nat, M.Timer>
    var nextTimer: nat
    ghost var instances: nat
    ghost var inflight: multiset<M.Call>
    ghost var log: seq<M.Event>
    ghost var wedged: bool

    ghost function Current(): set<object>
      reads this
    {
      if playing == null then {} else {playing}
    }

    /** The room as a value of the machine. */
    ghost function State(): M.Room
      reads this, Current()
    {
      M.Room.Room(mode, sync, now, clients, queue, if playing == null then None else Some(playing.Value()),
                  timers, nextTimer, instances, inflight, log, wedged)
    }

    constructor (mode: M.Mode, now: int)
      ensures State() == M.Init(mode, now)
    {
      this.mode, this.now, sync, clients, queue := mode, now, M.Responsive, {}, [];
      playing, timers, nextTimer := null, map[], 0;
      instances, inflight, log, wedged := 0, multiset{}, [], false;
    }

    method StopTimer(handle: Option<nat>)
      modifies this`timers
      ensures timers == M.StopTimer(old(timers), handle)
    {
      if handle.Some? {
        timers := timers - {handle.value};
      }
    }

    method ArmTimer(timer: M.Timer) returns (handle: nat)
      modifies this`timers, this`nextTimer
      ensures handle == old(nextTimer) && nextTimer == old(nextTimer) + 1
      ensures timers == old(timers)[handle := timer]
    {
      handle := nextTimer;
      timers := timers[handle := timer];
      nextTimer := nextTimer + 1;
    }

    method ScheduleEnd(pb: Playback)
      requires playing == pb
      modifies this`timers, this`nextTimer, pb`endTimer
      ensures State() == M.ScheduleEnd(old(State()), old(pb.Value()))
    {
      if pb.endTimer.Some? {
        StopTimer(pb.endTimer);
        pb.endTimer := None;
      }
      if pb.paused || pb.durationMs <= 0 {
        return;
      }
      var remaining := pb.durationMs - pb.s;
      if remaining < 0 {
        remaining := 0;
      }
      var wait := pb.t0 - now + remaining + M.END_GRACE_MS;
      var handle := ArmTimer(M.EndTimer(pb.trackID, now + wait));
      pb.endTimer := Some(handle);
    }

    /** A call in flight takes the lock for its next region. */
    ghost method Take(c: M.Call)
      requires c in inflight
      modifies this`inflight
      ensures State() == M.Retire(old(State()), c)
    {
      inflight := inflight - multiset{c};
    }

    /** The scan for the first Ready track. */
    method FindReady() returns (i: nat)
      ensures i == FirstReady(queue)
    {
      i := 0;
      while i < |queue| && queue[i].status != Ready
        invariant i <= |queue|
        invariant forall j :: 0 <= j < i ==> queue[j].status != Ready
      {
        i := i + 1;
      }
      assert i < |queue| ==> HasReady(queue);
    }

    /** The scan for the first track with this ID. */
    method FindTrack(trackID: string) returns (i: nat)
      ensures i == IndexOf(queue, trackID)
    {
      i := 0;
      while i < |queue| && queue[i].id != trackID
        invariant i <= |queue|
        invariant forall j :: 0 <= j < i ==> queue[j].id != trackID
      {
        i := i + 1;
      }
      assert i < |queue| ==> Holds(queue, trackID);
    }

    method Prepare(t: Track)
      modifies this
      ensures State() == M.Prepare(old(State()), t)
    {
      var pb := new Playback(instances, t.id, t.fileURL, t.title, t.durationMs);
      instances := instances + 1;
      var wait := if sync == M.Tight then M.TIGHT_READY_MS else M.RESPONSIVE_READY_MS;
      var handle := ArmTimer(M.ReadyTimer(pb.trackID, now + wait));
      pb.readyTimer := Some(handle);
      playing := pb;
      log := log + [M.Prepared(pb.instance, pb.trackID, pb.fileURL, pb.durationMs, pb.title)];
    }

    method MaybeStart()
      modifies this
      ensures State() == M.MaybeStart(old(State()))
    {
      if playing != null {
        return;
      }
      var i := FindReady();
      if i == |queue| {
        return;
      }
      Prepare(queue[i]);
    }

    method StreamMaybeStart()
      requires mode.Stream?
      modifies this
      ensures State() == M.StreamMaybeStart(old(State()))
    {
      if !mode.broadcaster || playing != null {
        return;
      }
      var i := FindReady();
      if i == |queue| {
        return;
      }
      var t := queue[i];
      playing := new Playback(instances, t.id, "", t.title, t.durationMs);
      instances := instances + 1;
    }

    /** Whether every connected client is in `ready`, by the scan over the clients. */
    method AllReady(ready: set<string>) returns (all: bool)
      ensures all == (clients <= ready)
    {
      var left := clients;
      while left != {}
        invariant left <= clients
        invariant clients - left <= ready
      {
        var id :| id in left;
        if id !in ready {
          return false;
        }
        left := left - {id};
      }
      return true;
    }

    /** Writing to the missing ready map of a stream's playback panics with the lock held. */
    method MarkReady(client: string, trackID: string)
      modifies this, Current()
      ensures State() == M.MarkReady(old(State()), client, trackID)
    {
      var pb := playing;
      if pb == null || pb.trackID != trackID {
        return;
      }
      if mode.Stream? {
        wedged := true;
        return;
      }
      if pb.started {
        if client in pb.ready {
          return;
        }
        pb.ready := pb.ready + {client};
        log := log + [M.Resynced(pb.instance, client, M.NowPlayingOf(pb.Value()))];
        return;
      }
      pb.ready := pb.ready + {client};
      var all := AllReady(pb.ready);
      if all {
        inflight := inflight + multiset{M.OwesStart(trackID)};
      }
    }

    method RecheckReady()
      modifies this`inflight
      ensures State() == M.RecheckReady(old(State()))
    {
      var pb := playing;
      if pb == null || pb.started || clients == {} {
        return;
      }
      var all := AllReady(pb.ready);
      if all {
        inflight := inflight + multiset{M.OwesStart(pb.trackID)};
      }
    }

    /** The start's anchor, and the end of its ready timer. */
    method Launch(pb: Playback)
      requires playing == pb
      modifies this`timers, pb`started, pb`t0, pb`s
      ensures
        State() == old(State()).(
                     timers := M.StopTimer(old(timers), old(pb.readyTimer)),
                     playing := Some(old(pb.Value()).(started := true, t0 := now + M.START_BUFFER_MS, s := 0)))
    {
      pb.started := true;
      pb.t0 := now + M.START_BUFFER_MS;
      pb.s := 0;
      StopTimer(pb.readyTimer);
    }

    method StartPlayback(trackID: string)
      modifies this, Current()
      ensures State() == M.StartPlayback(old(State()), trackID)
    {
      var pb := playing;
      if pb == null || pb.trackID != trackID || pb.started {
        return;
      }
      Begin(pb);
    }

    method Begin(pb: Playback)
      requires playing == pb && !pb.started
      modifies this, pb
      ensures State() == M.StartPlayback(old(State()), pb.trackID)
    {
      Launch(pb);
      ScheduleEnd(pb);
      log := log + [M.Started(pb.instance, M.NowPlayingOf(pb.Value()), pb.ready)];
    }

    method Pause()
      modifies this, Current()
      ensures State() == M.Pause(old(State()))
    {
      var pb := playing;
      if mode.Stream? || pb == null || !pb.started || pb.paused {
        return;
      }
      pb.s := pb.s + (now - pb.t0);
      pb.t0 := now;
      pb.paused := true;
      ScheduleEnd(pb);
      log := log + [M.Controlled(pb.instance, M.NowPlayingOf(pb.Value()))];
    }

    method Resume()
      modifies this, Current()
      ensures State() == M.Resume(old(State()))
    {
      var pb := playing;
      if mode.Stream? || pb == null || !pb.started || !pb.paused {
        return;
      }
      pb.t0 := now + M.START_BUFFER_MS;
      pb.paused := false;
      ScheduleEnd(pb);
      log := log + [M.Controlled(pb.instance, M.NowPlayingOf(pb.Value()))];
    }

    method SeekTo(ms: int)
      modifies this, Current()
      ensures State() == M.SeekTo(old(State()), ms)
    {
      var pb := playing;
      if mode.Stream? || pb == null || !pb.started {
        return;
      }
      var target := ms;
      if target < 0 {
        target := 0;
      }
      pb.s := target;
      if pb.paused {
        pb.t0 := now;
      } else {
        pb.t0 := now + M.START_BUFFER_MS;
      }
      ScheduleEnd(pb);
      log := log + [M.Controlled(pb.instance, M.NowPlayingOf(pb.Value()))];
    }

    method Skip()
      modifies this`inflight
      ensures State() == M.Skip(old(State()))
    {
      if playing == null {
        return;
      }
      var trackID := playing.trackID;
      if mode.Stream? && (!mode.broadcaster || trackID == "") {
        return;
      }
      inflight := inflight + multiset{M.OwesEnd(trackID)};
    }

    /** Deletes the first queued track with this ID. */
    method DropFromQueue(trackID: string)
      modifies this`queue
      ensures queue == Without(old(queue), trackID)
    {
      var i := FindTrack(trackID);
      if i < |queue| {
        queue := queue[..i] + queue[i + 1..];
      }
    }

    method EndTrack(trackID: string)
      modifies this
      ensures State() == M.EndTrack(old(State()), trackID)
    {
      var pb := playing;
      if pb == null || pb.trackID != trackID {
        return;
      }
      StopTimer(pb.endTimer);
      DropFromQueue(trackID);
      playing := null;
      inflight := inflight + multiset{M.OwesMaybeStart};
    }

    method UpsertTrack(t: Track)
      modifies this`queue, this`inflight
      ensures State() == M.UpsertTrack(old(State()), t)
    {
      var i := FindTrack(t.id);
      if i < |queue| {
        queue := queue[i := t];
      } else {
        queue := queue + [t];
      }
      inflight := inflight + multiset{M.OwesMaybeStart};
    }

    method RemoveTrack(trackID: string)
      modifies this`queue
      ensures State() == M.RemoveTrack(old(State()), trackID)
    {
      if playing != null && playing.trackID == trackID {
        return;
      }
      DropFromQueue(trackID);
    }

    method CleanupMedia()
      modifies this
      ensures State() == M.CleanupMedia(old(State()))
    {
      if playing != null {
        StopTimer(playing.readyTimer);
        StopTimer(playing.endTimer);
      }
      playing := null;
      queue := [];
    }

    /** Whether this room queues or plays the track. */
    method ReferencesTrack(trackID: string) returns (found: bool)
      ensures found <==> (playing != null && playing.trackID == trackID) || Holds(queue, trackID)
    {
      if playing != null && playing.trackID == trackID {
        return true;
      }
      var i := FindTrack(trackID);
      return i < |queue|;
    }

    /** The runtime's part of a timer: it leaves the armed set and its callback waits for the lock. */
    method Fire(handle: nat)
      requires handle in timers && timers[handle].deadline <= now
      modifies this`timers, this`inflight
      ensures State() == M.FireTimer(old(State()), handle)
    {
      ghost var timer := timers[handle];
      timers := timers - {handle};
      inflight := inflight + multiset{
        if timer.ReadyTimer? then M.OwesStart(timer.trackID) else M.OwesEnd(timer.trackID)};
    }
  }
}
