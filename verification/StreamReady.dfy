/**
  A ready report in a stream room: its playback has no ready map, so marking a client in it
  panics while the room's lock is held, and the lock is never released.
 */
module StreamReady {
  import opened TrackQueue
  import opened PlaybackMachine

  /** A stream room wedges exactly at a ready report for the track it is playing. */
  lemma RoomWedgesIff(st: Room, a: Action)
    requires Enabled(st, a)
    ensures
      Apply(st, a).wedged <==>
        || st.wedged
        || (st.mode.Stream? && a.DoMarkReady? && st.playing.Some? && st.playing.value.trackID == a.trackID)
  {
  }

  lemma {:induction false} SignalNeverWedges(now: int, acts: seq<Action>)
    requires ValidRun(Init(Signal, now), acts)
    ensures !Exec(Init(Signal, now), acts).wedged && Exec(Init(Signal, now), acts).mode == Signal
    decreases |acts|
  {
    if |acts| > 0 {
      SignalNeverWedges(now, acts[..|acts| - 1]);
      RoomWedgesIff(Exec(Init(Signal, now), acts[..|acts| - 1]), acts[|acts| - 1]);
    }
  }

  /** A wedged room stays as it is for good: nobody joins or leaves, and nothing is queued or played. */
  lemma {:induction false} WedgedIsForever(st: Room, acts: seq<Action>)
    requires ValidRun(st, acts) && st.wedged
    ensures
      var end := Exec(st, acts);
      && end.wedged && end.clients == st.clients && end.queue == st.queue
      && end.playing == st.playing && end.log == st.log
    decreases |acts|
  {
    if |acts| > 0 {
      WedgedIsForever(st, acts[..|acts| - 1]);
    }
  }

  /** One ready report for the first track of a stream is enough. */
  lemma OneReportWedges(client: string) returns (acts: seq<Action>)
    ensures ValidRun(Init(Stream(true), 0), acts) && Exec(Init(Stream(true), 0), acts).wedged
  {
    var st := Init(Stream(true), 0);
    acts := [];
    acts := Then(st, acts, DoUpsert(Track("x", "", Ready, "", "", 0)));
    assert Exec(st, acts).queue[0].status == Ready;
    acts := Then(st, acts, RunMaybeStart);
    acts := Then(st, acts, DoMarkReady(client, "x"));
  }
}
