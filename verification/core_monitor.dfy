/**
 * The plain `Danmuku` class of `core.py`: the monitor the main window drives.
 * `start_monitor` binds a room and the two filters to a new handler without
 * touching the statistics; `stop_monitor` hands back the sender set and
 * starts the statistics over.
 */
module CoreMonitor {
  import opened Wrappers
  import opened Danmu

  /** `room` is `None` until `start_monitor` has created the live-room client. */
  datatype Monitor = Monitor(room: Option<int>, filters: Filters, stats: Stats)

  /** `stop_monitor` before any `start_monitor` dereferences `self.room`, which is still `None`. */
  datatype MonitorError = NoRoom

  /** `Danmuku()`: no room, no filters, a zero count and no senders. */
  function New(): (m: Monitor)
    ensures m.room.None?
    ensures m.stats.numDanmu == 0 && m.stats.viewers == {}
    ensures Valid(m.stats)
  {
    Monitor(None, Filters(None, None), Init)
  }

  /**
   * `start_monitor(callback, room_id, paizi, keyword)`: the handler it
   * registers closes over `paizi` and `keyword`; the counters carry over.
   */
  function StartMonitor(m: Monitor, roomId: int, paizi: Option<string>, keyword: Option<string>): (r: Monitor)
    ensures r.room == Some(roomId)
    ensures r.filters == Filters(paizi, keyword)
    ensures r.stats == m.stats
  {
    Monitor(Some(roomId), Filters(paizi, keyword), m.stats)
  }

  /** `on_new_danmu(event)`: the shared step under the filters given to `start_monitor`; the report is the callback's arguments. */
  function OnNewDanmu(m: Monitor, e: Event): (r: (Monitor, Option<Report>))
    requires m.room.Some?
    ensures r.0.room == m.room && r.0.filters == m.filters
    ensures r.1.Some? <==> Accepted(m.filters, e)
    ensures r.1.Some? ==> r.1.value == Report(r.0.stats.numDanmu, |r.0.stats.viewers|)
    ensures !Accepted(m.filters, e) ==> r.0 == m
    ensures Accepted(m.filters, e) ==>
      r.0.stats == Stats(m.stats.numDanmu + 1, m.stats.viewers + {SenderName(e).value})
  {
    var (s', report) := Step(m.stats, m.filters, e);
    (m.(stats := s'), report)
  }

  /** The monitor after its handler, registered by `start_monitor`, has seen `es` in order. */
  function Feed(m: Monitor, es: seq<Event>): (r: Monitor)
    requires m.room.Some?
    ensures r.room == m.room && r.filters == m.filters
  {
    m.(stats := Run(m.stats, m.filters, es))
  }

  /**
   * `stop_monitor()`: fails while no room exists; otherwise returns the
   * sender set as it was and leaves a zero count and an empty set behind.
   */
  function StopMonitor(m: Monitor): (r: Result<(Monitor, set<string>), MonitorError>)
    ensures m.room.None? <==> r.Failure?
    ensures r.Success? ==> r.value.1 == m.stats.viewers
    ensures r.Success? ==> r.value.0.stats == Init
    ensures r.Success? ==> r.value.0.room == m.room && r.value.0.filters == m.filters
  {
    if m.room.None? then Failure(NoRoom)
    else Success((m.(stats := Init), m.stats.viewers))
  }

  /** `Feed` agrees with handling the events one `OnNewDanmu` call at a time. */
  lemma FeedIsRepeatedHandling(m: Monitor, es: seq<Event>)
    requires m.room.Some?
    ensures es != [] ==>
      Feed(m, es) == OnNewDanmu(Feed(m, es[..|es| - 1]), es[|es| - 1]).0
    ensures es == [] ==> Feed(m, es) == m
  {
  }

  /** A second stop with no events in between returns an empty set. */
  lemma StopTwiceIsEmpty(m: Monitor)
    requires m.room.Some?
    ensures StopMonitor(m).Success?
    ensures StopMonitor(StopMonitor(m).value.0).Success?
    ensures StopMonitor(StopMonitor(m).value.0).value.1 == {}
  {
  }

  /**
   * A whole monitoring session: after `start_monitor` and a sequence of
   * events, `stop_monitor` returns exactly the senders of the accepted events
   * on top of what the monitor already held, and the count it discards is the
   * previous count plus the number of accepted events.
   */
  lemma Session(m: Monitor, roomId: int, paizi: Option<string>, keyword: Option<string>, es: seq<Event>)
    ensures var f := Filters(paizi, keyword);
      var fed := Feed(StartMonitor(m, roomId, paizi, keyword), es);
      && StopMonitor(fed).Success?
      && StopMonitor(fed).value.1 == m.stats.viewers + Senders(f, es)
      && fed.stats.numDanmu == m.stats.numDanmu + |AcceptedIndices(f, es)|
      && (Valid(m.stats) ==> |StopMonitor(fed).value.1| <= fed.stats.numDanmu)
  {
    var f := Filters(paizi, keyword);
    RunCounts(m.stats, f, es);
    if Valid(m.stats) {
      RunKeepsValid(m.stats, f, es);
    }
  }

  /** From a fresh monitor, one session returns exactly the senders of the accepted events. */
  lemma FreshSession(roomId: int, paizi: Option<string>, keyword: Option<string>, es: seq<Event>)
    ensures var fed := Feed(StartMonitor(New(), roomId, paizi, keyword), es);
      StopMonitor(fed) == Success((fed.(stats := Init), Senders(Filters(paizi, keyword), es)))
  {
    Session(New(), roomId, paizi, keyword, es);
  }

  /** Stop, start again, stop again, with no events in between: the second stop returns an empty set. */
  lemma StopStartStopIsEmpty(m: Monitor, roomId: int, paizi: Option<string>, keyword: Option<string>)
    requires m.room.Some?
    ensures var first := StopMonitor(m);
      && first.Success?
      && StopMonitor(StartMonitor(first.value.0, roomId, paizi, keyword)) 
         == Success((StartMonitor(first.value.0, roomId, paizi, keyword), {}))
  {
  }
}
