/**
 * The Qt worker variant `Danmuku(QObject)` of `live_danmu.py`. It keeps the
 * room and the filters from its constructor, reports through signals instead
 * of a callback, and its `stop_monitor` reports the sender set WITHOUT
 * resetting the statistics.
 */
module LiveDanmu {
  import opened Wrappers
  import opened Danmu
  import CoreMonitor

  /** The worker's fields; `started` records whether `start_monitor` has created the room client. */
  datatype Worker = Worker(roomId: int, filters: Filters, started: bool, stats: Stats)

  /** The worker's three Qt signals, as the values they carry. */
  datatype Signal =
    | NewDanmu(numDanmu: nat, numViewers: nat)
    | ViewerReport(viewers: set<string>)
    | Finished

  /** `stop_monitor` before `start_monitor` dereferences `self.room`, which is still `None`. */
  datatype WorkerError = NoRoom

  /** `Danmuku(room_id, paizi, keyword)`: the arguments stored unchanged, no room, zero statistics. */
  function New(roomId: int, paizi: Option<string>, keyword: Option<string>): (w: Worker)
    ensures w.roomId == roomId && w.filters.paizi == paizi && w.filters.keyword == keyword
    ensures !w.started
    ensures w.stats.numDanmu == 0 && w.stats.viewers == {}
  {
    Worker(roomId, Filters(paizi, keyword), false, Init)
  }

  /** `start_monitor()`: creates the room client for the stored room; the statistics carry over. */
  function StartMonitor(w: Worker): (r: Worker)
    ensures r.started
    ensures r.roomId == w.roomId && r.filters == w.filters && r.stats == w.stats
  {
    w.(started := true)
  }

  /** `on_new_danmu(event)`: the shared step under `self.paizi`/`self.keyword`; an accepted event emits `new_danmu`. */
  function OnNewDanmu(w: Worker, e: Event): (r: (Worker, Option<Signal>))
    requires w.started
    ensures r.0.roomId == w.roomId && r.0.filters == w.filters && r.0.started == w.started
    ensures r.1.Some? <==> Accepted(w.filters, e)
    ensures r.1.Some? ==> r.1.value == NewDanmu(r.0.stats.numDanmu, |r.0.stats.viewers|)
    ensures !Accepted(w.filters, e) ==> r.0 == w
    ensures Accepted(w.filters, e) ==>
      r.0.stats == Stats(w.stats.numDanmu + 1, w.stats.viewers + {SenderName(e).value})
  {
    var (s', report) := Step(w.stats, w.filters, e);
    (w.(stats := s'), if report.Some? then Some(NewDanmu(report.value.numDanmu, report.value.numViewers)) else None)
  }

  /** The worker after its handler, registered by `start_monitor`, has seen `es` in order. */
  function Feed(w: Worker, es: seq<Event>): (r: Worker)
    requires w.started
    ensures r.roomId == w.roomId && r.filters == w.filters && r.started == w.started
  {
    w.(stats := Run(w.stats, w.filters, es))
  }

  /**
   * `stop_monitor()`: fails while no room exists; otherwise emits
   * `viewer_report` with the current sender set, then `finished`, and leaves
   * the worker as it was.
   */
  function StopMonitor(w: Worker): (r: Result<(Worker, seq<Signal>), WorkerError>)
    ensures !w.started <==> r.Failure?
    ensures r.Success? ==> r.value.0 == w
    ensures r.Success? ==> r.value.1 == [ViewerReport(w.stats.viewers), Finished]
  {
    if !w.started then Failure(NoRoom)
    else Success((w, [ViewerReport(w.stats.viewers), Finished]))
  }

  /**
   * The worker's handler and the handler of `core.py` decide, update and
   * report identically when they hold the same filters and statistics.
   */
  lemma HandlersAgree(w: Worker, m: CoreMonitor.Monitor, e: Event)
    requires w.started && m.room.Some?
    requires w.filters == m.filters && w.stats == m.stats
    ensures OnNewDanmu(w, e).0.stats == CoreMonitor.OnNewDanmu(m, e).0.stats
    ensures OnNewDanmu(w, e).1.Some? <==> CoreMonitor.OnNewDanmu(m, e).1.Some?
    ensures OnNewDanmu(w, e).1.Some? ==>
      OnNewDanmu(w, e).1.value
      == NewDanmu(CoreMonitor.OnNewDanmu(m, e).1.value.numDanmu, CoreMonitor.OnNewDanmu(m, e).1.value.numViewers)
  {
  }

  /**
   * Unlike `core.py`, stopping does not reset: a second stop reports the same
   * set again, and one session reports exactly the senders of its accepted events.
   */
  lemma StopDoesNotReset(roomId: int, paizi: Option<string>, keyword: Option<string>, es: seq<Event>)
    ensures var w := Feed(StartMonitor(New(roomId, paizi, keyword)), es);
      && StopMonitor(w).Success?
      && StopMonitor(w).value.1 == [ViewerReport(Senders(Filters(paizi, keyword), es)), Finished]
      && StopMonitor(StopMonitor(w).value.0) == StopMonitor(w)
      && w.stats.numDanmu == |AcceptedIndices(Filters(paizi, keyword), es)|
  {
    FreshRunMatchesReference(Filters(paizi, keyword), es);
  }

  /**
   * After a session with at least one accepted event the two variants differ:
   * the second stop of `core.py` returns an empty set while the worker reports
   * the accepted senders again.
   */
  lemma VariantsDifferOnSecondStop(roomId: int, paizi: Option<string>, keyword: Option<string>, es: seq<Event>)
    requires exists i | 0 <= i < |es| :: Accepted(Filters(paizi, keyword), es[i])
    ensures var m := CoreMonitor.Feed(CoreMonitor.StartMonitor(CoreMonitor.New(), roomId, paizi, keyword), es);
      var w := Feed(StartMonitor(New(roomId, paizi, keyword)), es);
      && CoreMonitor.StopMonitor(m).Success?
      && CoreMonitor.StopMonitor(CoreMonitor.StopMonitor(m).value.0).Success?
      && CoreMonitor.StopMonitor(CoreMonitor.StopMonitor(m).value.0).value.1 == {}
      && StopMonitor(StopMonitor(w).value.0).value.1[0].viewers != {}
  {
    var f := Filters(paizi, keyword);
    var i :| 0 <= i < |es| && Accepted(f, es[i]);
    assert SenderName(es[i]).value in Senders(f, es);
    StopDoesNotReset(roomId, paizi, keyword, es);
  }
}
