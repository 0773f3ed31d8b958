/**
 * The event logic of the main window in `danmuji.py`: one button whose
 * caption decides whether a click starts monitoring or ends it with a draw,
 * the input normalisation before monitoring starts, and the draw itself.
 * Widgets are reduced to the values they display.
 */
module MainWindow {
  import opened Wrappers
  import opened Danmu
  import CoreMonitor
  import Text
  import Lottery

  const StartCaption := "开始统计"
  const StopCaption := "结束统计并抽奖"

  /** The window's observable state and its `Danmuku` monitor. */
  datatype Window = Window(
    buttonText: string,
    buttonEnabled: bool,
    lcd: Report,
    resultText: string,
    danmuku: CoreMonitor.Monitor)

  /** What a click on the main button sets off. */
  datatype Action = BeginMonitoring | BeginLottery

  /** Why `start_monitor` gave up before a monitor was started. */
  datatype InputError = EmptyRoomId | NotAnInteger

  /** `lottery_button_on_click`: the caption `开始统计` starts monitoring, any other caption the draw. */
  function Dispatch(buttonText: string): (a: Action)
    ensures a == BeginMonitoring <==> buttonText == StartCaption
    ensures a == BeginLottery <==> buttonText != StartCaption
  {
    if buttonText == StartCaption then BeginMonitoring else BeginLottery
  }

  /**
   * `start_monitor`: clears the displays, rejects an empty room id (and one
   * `int()` cannot read), and otherwise starts the monitor with the stripped
   * filter texts and switches the caption to `结束统计并抽奖`.
   */
  function StartMonitor(w: Window, roomIdText: string, paiziText: string, keywordText: string)
    : (r: (Window, Option<InputError>))
    ensures r.0.lcd == Report(0, 0) && r.0.resultText == ""
    ensures r.0.buttonEnabled == w.buttonEnabled
    ensures roomIdText == "" ==> r.1 == Some(EmptyRoomId)
    ensures r.1.None? <==> Text.ParseInt(roomIdText).Some?
    ensures r.1.Some? ==> r.0.danmuku == w.danmuku && r.0.buttonText == w.buttonText
    ensures r.1.None? ==>
      && r.0.danmuku.room == Text.ParseInt(roomIdText)
      && r.0.danmuku.filters == Filters(Some(Text.Strip(paiziText)), Some(Text.Strip(keywordText)))
      && r.0.danmuku.stats == w.danmuku.stats
      && r.0.buttonText == StopCaption
  {
    var cleared := w.(lcd := Report(0, 0), resultText := "");
    if roomIdText == "" then
      (cleared, Some(EmptyRoomId))
    else
      match Text.ParseInt(roomIdText)
      case None => (cleared, Some(NotAnInteger))
      case Some(roomId) =>
        var paizi := Text.Strip(paiziText);
        var keyword := Text.Strip(keywordText);
        var m := CoreMonitor.StartMonitor(w.danmuku, roomId, Some(paizi), Some(keyword));
        (cleared.(danmuku := m, buttonText := StopCaption), None)
  }

  /** `update_lcd` as the monitor's callback: an accepted event shows the new totals. */
  function OnDanmu(w: Window, e: Event): (r: Window)
    requires w.danmuku.room.Some?
    ensures r.danmuku == CoreMonitor.OnNewDanmu(w.danmuku, e).0
    ensures Accepted(w.danmuku.filters, e) ==>
      var s' := w.danmuku.stats.viewers + {SenderName(e).value};
      r.lcd == Report(w.danmuku.stats.numDanmu + 1, |s'|)
    ensures r.buttonText == w.buttonText && r.buttonEnabled == w.buttonEnabled && r.resultText == w.resultText
    ensures Accepted(w.danmuku.filters, e) ==>
      r.lcd == Report(r.danmuku.stats.numDanmu, |r.danmuku.stats.viewers|)
    ensures !Accepted(w.danmuku.filters, e) ==> r == w
  {
    var (m, report) := CoreMonitor.OnNewDanmu(w.danmuku, e);
    if report.Some? then w.(danmuku := m, lcd := report.value) else w.(danmuku := m)
  }

  /** `list(viewer_set)`: the set's elements in some order, each once. */
  method ListOf(s: set<string>) returns (r: seq<string>)
    ensures |r| == |s|
    ensures forall x :: x in r <==> x in s
    ensures forall i, j | 0 <= i < j < |r| :: r[i] != r[j]
  {
    r := [];
    var rest := s;
    while rest != {}
      invariant rest <= s
      invariant forall x :: x in r <==> x in s && x !in rest
      invariant forall i, j | 0 <= i < j < |r| :: r[i] != r[j]
      invariant |r| + |rest| == |s|
      decreases |rest|
    {
      var x :| x in rest;
      r := r + [x];
      rest := rest - {x};
    }
  }

  /**
   * `start_lottery`: disables the button and stops the monitor. If the
   * monitor never had a room the stop raises and the button stays disabled.
   * Otherwise every frame of the animation shows a collected sender, the last
   * one stays in the result box, and the button comes back enabled with the
   * caption `开始统计`.
   */
  method StartLottery(w: Window) returns (r: Window, frames: seq<Lottery.Frame>)
    ensures w.danmuku.room.None? ==> r == w.(buttonEnabled := false) && frames == []
    ensures w.danmuku.room.Some? ==>
      && r.buttonEnabled && r.buttonText == StartCaption
      && r.danmuku == w.danmuku.(stats := Init)
      && r.lcd == w.lcd
    ensures w.danmuku.room.Some? ==>
      (frames == [] <==> w.danmuku.stats.viewers == {})
    ensures w.danmuku.room.Some? && frames != [] ==> |frames| == |Lottery.Schedule()|
    ensures forall i | 0 <= i < |frames| :: frames[i].shown in w.danmuku.stats.viewers
    ensures forall i | 0 <= i < |frames| :: frames[i].delayMs == Lottery.Schedule()[i]
    ensures w.danmuku.room.Some? ==>
      r.resultText == (if frames == [] then w.resultText else frames[|frames| - 1].shown)
  {
    var disabled := w.(buttonEnabled := false);
    match CoreMonitor.StopMonitor(w.danmuku)
    case Failure(_) =>
      r, frames := disabled, [];
    case Success((m, viewers)) =>
      var candidates := ListOf(viewers);
      frames := Lottery.Animate(candidates);
      var shown := if frames == [] then w.resultText else frames[|frames| - 1].shown;
      r := disabled.(danmuku := m, resultText := shown, buttonEnabled := true, buttonText := StartCaption);
  }

  /** `lottery_button_on_click`: the action the caption selects, applied to the window. */
  method Click(w: Window, roomIdText: string, paiziText: string, keywordText: string)
    returns (r: Window, frames: seq<Lottery.Frame>)
    ensures w.buttonText == StartCaption ==>
      r == StartMonitor(w, roomIdText, paiziText, keywordText).0 && frames == []
    ensures w.buttonText != StartCaption && w.danmuku.room.Some? ==>
      r.buttonEnabled && r.buttonText == StartCaption && r.danmuku.stats == Init
    ensures w.buttonText != StartCaption && w.danmuku.room.None? ==>
      r == w.(buttonEnabled := false) && frames == []
    ensures forall i | 0 <= i < |frames| :: frames[i].shown in w.danmuku.stats.viewers
  {
    match Dispatch(w.buttonText)
    case BeginMonitoring =>
      r := StartMonitor(w, roomIdText, paiziText, keywordText).0;
      frames := [];
    case BeginLottery =>
      r, frames := StartLottery(w);
  }

  /**
   * Starting a round from clean statistics installs the stripped filters and
   * the stop caption, and the senders collected from any events afterwards
   * are exactly the senders of the events those filters accept.
   */
  lemma RoundCandidates(w: Window, roomIdText: string, paiziText: string, keywordText: string, es: seq<Event>)
    requires w.danmuku.stats == Init
    requires Text.ParseInt(roomIdText).Some?
    ensures var started := StartMonitor(w, roomIdText, paiziText, keywordText).0;
      var f := Filters(Some(Text.Strip(paiziText)), Some(Text.Strip(keywordText)));
      && started.danmuku.filters == f
      && CoreMonitor.Feed(started.danmuku, es).stats.viewers == Senders(f, es)
      && started.buttonText == StopCaption
  {
    var f := Filters(Some(Text.Strip(paiziText)), Some(Text.Strip(keywordText)));
    FreshRunMatchesReference(f, es);
  }
}
