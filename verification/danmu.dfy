/**
 * The chat-message ("danmu") filter and aggregator shared by `core.py` and
 * `live_danmu.py`: field extraction from a `DANMU_MSG` event, the two optional
 * filters (tag "paizi" and keyword), and the running statistics
 * `(num_danmu, viewer_set)` that every accepted event updates.
 */
module Danmu {
  import opened Wrappers

  /**
   * The pieces of a `DANMU_MSG` event's `info` list that the handler reads:
   * `info[1]` is the message, `info[2]` the sender record (its element 1 is
   * the sender's name) and `info[3]` the medal ("paizi") record (its element 1
   * is the medal name, when present). Elements other than index 1 are kept
   * only for their count.
   */
  datatype Event = Event(msg: string, viewer: seq<string>, tag: seq<string>)

  /** The two optional filters; `None` stands for Python's `None`. */
  datatype Filters = Filters(paizi: Option<string>, keyword: Option<string>)

  /** What the handler reports after an accepted event: `(num_danmu, len(viewer_set))`. */
  datatype Report = Report(numDanmu: nat, numViewers: nat)

  /** The handler's state: the count of accepted events and the distinct sender names. */
  datatype Stats = Stats(numDanmu: nat, viewers: set<string>)

  /** The state of a freshly constructed monitor. */
  const Init := Stats(0, {})

  /** A filter imposes no constraint when it is falsy: `None` or the empty string. */
  predicate Unset(f: Option<string>) {
    f.None? || f.value == ""
  }

  /** `viewer[1]`; `None` where the source's indexing raises `IndexError`. */
  function SenderName(e: Event): Option<string> {
    if |e.viewer| >= 2 then Some(e.viewer[1]) else None
  }

  /** `tag[1]` when the medal record has at least two elements, otherwise `""`. */
  function TagName(e: Event): string {
    if |e.tag| < 2 then "" else e.tag[1]
  }

  /** `p` occurs in `s` starting at index `i`. */
  ghost predicate OccursAt(s: string, p: string, i: nat) {
    i + |p| <= |s| && s[i..i + |p|] == p
  }

  /** An occurrence not at the front of `s` is an occurrence in `s[1..]`, one place earlier. */
  lemma ShiftOccurrence(s: string, p: string)
    requires |s| > 0
    requires !(|p| <= |s| && s[..|p|] == p)
    ensures (exists i: nat :: OccursAt(s, p, i)) <==> (exists i: nat :: OccursAt(s[1..], p, i))
  {
    forall i: nat | OccursAt(s[1..], p, i) ensures OccursAt(s, p, i + 1) {
      assert s[1..][i..i + |p|] == s[i + 1..i + 1 + |p|];
    }
    forall i: nat | OccursAt(s, p, i) ensures i >= 1 && OccursAt(s[1..], p, i - 1) {
      if i >= 1 {
        assert s[1..][i - 1..i - 1 + |p|] == s[i..i + |p|];
      }
    }
  }

  /** Python's `p in s` on strings: a case-sensitive substring test. */
  function Contains(s: string, p: string): (r: bool)
    ensures r <==> exists i: nat :: OccursAt(s, p, i)
    decreases |s|
  {
    if |p| <= |s| && s[..|p|] == p then
      assert OccursAt(s, p, 0);
      true
    else if |s| == 0 then
      false
    else
      ShiftOccurrence(s, p);
      Contains(s[1..], p)
  }

  /** A pattern whose first character never appears in `s` does not occur in `s`. */
  lemma FirstCharAbsent(s: string, p: string)
    requires |p| > 0
    requires forall j | 0 <= j < |s| :: s[j] != p[0]
    ensures !Contains(s, p)
  {
  }

  /** The acceptance test on the extracted fields (core.py line 37, live_danmu.py line 57). */
  predicate Passes(f: Filters, msg: string, tagName: string) {
    && (Unset(f.paizi) || f.paizi.value == tagName)
    && (Unset(f.keyword) || Contains(msg, f.keyword.value))
  }

  /** An event is recorded when its sender name can be extracted and it passes both filters. */
  predicate Accepted(f: Filters, e: Event) {
    SenderName(e).Some? && Passes(f, e.msg, TagName(e))
  }

  /** The handler's invariant: there are never more distinct senders than recorded events. */
  predicate Valid(s: Stats) {
    |s.viewers| <= s.numDanmu
  }

  /**
   * One run of `on_new_danmu`: an accepted event adds one to the count and its
   * sender to the set and reports the updated totals; any other event changes
   * nothing and reports nothing.
   */
  function Step(s: Stats, f: Filters, e: Event): (r: (Stats, Option<Report>))
    ensures r.1.Some? <==> Accepted(f, e)
    ensures r.1.Some? ==> r.1.value == Report(r.0.numDanmu, |r.0.viewers|)
    ensures Accepted(f, e) ==> r.0.numDanmu == s.numDanmu + 1
    ensures Accepted(f, e) ==> r.0.viewers == s.viewers + {SenderName(e).value}
    ensures Accepted(f, e) && SenderName(e).value in s.viewers ==> |r.0.viewers| == |s.viewers|
    ensures !Accepted(f, e) ==> r.0 == s
    ensures Valid(s) ==> Valid(r.0)
  {
    if Accepted(f, e) then
      var name := SenderName(e).value;
      var s' := Stats(s.numDanmu + 1, s.viewers + {name});
      assert name in s.viewers ==> s'.viewers == s.viewers;
      (s', Some(Report(s'.numDanmu, |s'.viewers|)))
    else
      (s, None)
  }

  /** The state after handling `es` in order, starting from `s`. */
  function Run(s: Stats, f: Filters, es: seq<Event>): Stats
    decreases |es|
  {
    if es == [] then s else Step(Run(s, f, es[..|es| - 1]), f, es[|es| - 1]).0
  }

  /** The reports (callback arguments) produced while handling `es` in order. */
  function Reports(s: Stats, f: Filters, es: seq<Event>): seq<Report>
    decreases |es|
  {
    if es == [] then []
    else
      var prefix := es[..|es| - 1];
      var r := Step(Run(s, f, prefix), f, es[|es| - 1]).1;
      Reports(s, f, prefix) + (if r.Some? then [r.value] else [])
  }

  /** Reference definition: the positions of the accepted events in `es`. */
  ghost function AcceptedIndices(f: Filters, es: seq<Event>): set<nat> {
    set i: nat | i < |es| && Accepted(f, es[i])
  }

  /** Reference definition: the sender names of the accepted events in `es`. */
  ghost function Senders(f: Filters, es: seq<Event>): set<string> {
    set i: nat | i < |es| && Accepted(f, es[i]) :: SenderName(es[i]).value
  }

  /** Splitting off the last event adds its index to the accepted positions exactly when it is accepted. */
  lemma AcceptedIndicesSnoc(f: Filters, es: seq<Event>)
    requires es != []
    ensures var n := |es| - 1;
      AcceptedIndices(f, es)
      == AcceptedIndices(f, es[..n]) + (if Accepted(f, es[n]) then {n} else {})
    ensures |es| - 1 !in AcceptedIndices(f, es[..|es| - 1])
  {
  }

  /** Splitting off the last event adds its sender exactly when it is accepted. */
  lemma SendersSnoc(f: Filters, es: seq<Event>)
    requires es != []
    ensures var n := |es| - 1;
      Senders(f, es)
      == Senders(f, es[..n]) + (if Accepted(f, es[n]) then {SenderName(es[n]).value} else {})
  {
  }

  /**
   * Folding the handler over `es` adds to the count exactly the number of
   * accepted events and to the set exactly the senders of accepted events.
   */
  lemma {:induction false} RunCounts(s: Stats, f: Filters, es: seq<Event>)
    ensures Run(s, f, es).numDanmu == s.numDanmu + |AcceptedIndices(f, es)|
    ensures Run(s, f, es).viewers == s.viewers + Senders(f, es)
    decreases |es|
  {
    if es == [] {
      assert AcceptedIndices(f, es) == {};
      assert Senders(f, es) == {};
    } else {
      var n := |es| - 1;
      RunCounts(s, f, es[..n]);
      AcceptedIndicesSnoc(f, es);
      SendersSnoc(f, es);
    }
  }

  /** From a fresh state: the count is the number of accepted events and the set their senders. */
  lemma FreshRunMatchesReference(f: Filters, es: seq<Event>)
    ensures Run(Init, f, es) == Stats(|AcceptedIndices(f, es)|, Senders(f, es))
  {
    RunCounts(Init, f, es);
  }

  /** The invariant `len(viewer_set) <= num_danmu` holds after any sequence of events. */
  lemma {:induction false} RunKeepsValid(s: Stats, f: Filters, es: seq<Event>)
    requires Valid(s)
    ensures Valid(Run(s, f, es))
    decreases |es|
  {
    if es != [] {
      RunKeepsValid(s, f, es[..|es| - 1]);
    }
  }

  /** Counting never goes backwards, and the sender set only grows. */
  lemma {:induction false} RunMonotone(s: Stats, f: Filters, es: seq<Event>)
    ensures Run(s, f, es).numDanmu >= s.numDanmu
    ensures s.viewers <= Run(s, f, es).viewers
  {
    RunCounts(s, f, es);
  }

  /**
   * The callback's k-th invocation (from 0) carries the count
   * `s.numDanmu + k + 1` and, from a valid state, never more senders than
   * events; the last one carries the final totals, and the final count is the
   * starting count plus the number of invocations.
   */
  lemma {:induction false} ReportsTrace(s: Stats, f: Filters, es: seq<Event>)
    requires Valid(s)
    ensures Run(s, f, es).numDanmu == s.numDanmu + |Reports(s, f, es)|
    ensures forall k | 0 <= k < |Reports(s, f, es)| ::
      Reports(s, f, es)[k].numDanmu == s.numDanmu + k + 1
      && Reports(s, f, es)[k].numViewers <= Reports(s, f, es)[k].numDanmu
    ensures Reports(s, f, es) != [] ==>
      Reports(s, f, es)[|Reports(s, f, es)| - 1]
      == Report(Run(s, f, es).numDanmu, |Run(s, f, es).viewers|)
    decreases |es|
  {
    if es != [] {
      var n := |es| - 1;
      var prefix := es[..n];
      var before := Run(s, f, prefix);
      var out := Step(before, f, es[n]);
      ReportsTrace(s, f, prefix);
      RunKeepsValid(s, f, prefix);
      assert Run(s, f, es) == out.0;
      assert Reports(s, f, es) == Reports(s, f, prefix) + (if out.1.Some? then [out.1.value] else []);
    }
  }

  /** The callback is invoked exactly once per accepted event, from any starting state. */
  lemma {:induction false} ReportsCount(s: Stats, f: Filters, es: seq<Event>)
    ensures |Reports(s, f, es)| == |AcceptedIndices(f, es)|
    decreases |es|
  {
    if es == [] {
      assert AcceptedIndices(f, es) == {};
    } else {
      var n := |es| - 1;
      var prefix := es[..n];
      var out := Step(Run(s, f, prefix), f, es[n]);
      ReportsCount(s, f, prefix);
      AcceptedIndicesSnoc(f, es);
      assert Reports(s, f, es) == Reports(s, f, prefix) + (if out.1.Some? then [out.1.value] else []);
    }
  }

  /** A medal record shorter than two elements reads as `""`, so a non-empty paizi filter rejects the event. */
  lemma ShortTagNeverMatches(f: Filters, e: Event)
    requires |e.tag| < 2
    requires f.paizi.Some? && f.paizi.value != ""
    ensures !Accepted(f, e)
  {
  }

  /** Tag filter "A" rejects an event wearing the "B" medal, whatever the keyword filter. */
  lemma OtherTagRejects(keyword: Option<string>, e: Event)
    requires |e.tag| >= 2 && e.tag[1] == "B"
    ensures !Accepted(Filters(Some("A"), keyword), e)
  {
  }

  /**
   * With tag filter "fan", two "gg" messages from alice wearing the "fan"
   * medal and one from bob without a medal give a count of 2 and the single
   * sender alice: the repeat sender is counted twice but listed once.
   */
  lemma FanScenario()
    ensures var f := Filters(Some("fan"), None);
      var es := [Event("gg", ["1", "alice"], ["20", "fan"]),
                 Event("gg", ["1", "alice"], ["20", "fan"]),
                 Event("hi", ["2", "bob"], [])];
      Run(Init, f, es) == Stats(2, {"alice"})
  {
    var f := Filters(Some("fan"), None);
    var alice := Event("gg", ["1", "alice"], ["20", "fan"]);
    var bob := Event("hi", ["2", "bob"], []);
    var es := [alice, alice, bob];
    assert es[..2][..1] == [alice];
    assert es[..2] == [alice, alice];
    assert Run(Init, f, [alice]) == Stats(1, {"alice"});
    assert Run(Init, f, [alice, alice]) == Stats(2, {"alice"});
    assert !Accepted(f, bob);
  }

  /** With keyword "hello", "say hello world" is accepted. */
  lemma KeywordAccepts()
    ensures Accepted(Filters(None, Some("hello")), Event("say hello world", ["1", "ann"], []))
  {
  }

  /** With keyword "hello", "say goodbye" is rejected. */
  lemma KeywordRejects()
    ensures !Accepted(Filters(None, Some("hello")), Event("say goodbye", ["1", "ann"], []))
  {
    FirstCharAbsent("say goodbye", "hello");
  }
}
