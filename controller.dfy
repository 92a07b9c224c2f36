/**
 * The controller side of the main loop (python/shiny_detector.py:60, 66-107).
 *
 * The serial link is modelled by whether it is connected, the lines already
 * received and decoded but not yet read (`inbox`; the link has input waiting
 * exactly when it is non-empty; new lines join its end between iterations)
 * and the replies written so far (`outbox`).
 * The encounter counter is the only other state kept across iterations.
 */
module Controller {
  import opened Wrappers
  import opened Frame
  import opened Classify
  import opened Trigger

  const ShinyReply := "shiny\n"
  const NotShinyReply := "not_shiny\n"

  /** The reply written for a recognised trigger, given this iteration's average colour. */
  function Reply(avg: Colour): string {
    if IsShiny(avg) then ShinyReply else NotShinyReply
  }

  /** The state that survives from one iteration to the next. */
  datatype LoopState = LoopState(count: nat, inbox: seq<string>, outbox: seq<string>)

  /**
   * One iteration's controller interaction: with no link or no waiting input
   * nothing happens; otherwise one line is read, and only the trigger line gets
   * a reply, "not_shiny" also counting one more encounter.
   */
  function Iteration(s: LoopState, connected: bool, avg: Colour): LoopState {
    if !connected || s.inbox == [] then s
    else if !IsTrigger(s.inbox[0]) then s.(inbox := s.inbox[1..])
    else if IsShiny(avg) then LoopState(s.count, s.inbox[1..], s.outbox + [ShinyReply])
    else LoopState(s.count + 1, s.inbox[1..], s.outbox + [NotShinyReply])
  }

  /** Lines that reach the link between two iterations join the waiting input. */
  function Arrive(s: LoopState, lines: seq<string>): LoopState {
    s.(inbox := s.inbox + lines)
  }

  /**
   * What one pass of the main loop sees of the outside world: the lines that
   * reached the link since the previous pass, and the average colour sampled
   * in this pass.
   */
  datatype Tick = Tick(arrived: seq<string>, avg: Colour)

  /** Iterations in sequence, each preceded by the lines that arrived before it. */
  function Run(s: LoopState, connected: bool, ticks: seq<Tick>): LoopState
    decreases |ticks|
  {
    if ticks == [] then s
    else Run(Iteration(Arrive(s, ticks[0].arrived), connected, ticks[0].avg), connected, ticks[1..])
  }

  /** Every line that arrives during the ticks, in order. */
  function Arrivals(ticks: seq<Tick>): seq<string> {
    if ticks == [] then [] else ticks[0].arrived + Arrivals(ticks[1..])
  }

  /** The lines in a read log, in order; `taken[k]` is the line the k-th iteration read, if any. */
  function Taken(taken: seq<Option<string>>): seq<string> {
    if taken == [] then [] else (if taken[0].Some? then [taken[0].value] else []) + Taken(taken[1..])
  }

  /**
   * The replies owed for a read log: one for each trigger line read, classified
   * with the colour of the iteration that read it.
   */
  function Answers(taken: seq<Option<string>>, ticks: seq<Tick>): seq<string> {
    if taken == [] || ticks == [] then []
    else (if taken[0].Some? && IsTrigger(taken[0].value) then [Reply(ticks[0].avg)] else []) + Answers(taken[1..], ticks[1..])
  }

  /**
   * A read log in which the iterations take the lines in turn: no iteration
   * reads a line before it has arrived, and an iteration reads nothing only
   * when every line that `pending` and the arrivals so far supplied has
   * already been read.
   */
  predicate InTurn(pending: nat, ticks: seq<Tick>, taken: seq<Option<string>>) {
    |taken| == |ticks| &&
    (forall k :: 0 < k <= |ticks| ==> |Taken(taken[..k])| <= pending + |Arrivals(ticks[..k])|) &&
    (forall k :: 0 <= k < |ticks| && taken[k].None? ==> |Taken(taken[..k])| == pending + |Arrivals(ticks[..k + 1])|)
  }

  function Occurrences(s: seq<string>, x: string): nat {
    if s == [] then 0 else Occurrences(s[..|s| - 1], x) + (if s[|s| - 1] == x then 1 else 0)
  }

  /** The counter equals the number of "not_shiny" replies, and every reply is one of the two. */
  predicate Tallied(s: LoopState) {
    s.count == Occurrences(s.outbox, NotShinyReply) &&
    forall i :: 0 <= i < |s.outbox| ==> s.outbox[i] == ShinyReply || s.outbox[i] == NotShinyReply
  }

  lemma {:induction false} OccurrencesAppend(a: seq<string>, b: seq<string>, x: string)
    ensures Occurrences(a + b, x) == Occurrences(a, x) + Occurrences(b, x)
    decreases |b|
  {
    if b == [] {
      assert a + b == a;
    } else {
      var b' := b[..|b| - 1];
      assert (a + b)[..|a + b| - 1] == a + b';
      assert (a + b)[|a + b| - 1] == b[|b| - 1];
      OccurrencesAppend(a, b', x);
      assert Occurrences(a + b, x) == Occurrences(a + b', x) + (if b[|b| - 1] == x then 1 else 0);
    }
  }

  /**
   * `taken` is the read log of the connected run from `s` through `ticks`:
   * the iterations take the lines in turn, in the order they were waiting or
   * arrived, and what is unread is left waiting; the replies are one per
   * trigger read, classified with the colour sampled by the iteration that
   * read it, in order; the counter grows by the number of those replies that
   * are "not_shiny".
   */
  predicate Served(s: LoopState, ticks: seq<Tick>, taken: seq<Option<string>>) {
    var t := Run(s, true, ticks);
    && InTurn(|s.inbox|, ticks, taken)
    && s.inbox + Arrivals(ticks) == Taken(taken) + t.inbox
    && t.outbox == s.outbox + Answers(taken, ticks)
    && t.count == s.count + Occurrences(Answers(taken, ticks), NotShinyReply)
  }

  /**
   * Over any number of connected iterations, with lines arriving between
   * them, the run has a read log as `Served` describes.
   */
  lemma {:induction false} RunConnected(s: LoopState, ticks: seq<Tick>)
    ensures exists taken :: Served(s, ticks, taken)
    decreases |ticks|
  {
    if ticks == [] {
      var taken: seq<Option<string>> := [];
      assert s.inbox + [] == Taken(taken) + s.inbox;
      assert s.outbox == s.outbox + Answers(taken, ticks);
      assert Served(s, ticks, taken);
    } else {
      var s2 := Iteration(Arrive(s, ticks[0].arrived), true, ticks[0].avg);
      RunConnected(s2, ticks[1..]);
      var later :| Served(s2, ticks[1..], later);
      FirstRead(s, ticks, later);
    }
  }

  /**
   * The inductive step of RunConnected: the read log of a run is the first
   * iteration's read followed by the log of the rest of the run.
   */
  lemma {:induction false} FirstRead(s: LoopState, ticks: seq<Tick>, later: seq<Option<string>>)
    requires ticks != []
    requires Served(Iteration(Arrive(s, ticks[0].arrived), true, ticks[0].avg), ticks[1..], later)
    ensures var waiting := s.inbox + ticks[0].arrived;
      Served(s, ticks, [if waiting == [] then None else Some(waiting[0])] + later)
  {
    var waiting := s.inbox + ticks[0].arrived;
    var s2 := Iteration(Arrive(s, ticks[0].arrived), true, ticks[0].avg);
    var t := Run(s, true, ticks);
    assert t == Run(s2, true, ticks[1..]);
    if waiting == [] {
      ReadInTurn(|s.inbox|, |s2.inbox|, ticks, None, later);
      ReadNothing(s, ticks, later, t);
    } else {
      ReadInTurn(|s.inbox|, |s2.inbox|, ticks, Some(waiting[0]), later);
      ReadLine(s, ticks, later, t);
    }
  }

  /** The first iteration of a connected run takes its turn, and the later ones then take theirs. */
  lemma {:induction false} ReadInTurn(pending: nat, pending': nat, ticks: seq<Tick>, o: Option<string>, later: seq<Option<string>>)
    requires ticks != [] && InTurn(pending', ticks[1..], later)
    requires o.None? ==> pending + |ticks[0].arrived| == 0 && pending' == 0
    requires o.Some? ==> pending' + 1 == pending + |ticks[0].arrived|
    ensures InTurn(pending, ticks, [o] + later)
  {
    var taken := [o] + later;
    var rest := ticks[1..];
    var c := if o.Some? then 1 else 0;
    forall k | 0 < k <= |ticks|
      ensures |Taken(taken[..k])| <= pending + |Arrivals(ticks[..k])|
    {
      PrefixCounts(ticks, o, later, k - 1);
    }
    forall k | 0 <= k < |ticks| && taken[k].None?
      ensures |Taken(taken[..k])| == pending + |Arrivals(ticks[..k + 1])|
    {
      PrefixCounts(ticks, o, later, k);
      if k > 0 {
        PrefixCounts(ticks, o, later, k - 1);
        assert later[k - 1].None?;
      }
    }
  }

  /** How the read log and the arrivals of a run relate to those of the run without its first iteration. */
  lemma {:induction false} PrefixCounts(ticks: seq<Tick>, o: Option<string>, later: seq<Option<string>>, k: nat)
    requires ticks != [] && k < |ticks| && |later| == |ticks| - 1
    ensures |Taken(([o] + later)[..k + 1])| == (if o.Some? then 1 else 0) + |Taken(later[..k])|
    ensures Arrivals(ticks[..k + 1]) == ticks[0].arrived + Arrivals(ticks[1..][..k])
  {
    assert ([o] + later)[..k + 1][1..] == later[..k];
    assert ticks[..k + 1][1..] == ticks[1..][..k];
  }

  /** The first iteration of a connected run finds nothing waiting and reads nothing. */
  lemma {:induction false} ReadNothing(s: LoopState, ticks: seq<Tick>, later: seq<Option<string>>, t: LoopState)
    requires ticks != [] && s.inbox + ticks[0].arrived == []
    requires var s2 := Iteration(Arrive(s, ticks[0].arrived), true, ticks[0].avg);
      && s2.inbox + Arrivals(ticks[1..]) == Taken(later) + t.inbox
      && t.outbox == s2.outbox + Answers(later, ticks[1..])
      && t.count == s2.count + Occurrences(Answers(later, ticks[1..]), NotShinyReply)
    ensures s.inbox + Arrivals(ticks) == Taken([None] + later) + t.inbox
    ensures t.outbox == s.outbox + Answers([None] + later, ticks)
    ensures t.count == s.count + Occurrences(Answers([None] + later, ticks), NotShinyReply)
  {
    assert ([None] + later)[1..] == later;
    assert s.inbox == [] && ticks[0].arrived == [];
    assert Arrivals(ticks) == Arrivals(ticks[1..]);
    assert Taken([None] + later) == Taken(later);
    assert Answers([None] + later, ticks) == Answers(later, ticks[1..]);
  }

  /**
   * The first iteration of a connected run reads the oldest waiting line and
   * answers it if it is the trigger.
   */
  lemma {:induction false} ReadLine(s: LoopState, ticks: seq<Tick>, later: seq<Option<string>>, t: LoopState)
    requires ticks != [] && s.inbox + ticks[0].arrived != []
    requires var s2 := Iteration(Arrive(s, ticks[0].arrived), true, ticks[0].avg);
      && s2.inbox + Arrivals(ticks[1..]) == Taken(later) + t.inbox
      && t.outbox == s2.outbox + Answers(later, ticks[1..])
      && t.count == s2.count + Occurrences(Answers(later, ticks[1..]), NotShinyReply)
    ensures var o := Some((s.inbox + ticks[0].arrived)[0]);
      && s.inbox + Arrivals(ticks) == Taken([o] + later) + t.inbox
      && t.outbox == s.outbox + Answers([o] + later, ticks)
      && t.count == s.count + Occurrences(Answers([o] + later, ticks), NotShinyReply)
  {
    var waiting := s.inbox + ticks[0].arrived;
    var x := waiting[0];
    var s2 := Iteration(Arrive(s, ticks[0].arrived), true, ticks[0].avg);
    var first := if IsTrigger(x) then [Reply(ticks[0].avg)] else [];
    LogCons(x, later, ticks, first);
    ReadLineInbox(s.inbox, ticks, s2.inbox, x, Taken(later), t.inbox);
    assert s2.outbox == s.outbox + first && s2.count == s.count + Occurrences(first, NotShinyReply);
    AppendReplies(s.outbox, s.count, first, Answers(later, ticks[1..]), t.outbox, t.count);
  }

  lemma {:induction false} LogCons(x: string, later: seq<Option<string>>, ticks: seq<Tick>, first: seq<string>)
    requires ticks != [] && first == (if IsTrigger(x) then [Reply(ticks[0].avg)] else [])
    ensures Taken([Some(x)] + later) == [x] + Taken(later)
    ensures Answers([Some(x)] + later, ticks) == first + Answers(later, ticks[1..])
  {
    assert ([Some(x)] + later)[1..] == later;
  }

  lemma {:induction false} ReadLineInbox(inbox: seq<string>, ticks: seq<Tick>, rest: seq<string>, x: string, read: seq<string>, left: seq<string>)
    requires ticks != [] && inbox + ticks[0].arrived == [x] + rest
    requires rest + Arrivals(ticks[1..]) == read + left
    ensures inbox + Arrivals(ticks) == [x] + read + left
  {
    var later := Arrivals(ticks[1..]);
    calc {
      inbox + Arrivals(ticks);
      inbox + (ticks[0].arrived + later);
      (inbox + ticks[0].arrived) + later;
      [x] + rest + later;
      [x] + (rest + later);
      [x] + (read + left);
      [x] + read + left;
    }
  }

  lemma {:induction false} AppendReplies(outbox: seq<string>, count: nat, first: seq<string>, answers: seq<string>, outbox': seq<string>, count': nat)
    requires outbox' == outbox + first + answers
    requires count' == count + Occurrences(first, NotShinyReply) + Occurrences(answers, NotShinyReply)
    ensures outbox' == outbox + (first + answers)
    ensures count' == count + Occurrences(first + answers, NotShinyReply)
  {
    OccurrencesAppend(first, answers, NotShinyReply);
  }

  /** Without a link, any number of iterations performs no read, no write and no count; arriving lines just wait. */
  lemma {:induction false} RunDisconnected(s: LoopState, ticks: seq<Tick>)
    ensures Run(s, false, ticks) == Arrive(s, Arrivals(ticks))
    decreases |ticks|
  {
    if ticks == [] {
      assert s.inbox + [] == s.inbox;
    } else {
      var s1 := Arrive(s, ticks[0].arrived);
      RunDisconnected(s1, ticks[1..]);
      assert s1.inbox + Arrivals(ticks[1..]) == s.inbox + Arrivals(ticks);
    }
  }

  /** The counter never decreases, whatever the link does. */
  lemma {:induction false} CountNeverDecreases(s: LoopState, connected: bool, ticks: seq<Tick>)
    ensures Run(s, connected, ticks).count >= s.count
    decreases |ticks|
  {
    if ticks != [] {
      CountNeverDecreases(Iteration(Arrive(s, ticks[0].arrived), connected, ticks[0].avg), connected, ticks[1..]);
    }
  }

  lemma OccurrencesSnoc(a: seq<string>, x: string, y: string)
    ensures Occurrences(a + [x], y) == Occurrences(a, y) + (if x == y then 1 else 0)
  {
    OccurrencesAppend(a, [x], y);
    assert [x][..0] == [];
  }

  /** Each iteration keeps the counter equal to the number of "not_shiny" replies. */
  lemma IterationKeepsTally(s: LoopState, connected: bool, avg: Colour)
    requires Tallied(s)
    ensures Tallied(Iteration(s, connected, avg))
  {
    var t := Iteration(s, connected, avg);
    if connected && s.inbox != [] && IsTrigger(s.inbox[0]) {
      var reply := Reply(avg);
      assert t.outbox == s.outbox + [reply];
      assert t.count == s.count + (if reply == NotShinyReply then 1 else 0);
      OccurrencesSnoc(s.outbox, reply, NotShinyReply);
    } else {
      assert t.outbox == s.outbox && t.count == s.count;
    }
  }

  /** From a tallied state, the counter always equals the number of "not_shiny" replies, whatever arrives. */
  lemma {:induction false} RunKeepsTally(s: LoopState, connected: bool, ticks: seq<Tick>)
    requires Tallied(s)
    ensures Tallied(Run(s, connected, ticks))
    decreases |ticks|
  {
    if ticks != [] {
      var s1 := Arrive(s, ticks[0].arrived);
      IterationKeepsTally(s1, connected, ticks[0].avg);
      RunKeepsTally(Iteration(s1, connected, ticks[0].avg), connected, ticks[1..]);
    }
  }

  /**
   * Two trigger lines in a row, read in two iterations, are answered
   * independently, each with the colour sampled in its own iteration; lines
   * arriving meanwhile wait behind them.
   */
  lemma ConsecutiveTriggers(s: LoopState, tick1: Tick, tick2: Tick)
    requires |s.inbox| >= 2 && IsTrigger(s.inbox[0]) && IsTrigger(s.inbox[1])
    ensures Run(s, true, [tick1, tick2]).outbox == s.outbox + [Reply(tick1.avg), Reply(tick2.avg)]
    ensures Run(s, true, [tick1, tick2]).inbox == s.inbox[2..] + tick1.arrived + tick2.arrived
  {
    var s1 := Iteration(Arrive(s, tick1.arrived), true, tick1.avg);
    var s2 := Iteration(Arrive(s1, tick2.arrived), true, tick2.avg);
    AnswerOldest(s, tick1);
    assert s1.inbox[0] == s.inbox[1];
    AnswerOldest(s1, tick2);
    RunTwo(s, true, tick1, tick2);
    SecondInLine(s.inbox, tick1.arrived, tick2.arrived);
  }

  /** Two iterations in sequence. */
  lemma RunTwo(s: LoopState, connected: bool, tick1: Tick, tick2: Tick)
    ensures Run(s, connected, [tick1, tick2]) ==
      Iteration(Arrive(Iteration(Arrive(s, tick1.arrived), connected, tick1.avg), tick2.arrived), connected, tick2.avg)
  {
    var s1 := Iteration(Arrive(s, tick1.arrived), connected, tick1.avg);
    var s2 := Iteration(Arrive(s1, tick2.arrived), connected, tick2.avg);
    assert [tick1, tick2][1..] == [tick2] && [tick2][1..] == [];
    assert Run(s, connected, [tick1, tick2]) == Run(s1, connected, [tick2]);
    assert Run(s1, connected, [tick2]) == Run(s2, connected, []);
  }

  lemma SecondInLine(inbox: seq<string>, a1: seq<string>, a2: seq<string>)
    requires |inbox| >= 2
    ensures (inbox[1..] + a1)[1..] + a2 == inbox[2..] + a1 + a2
  {
    assert (inbox[1..] + a1)[1..] == inbox[2..] + a1;
  }

  /** A trigger at the head of the waiting input is read and answered, whatever arrives behind it. */
  lemma AnswerOldest(s: LoopState, tick: Tick)
    requires s.inbox != [] && IsTrigger(s.inbox[0])
    ensures Iteration(Arrive(s, tick.arrived), true, tick.avg).outbox == s.outbox + [Reply(tick.avg)]
    ensures Iteration(Arrive(s, tick.arrived), true, tick.avg).inbox == s.inbox[1..] + tick.arrived
  {
    assert (s.inbox + tick.arrived)[0] == s.inbox[0];
    assert (s.inbox + tick.arrived)[1..] == s.inbox[1..] + tick.arrived;
  }

  /**
   * The loop context: the link (connected or not, for the whole run), the
   * encounter counter, and the link's waiting input and written output.
   */
  class Detector {
    const connected: bool
    var count: nat
    var inbox: seq<string>
    var outbox: seq<string>

    function State(): LoopState
      reads this
    {
      LoopState(count, inbox, outbox)
    }

    ghost predicate Valid()
      reads this
    {
      Tallied(State())
    }

    /** Start of the run: the counter is 0 and nothing has been written. */
    constructor (connected: bool, pending: seq<string>)
      ensures Valid()
      ensures this.connected == connected && count == 0 && inbox == pending && outbox == []
    {
      this.connected := connected;
      count := 0;
      inbox := pending;
      outbox := [];
    }

    /** A line reaches the link and waits to be read. */
    method Receive(line: string)
      requires Valid()
      modifies this
      ensures Valid()
      ensures State() == Arrive(old(State()), [line])
    {
      inbox := inbox + [line];
    }

    /**
     * The controller part of one iteration, using the average colour sampled
     * earlier in the same iteration.
     */
    method Step(avg: Colour)
      requires Valid()
      modifies this
      ensures Valid()
      ensures State() == Iteration(old(State()), connected, avg)
    {
      ghost var s := State();
      IterationKeepsTally(s, connected, avg);
      if connected && |inbox| > 0 {
        var line := Strip(inbox[0]);
        assert line == TriggerToken <==> IsTrigger(s.inbox[0]);
        inbox := inbox[1..];
        if line == TriggerToken {
          if IsShiny(avg) {
            outbox := outbox + [ShinyReply];
          } else {
            outbox := outbox + [NotShinyReply];
            count := count + 1;
          }
          assert State() == LoopState(s.count + (if IsShiny(avg) then 0 else 1), s.inbox[1..], s.outbox + [Reply(avg)]);
        } else {
          assert State() == s.(inbox := s.inbox[1..]);
        }
      }
    }

    /**
     * One whole iteration of the main loop: sample the grabbed frame (drawing
     * the box into the frame that is previewed), then talk to the controller
     * with that sample.
     */
    method LoopIteration(grabbed: array2<Bgra>) returns (preview: array2<Bgr>)
      requires Valid()
      requires grabbed.Length0 > YEnd && grabbed.Length1 > XEnd
      modifies this
      ensures Valid()
      ensures fresh(preview) && GridOf(preview) == Boxed(ToBgr(GridOf(grabbed)))
      ensures State() == Iteration(old(State()), connected, SampleColour(GridOf(grabbed)))
    {
      var avg;
      preview, avg := SampleFrame(grabbed);
      Step(avg);
    }
  }
}
