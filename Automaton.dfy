// The macro sequencer of Joystick.c as a pure state machine: the phase
// (State_t) and the global counters form a State, and one call of
// GetNextReport is the pair Emit (the report it fills) and Advance (how it
// leaves the counters). The four script tables are a parameter, a Program,
// so that the general lemmas hold for any non-empty tables; Macro is the
// program Joystick.c ships. The class in Sequencer.dfy is proved against
// these functions instantiated with Macro.

module Automaton {
  import opened Controller
  import Scripts

  /** The phase variable `state` (State_t). */
  datatype Phase = SyncController | BuyItem | FeedItem | AfterFeed

  /** How many times FEED replays its script per visit (feed_time's start value). */
  const FeedRepeats: int := 10

  /** The globals GetNextReport reads and writes between calls. */
  datatype State = State(phase: Phase, bufindex: int, durationCount: int, feedTime: int, portsval: int)

  /** The four script tables, one per phase. */
  datatype Program = Program(sync: seq<Command>, buy: seq<Command>, feed: seq<Command>, afterFeed: seq<Command>)

  /** The tables of Joystick.c. */
  const Macro: Program := Program(Scripts.SyncControllerSteps, Scripts.BuyItemSteps, Scripts.FeedItemSteps, Scripts.AfterFeedSteps)

  /** The script phase `p` walks. */
  function Script(prog: Program, p: Phase): seq<Command>
  {
    match p
    case SyncController => prog.sync
    case BuyItem => prog.buy
    case FeedItem => prog.feed
    case AfterFeed => prog.afterFeed
  }

  /** Every table has a step, so the end-of-script test `bufindex >
      length - 1` leaves an index that is in bounds. */
  predicate WellFormed(prog: Program)
  {
    prog.sync != [] && prog.buy != [] && prog.feed != [] && prog.afterFeed != []
  }

  lemma MacroWellFormed()
    ensures WellFormed(Macro)
    ensures |Script(Macro, SyncController)| == 7 && |Script(Macro, BuyItem)| == 28
    ensures |Script(Macro, FeedItem)| == 6 && |Script(Macro, AfterFeed)| == 8
  {
  }

  /** The phase that follows a completed visit of `p`. */
  function Successor(p: Phase): (q: Phase)
    ensures q != SyncController && q != p
  {
    match p
    case SyncController => BuyItem
    case BuyItem => FeedItem
    case FeedItem => AfterFeed
    case AfterFeed => BuyItem
  }

  /** C's bitwise complement `~x` on a two's-complement int. */
  function Not(x: int): (y: int)
    ensures x == 0 <==> y == -1
    ensures x == -1 <==> y == 0
  {
    -x - 1
  }

  /** State at power-up: the initialisers of `state`, `bufindex`,
      `duration_count`, `feed_time` and `portsval`. */
  function Init(): (s: State)
    ensures s.phase == SyncController && s.bufindex == 0 && s.durationCount == 0
    ensures s.feedTime == FeedRepeats && s.portsval == 0
  {
    State(SyncController, 0, 0, FeedRepeats, 0)
  }

  /** What GetNextReport needs to be memory-safe: the table lookup
      `script[bufindex]` is in bounds. */
  predicate InBounds(prog: Program, s: State)
  {
    0 <= s.bufindex < |Script(prog, s.phase)|
  }

  /** The invariant that holds between calls from Init on. */
  predicate Valid(prog: Program, s: State)
    ensures Valid(prog, s) ==> InBounds(prog, s) && 0 <= s.durationCount
  {
    InBounds(prog, s) &&
    0 <= s.durationCount <= Script(prog, s.phase)[s.bufindex].duration as int &&
    1 <= s.feedTime <= FeedRepeats &&
    (s.phase != FeedItem ==> s.feedTime == FeedRepeats) &&
    (s.portsval == 0 || s.portsval == -1)
  }

  /** The report of a step with symbol `b` in phase `p`: the per-phase
      switch of GetNextReport applied to a freshly neutral report. A
      symbol the phase has no case for leaves the report neutral. */
  function Press(p: Phase, b: Button): (r: Report)
    ensures r.lx == r.ly == r.rx == r.ry == StickCenter
    ensures r.hat == HatLeft <==> p == BuyItem && b == Left
    ensures r.hat != HatLeft ==> r.hat == HatCenter
    ensures b == Nothing ==> r == NeutralReport()
  {
    var r := NeutralReport();
    match p
    case SyncController =>
      (match b
       case Triggers => r.(buttons := r.buttons + {SwitchL, SwitchR})
       case A => r.(buttons := r.buttons + {SwitchA})
       case Nothing => Recentre(r)
       case _ => r)
    case BuyItem =>
      (match b
       case Left => r.(hat := HatLeft)
       case A => r.(buttons := r.buttons + {SwitchA})
       case B => r.(buttons := r.buttons + {SwitchB})
       case Plus => r.(buttons := r.buttons + {SwitchPlus})
       case Nothing => Recentre(r)
       case _ => r)
    case FeedItem =>
      (match b
       case A => r.(buttons := r.buttons + {SwitchA})
       case Nothing => Recentre(r)
       case _ => r)
    case AfterFeed =>
      (match b
       case B => r.(buttons := r.buttons + {SwitchB})
       case Nothing => Recentre(r)
       case _ => r)
  }

  /** The symbols each phase's switch has a case for. */
  function Handled(p: Phase): set<Button>
  {
    match p
    case SyncController => {Triggers, A, Nothing}
    case BuyItem => {Left, A, B, Plus, Nothing}
    case FeedItem => {A, Nothing}
    case AfterFeed => {B, Nothing}
  }

  /** The effect of a symbol on a neutral report, independent of the phase. */
  function Effect(b: Button): Report
  {
    var r := NeutralReport();
    match b
    case Triggers => r.(buttons := {SwitchL, SwitchR})
    case A => r.(buttons := {SwitchA})
    case B => r.(buttons := {SwitchB})
    case Plus => r.(buttons := {SwitchPlus})
    case Left => r.(hat := HatLeft)
    case _ => r
  }

  /** The report one call fills in. */
  function Emit(prog: Program, s: State): (r: Report)
    requires InBounds(prog, s)
    ensures r.lx == r.ly == r.rx == r.ry == StickCenter
    ensures var b := Script(prog, s.phase)[s.bufindex].button;
      r != NeutralReport() <==> b in Handled(s.phase) && b != Nothing
  {
    Press(s.phase, Script(prog, s.phase)[s.bufindex].button)
  }

  /** The end-of-script branch of phase `s.phase`: reset the index and, for
      every phase but FEED, flash the port and move to the successor; FEED
      counts down `feed_time` and only leaves (resetting it) when it drops
      below 1. */
  function Wrap(s: State): (w: State)
    ensures w.bufindex == 0 && w.durationCount == s.durationCount
    ensures w.phase == s.phase || w.phase == Successor(s.phase)
    ensures w.portsval == if w.phase != s.phase then Not(s.portsval) else s.portsval
    ensures w.phase == s.phase ==> s.phase == FeedItem && w.feedTime == s.feedTime - 1 >= 1
  {
    var s := s.(bufindex := 0);
    if s.phase == FeedItem then
      var s := s.(feedTime := s.feedTime - 1);
      if s.feedTime < 1 then
        s.(portsval := Not(s.portsval), phase := AfterFeed, feedTime := FeedRepeats)
      else s
    else
      s.(portsval := Not(s.portsval), phase := Successor(s.phase))
  }

  /** The counters as one call leaves them. */
  function Advance(prog: Program, s: State): (t: State)
    requires WellFormed(prog) && InBounds(prog, s)
    ensures InBounds(prog, t)
  {
    var script := Script(prog, s.phase);
    var s := s.(durationCount := s.durationCount + 1);
    var s := if s.durationCount > script[s.bufindex].duration as int then s.(bufindex := s.bufindex + 1, durationCount := 0) else s;
    if s.bufindex > |script| - 1 then Wrap(s) else s
  }

  /** The state after `n` calls. */
  function Iterate(prog: Program, s: State, n: nat): (t: State)
    requires WellFormed(prog) && InBounds(prog, s)
    ensures InBounds(prog, t)
    decreases n
  {
    if n == 0 then s else Iterate(prog, Advance(prog, s), n - 1)
  }

  // ----- Properties of one call -----

  /** A symbol drives the report exactly as its own effect when the phase
      has a case for it, and leaves it neutral otherwise. */
  lemma PressMatchesTable(p: Phase, b: Button)
    ensures Press(p, b) == if b in Handled(p) then Effect(b) else NeutralReport()
  {
  }

  /** A report differs from the neutral one exactly when the step's symbol
      is one the phase handles and is not NOTHING. */
  lemma PressNeutralIff(p: Phase, b: Button)
    ensures Press(p, b) != NeutralReport() <==> b in Handled(p) && b != Nothing
  {
  }

  /** Each call counts one more call on the current step; the step index
      moves on, with the count reset, exactly when the count passes the
      step's duration, and only then can the script end. */
  lemma AdvanceCounts(prog: Program, s: State)
    requires WellFormed(prog) && InBounds(prog, s)
    ensures var t := Advance(prog, s); var script := Script(prog, s.phase);
      if s.durationCount + 1 > script[s.bufindex].duration as int then
        if s.bufindex + 1 < |script| then t == s.(bufindex := s.bufindex + 1, durationCount := 0)
        else t == Wrap(s.(durationCount := 0))
      else t == s.(durationCount := s.durationCount + 1)
  {
  }

  /** Phases only move along SYNC -> BUY -> FEED -> AFTER_FEED -> BUY, and
      no call enters SYNC. */
  lemma AdvancePhase(prog: Program, s: State)
    requires WellFormed(prog) && InBounds(prog, s)
    ensures Advance(prog, s).phase == s.phase || Advance(prog, s).phase == Successor(s.phase)
    ensures Advance(prog, s).phase == SyncController ==> s.phase == SyncController
  {
  }

  /** `portsval` is complemented exactly on the calls that change phase. */
  lemma PortsvalTogglesOnPhaseChange(prog: Program, s: State)
    requires WellFormed(prog) && InBounds(prog, s)
    ensures var t := Advance(prog, s);
      t.portsval == if t.phase != s.phase then Not(s.portsval) else s.portsval
  {
  }

  /** FEED counts down `feed_time` once per completed pass of its script,
      staying in FEED while the count is still positive, and leaves for
      AFTER_FEED, with `feed_time` back at 10, when it drops below 1. */
  lemma FeedCountdown(prog: Program, s: State)
    requires WellFormed(prog) && InBounds(prog, s) && s.phase == FeedItem
    ensures var t := Advance(prog, s);
      if s.bufindex == |prog.feed| - 1 && s.durationCount + 1 > prog.feed[s.bufindex].duration as int then
        t.bufindex == 0 && t.durationCount == 0 &&
        if s.feedTime > 1 then
          t.phase == FeedItem && t.feedTime == s.feedTime - 1 && t.portsval == s.portsval
        else
          t.phase == AfterFeed && t.feedTime == FeedRepeats && t.portsval == Not(s.portsval)
      else t.phase == FeedItem && t.feedTime == s.feedTime && t.portsval == s.portsval
  {
  }

  /** The invariant holds at power-up and every call keeps it. */
  lemma InitValid(prog: Program)
    requires WellFormed(prog)
    ensures Valid(prog, Init())
  {
  }

  lemma AdvanceValid(prog: Program, s: State)
    requires WellFormed(prog) && Valid(prog, s)
    ensures Valid(prog, Advance(prog, s))
  {
  }

  /** In the shipped tables every step is held 5 to 300 calls, so between
      calls `duration_count` stays in 0..300 and `bufindex` below 28: both
      fit the 16-bit `int` of the target. */
  lemma MacroBounds(s: State)
    requires Valid(Macro, s)
    ensures 0 <= s.durationCount <= 300 && 0 <= s.bufindex < 28
    ensures 1 <= s.feedTime <= 10
  {
    Scripts.ScriptsWellFormed();
    assert Script(Macro, s.phase)[s.bufindex] in
      Scripts.SyncControllerSteps + Scripts.BuyItemSteps + Scripts.FeedItemSteps + Scripts.AfterFeedSteps;
  }

  /** Every step of the shipped tables names a symbol its phase has a case
      for, so no step of the macro is silently ignored. */
  lemma MacroUsesHandledSymbols(p: Phase, i: int)
    requires 0 <= i < |Script(Macro, p)|
    ensures Script(Macro, p)[i].button in Handled(p)
  {
  }

  // ----- Properties of runs -----

  /** No sequence of calls ever returns to SYNC once it is left. */
  lemma {:induction false} NeverResynchronises(prog: Program, s: State, n: nat)
    requires WellFormed(prog) && InBounds(prog, s) && s.phase != SyncController
    ensures Iterate(prog, s, n).phase != SyncController
    decreases n
  {
    if n > 0 {
      AdvancePhase(prog, s);
      NeverResynchronises(prog, Advance(prog, s), n - 1);
    }
  }

  /** The invariant holds after any number of calls from power-up. */
  lemma {:induction false} IterateValid(prog: Program, s: State, n: nat)
    requires WellFormed(prog) && Valid(prog, s)
    ensures Valid(prog, Iterate(prog, s, n))
    decreases n
  {
    if n > 0 {
      AdvanceValid(prog, s);
      IterateValid(prog, Advance(prog, s), n - 1);
    }
  }

  /** Calls compose: `m` calls then `n` calls are `m + n` calls. */
  lemma {:induction false} IterateAdd(prog: Program, s: State, m: nat, n: nat)
    requires WellFormed(prog) && InBounds(prog, s)
    ensures Iterate(prog, s, m + n) == Iterate(prog, Iterate(prog, s, m), n)
    decreases m
  {
    if m > 0 {
      var next := Advance(prog, s);
      assert Iterate(prog, s, m + n) == Iterate(prog, next, (m - 1) + n);
      IterateAdd(prog, next, m - 1, n);
    }
  }
}
