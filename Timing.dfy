// How many GetNextReport calls each step, each script pass and each phase
// of the macro lasts: a step is held duration + 1 calls, a pass of a
// script lasts Ticks(script) calls, FEED repeats its pass ten times, and
// from power-up the phases follow one another at fixed call counts.

module Timing {
  import opened Controller
  import opened Scripts
  import opened Automaton

  /** The state one call after a step's last held call: the next step, or
      the end-of-script branch after the last one. */
  function NextStep(prog: Program, s: State): (t: State)
    requires WellFormed(prog) && InBounds(prog, s)
    ensures t.durationCount == 0
  {
    if s.bufindex + 1 < |Script(prog, s.phase)| then s.(bufindex := s.bufindex + 1, durationCount := 0)
    else Wrap(s.(durationCount := 0))
  }

  /** While the count stays within the step's duration, a call only counts. */
  lemma {:induction false} HoldStep(prog: Program, s: State, k: nat)
    requires WellFormed(prog) && InBounds(prog, s)
    requires s.durationCount + k <= Script(prog, s.phase)[s.bufindex].duration as int
    ensures Iterate(prog, s, k) == s.(durationCount := s.durationCount + k)
    decreases k
  {
    if k > 0 {
      AdvanceCounts(prog, s);
      HoldStep(prog, Advance(prog, s), k - 1);
    }
  }

  /** A step entered with count `c` moves on after exactly duration - c + 1
      calls; entered fresh (c = 0) it is held duration + 1 calls. */
  lemma StepDone(prog: Program, s: State)
    requires WellFormed(prog) && InBounds(prog, s)
    requires 0 <= s.durationCount <= Script(prog, s.phase)[s.bufindex].duration as int
    ensures var d := Script(prog, s.phase)[s.bufindex].duration as int;
      Iterate(prog, s, d - s.durationCount + 1) == NextStep(prog, s)
  {
    var d := Script(prog, s.phase)[s.bufindex].duration as int;
    var held := d - s.durationCount;
    IterateAdd(prog, s, held, 1);
    HoldStep(prog, s, held);
    AdvanceCounts(prog, s.(durationCount := d));
  }

  /** Calls past a fresh step that is not the last run on from the next step. */
  lemma NextStepThen(prog: Program, s: State, m: nat)
    requires WellFormed(prog) && InBounds(prog, s) && s.durationCount == 0
    requires s.bufindex + 1 < |Script(prog, s.phase)|
    ensures var d := Script(prog, s.phase)[s.bufindex].duration as int;
      Iterate(prog, s, d + 1 + m) == Iterate(prog, s.(bufindex := s.bufindex + 1, durationCount := 0), m)
  {
    var d := Script(prog, s.phase)[s.bufindex].duration as int;
    StepDone(prog, s);
    IterateAdd(prog, s, d + 1, m);
  }

  /** Walking a script from step `i` with a fresh count reaches the
      end-of-script branch after exactly the calls of steps i.. . */
  lemma {:induction false} Traverse(prog: Program, s: State)
    requires WellFormed(prog) && InBounds(prog, s) && s.durationCount == 0
    ensures Iterate(prog, s, Ticks(Script(prog, s.phase)[s.bufindex..])) == Wrap(s)
    decreases |Script(prog, s.phase)| - s.bufindex
  {
    var script := Script(prog, s.phase);
    var d := script[s.bufindex].duration as int;
    var rest := Ticks(script[s.bufindex + 1..]);
    TicksFromStep(script, s.bufindex);
    StepDone(prog, s);
    var t := NextStep(prog, s);
    if s.bufindex + 1 < |script| {
      IterateAdd(prog, s, d + 1, rest);
      Traverse(prog, t);
    } else {
      assert script[s.bufindex + 1..] == [];
      assert s.(durationCount := 0) == s;
    }
  }

  /** Where a pass stands: entered at step 0 with a fresh count, after the
      calls of steps 0..i-1 plus c more it is at step i with count c, with
      phase, `feed_time` and `portsval` as on entry. */
  lemma {:induction false} Position(prog: Program, p: Phase, feedTime: int, portsval: int, i: nat, c: nat)
    requires WellFormed(prog) && i < |Script(prog, p)|
    requires c <= Script(prog, p)[i].duration as int
    ensures Iterate(prog, State(p, 0, 0, feedTime, portsval), Ticks(Script(prog, p)[..i]) + c) ==
      State(p, i, c, feedTime, portsval)
    decreases i
  {
    var script := Script(prog, p);
    var s := State(p, 0, 0, feedTime, portsval);
    if i == 0 {
      assert script[..0] == [];
      HoldStep(prog, s, c);
    } else {
      var d := script[i - 1].duration as int;
      assert script[..i] == script[..i - 1] + [script[i - 1]];
      TicksConcat(script[..i - 1], [script[i - 1]]);
      assert Ticks([script[i - 1]]) == d + 1;
      var before := Ticks(script[..i - 1]) + d;
      Position(prog, p, feedTime, portsval, i - 1, d);
      var t := State(p, i - 1, d, feedTime, portsval);
      IterateAdd(prog, s, before, 1 + c);
      IterateAdd(prog, t, 1, c);
      AdvanceCounts(prog, t);
      HoldStep(prog, State(p, i, 0, feedTime, portsval), c);
    }
  }

  /** Before a pass of the script is over, the phase, `feed_time` and
      `portsval` are untouched and the index has not gone back. */
  lemma {:induction false} MidScript(prog: Program, s: State, k: nat)
    requires WellFormed(prog) && InBounds(prog, s) && s.durationCount == 0
    requires k < Ticks(Script(prog, s.phase)[s.bufindex..])
    ensures var t := Iterate(prog, s, k);
      t.phase == s.phase && t.feedTime == s.feedTime && t.portsval == s.portsval && s.bufindex <= t.bufindex
    decreases k
  {
    var script := Script(prog, s.phase);
    var d := script[s.bufindex].duration as int;
    TicksFromStep(script, s.bufindex);
    if k <= d {
      HoldStep(prog, s, k);
    } else {
      if s.bufindex + 1 < |script| {
        NextStepThen(prog, s, k - d - 1);
        MidScript(prog, s.(bufindex := s.bufindex + 1, durationCount := 0), k - d - 1);
      } else {
        assert false;
      }
    }
  }

  /** A whole pass of the script of `p` from its first step, and what it
      leaves behind: for every phase but FEED the successor phase with
      `portsval` complemented; for FEED one less repeat, or AFTER_FEED. */
  lemma Pass(prog: Program, p: Phase, feedTime: int, portsval: int, k: nat)
    requires WellFormed(prog) && k <= Ticks(Script(prog, p))
    ensures var t := Iterate(prog, State(p, 0, 0, feedTime, portsval), k);
      if k < Ticks(Script(prog, p)) then
        t.phase == p && t.feedTime == feedTime && t.portsval == portsval
      else if p != FeedItem then
        t == State(Successor(p), 0, 0, feedTime, Not(portsval))
      else if feedTime > 1 then
        t == State(FeedItem, 0, 0, feedTime - 1, portsval)
      else
        t == State(AfterFeed, 0, 0, FeedRepeats, Not(portsval))
  {
    var s := State(p, 0, 0, feedTime, portsval);
    assert Script(prog, p)[0..] == Script(prog, p);
    if k < Ticks(Script(prog, p)) {
      MidScript(prog, s, k);
    } else {
      Traverse(prog, s);
    }
  }

  // ----- The shipped macro -----

  /** From power-up, SYNC lasts exactly 822 calls and hands over to BUY
      with the index and count at zero and the port flashed once. */
  lemma SyncPhase(k: nat)
    requires k <= 822
    ensures var t := Iterate(Macro, Init(), k);
      if k < 822 then t.phase == SyncController
      else t == State(BuyItem, 0, 0, FeedRepeats, -1)
  {
    MacroWellFormed();
    SyncControllerTicks();
    Pass(Macro, SyncController, FeedRepeats, 0, k);
  }

  /** BUY lasts exactly 4298 calls and hands over to FEED. */
  lemma BuyPhase(portsval: int, k: nat)
    requires k <= 4298
    ensures var t := Iterate(Macro, State(BuyItem, 0, 0, FeedRepeats, portsval), k);
      if k < 4298 then t.phase == BuyItem
      else t == State(FeedItem, 0, 0, FeedRepeats, Not(portsval))
  {
    MacroWellFormed();
    BuyItemTicks();
    Pass(Macro, BuyItem, FeedRepeats, portsval, k);
  }

  /** AFTER_FEED lasts exactly 1228 calls and hands back to BUY. */
  lemma AfterFeedPhase(portsval: int, k: nat)
    requires k <= 1228
    ensures var t := Iterate(Macro, State(AfterFeed, 0, 0, FeedRepeats, portsval), k);
      if k < 1228 then t.phase == AfterFeed
      else t == State(BuyItem, 0, 0, FeedRepeats, Not(portsval))
  {
    MacroWellFormed();
    AfterFeedTicks();
    Pass(Macro, AfterFeed, FeedRepeats, portsval, k);
  }

  /** FEED entered with `feed_time` = f replays its script f times: after
      j < f passes it is back at step 0 with f - j repeats left and the
      port untouched; after f passes it is in AFTER_FEED with `feed_time`
      reset and the port flashed once. */
  lemma {:induction false} FeedPasses(prog: Program, feedTime: int, portsval: int, j: nat)
    requires WellFormed(prog) && 1 <= feedTime && j <= feedTime
    ensures Iterate(prog, State(FeedItem, 0, 0, feedTime, portsval), Ticks(prog.feed) * j) ==
      if j < feedTime then State(FeedItem, 0, 0, feedTime - j, portsval)
      else State(AfterFeed, 0, 0, FeedRepeats, Not(portsval))
    decreases j
  {
    if j > 0 {
      var pass := Ticks(prog.feed);
      var before := pass * (j - 1);
      var start := State(FeedItem, 0, 0, feedTime, portsval);
      assert Script(prog, FeedItem) == prog.feed;
      assert pass * j == before + pass;
      FeedPasses(prog, feedTime, portsval, j - 1);
      IterateAdd(prog, start, before, pass);
      Pass(prog, FeedItem, feedTime - (j - 1), portsval, pass);
    }
  }

  /** Inside pass j (of f) of FEED, `r` calls in, the phase is still FEED
      with f - j repeats left and the port untouched. */
  lemma InsideFeedPass(prog: Program, feedTime: int, portsval: int, j: nat, r: nat)
    requires WellFormed(prog) && j < feedTime && r < Ticks(prog.feed)
    ensures var t := Iterate(prog, State(FeedItem, 0, 0, feedTime, portsval), Ticks(prog.feed) * j + r);
      t.phase == FeedItem && t.feedTime == feedTime - j && t.portsval == portsval
  {
    FeedPasses(prog, feedTime, portsval, j);
    IterateAdd(prog, State(FeedItem, 0, 0, feedTime, portsval), Ticks(prog.feed) * j, r);
    Pass(prog, FeedItem, feedTime - j, portsval, r);
  }

  /** A visit of FEED from BUY (with `feed_time` at 10) is ten passes of
      921 calls: `r` calls into pass j < 10 it is still in FEED with 10 - j
      repeats left, and after 9210 calls it is in AFTER_FEED. */
  lemma FeedPhase(portsval: int, j: nat, r: nat)
    requires j < FeedRepeats && r < 921
    ensures var t := Iterate(Macro, State(FeedItem, 0, 0, FeedRepeats, portsval), 921 * j + r);
      t.phase == FeedItem && t.feedTime == FeedRepeats - j
    ensures Iterate(Macro, State(FeedItem, 0, 0, FeedRepeats, portsval), 9210) ==
      State(AfterFeed, 0, 0, FeedRepeats, Not(portsval))
  {
    MacroWellFormed();
    FeedItemTicks();
    InsideFeedPass(Macro, FeedRepeats, portsval, j, r);
    FeedPasses(Macro, FeedRepeats, portsval, FeedRepeats);
  }

  /** After SYNC the macro is periodic: BUY, FEED and AFTER_FEED together
      take 14736 calls and return to the start of BUY with the port
      flashed three times, i.e. complemented. */
  lemma Cycle(portsval: int)
    ensures Iterate(Macro, State(BuyItem, 0, 0, FeedRepeats, portsval), 14736) ==
      State(BuyItem, 0, 0, FeedRepeats, Not(portsval))
  {
    MacroWellFormed();
    var s := State(BuyItem, 0, 0, FeedRepeats, portsval);
    BuyPhase(portsval, 4298);
    IterateAdd(Macro, s, 4298, 10438);
    var t := State(FeedItem, 0, 0, FeedRepeats, Not(portsval));
    FeedPhase(Not(portsval), 0, 0);
    IterateAdd(Macro, t, 9210, 1228);
    AfterFeedPhase(Not(Not(portsval)), 1228);
  }

  /** The first 251 reports are neutral: NOTHING is held 250 + 1 calls. */
  lemma SyncOpensNeutral(k: nat)
    requires k < 251
    ensures Emit(Macro, Iterate(Macro, Init(), k)) == NeutralReport()
  {
    MacroWellFormed();
    var sync := Script(Macro, SyncController);
    assert sync[0] == Command(Nothing, 250);
    HoldStep(Macro, Init(), k);
  }

  /** The 252nd report presses L and R together. */
  lemma SyncThenTriggers()
    ensures Emit(Macro, Iterate(Macro, Init(), 251)).buttons == {SwitchL, SwitchR}
  {
    MacroWellFormed();
    var sync := Script(Macro, SyncController);
    assert sync[0] == Command(Nothing, 250) && sync[1] == Command(Triggers, 5);
    StepDone(Macro, Init());
  }
}
