// GetNextReport as Joystick.c writes it: the phase and the counters are
// mutable state (the C globals, here the fields of one object), and each
// call fills a fresh report from the current step and then updates the
// counters in place, phase by phase. Each call is proved to be one step
// of the automaton of Automaton.dfy over the shipped tables.

module Sequencer {
  import opened Controller
  import Scripts
  import opened Automaton

  class Sequencer {
    var state: Phase
    var bufindex: int
    var durationCount: int
    var feedTime: int
    /** The value last written to the indicator ports. */
    var portsval: int

    /** The fields as a State of the automaton. */
    function Model(): State
      reads this
    {
      State(state, bufindex, durationCount, feedTime, portsval)
    }

    /** The initial values of the globals. */
    constructor ()
      ensures Model() == Init()
    {
      state := SyncController;
      bufindex := 0;
      durationCount := 0;
      feedTime := FeedRepeats;
      portsval := 0;
    }

    /** One call of GetNextReport: returns the report for the current step
      and leaves the counters as the automaton's step prescribes. */
    method Tick() returns (report: Report)
      requires InBounds(Macro, Model())
      modifies this
      ensures report == Emit(Macro, old(Model()))
      ensures Model() == Advance(Macro, old(Model()))
    {
      match state
      case SyncController => report := SyncStep();
      case BuyItem => report := BuyStep();
      case FeedItem => report := FeedStep();
      case AfterFeed => report := AfterFeedStep();
    }

    /** The SYNC_CONTROLLER case: handles TRIGGERS, A and NOTHING, then moves to BUY_ITEM after the last step. */
    method SyncStep() returns (report: Report)
      requires state == SyncController && InBounds(Macro, Model())
      modifies this
      ensures report == Emit(Macro, old(Model()))
      ensures Model() == Advance(Macro, old(Model()))
    {
      report := NeutralReport();
      var step := Scripts.SyncControllerSteps[bufindex];
      match step.button {
        case Triggers => report := report.(buttons := report.buttons + {SwitchL, SwitchR});
        case A => report := report.(buttons := report.buttons + {SwitchA});
        case Nothing => report := Recentre(report);
        case _ =>
      }
      durationCount := durationCount + 1;
      if durationCount > step.duration as int {
        bufindex := bufindex + 1;
        durationCount := 0;
      }
      if bufindex > |Scripts.SyncControllerSteps| - 1 {
        portsval := Not(portsval);
        state := BuyItem;
        bufindex := 0;
      }
    }

    /** The BUY_ITEM case: handles LEFT, A, B, PLUS and NOTHING, then moves to FEED_ITEM after the last step. */
    method BuyStep() returns (report: Report)
      requires state == BuyItem && InBounds(Macro, Model())
      modifies this
      ensures report == Emit(Macro, old(Model()))
      ensures Model() == Advance(Macro, old(Model()))
    {
      report := NeutralReport();
      var step := Scripts.BuyItemSteps[bufindex];
      match step.button {
        case Left => report := report.(hat := HatLeft);
        case A => report := report.(buttons := report.buttons + {SwitchA});
        case B => report := report.(buttons := report.buttons + {SwitchB});
        case Plus => report := report.(buttons := report.buttons + {SwitchPlus});
        case Nothing => report := Recentre(report);
        case _ =>
      }
      durationCount := durationCount + 1;
      if durationCount > step.duration as int {
        bufindex := bufindex + 1;
        durationCount := 0;
      }
      if bufindex > |Scripts.BuyItemSteps| - 1 {
        portsval := Not(portsval);
        state := FeedItem;
        bufindex := 0;
      }
    }

    /** The FEED_ITEM case: handles A and NOTHING; after the last step counts down `feed_time` and moves to AFTER_FEED once it drops below 1. */
    method FeedStep() returns (report: Report)
      requires state == FeedItem && InBounds(Macro, Model())
      modifies this
      ensures report == Emit(Macro, old(Model()))
      ensures Model() == Advance(Macro, old(Model()))
    {
      report := NeutralReport();
      var step := Scripts.FeedItemSteps[bufindex];
      match step.button {
        case A => report := report.(buttons := report.buttons + {SwitchA});
        case Nothing => report := Recentre(report);
        case _ =>
      }
      durationCount := durationCount + 1;
      if durationCount > step.duration as int {
        bufindex := bufindex + 1;
        durationCount := 0;
      }
      if bufindex > |Scripts.FeedItemSteps| - 1 {
        bufindex := 0;
        feedTime := feedTime - 1;
        if feedTime < 1 {
          portsval := Not(portsval);
          state := AfterFeed;
          feedTime := FeedRepeats;
        }
      }
    }

    /** The AFTER_FEED case: handles B and NOTHING, then moves back to BUY_ITEM after the last step. */
    method AfterFeedStep() returns (report: Report)
      requires state == AfterFeed && InBounds(Macro, Model())
      modifies this
      ensures report == Emit(Macro, old(Model()))
      ensures Model() == Advance(Macro, old(Model()))
    {
      report := NeutralReport();
      var step := Scripts.AfterFeedSteps[bufindex];
      match step.button {
        case B => report := report.(buttons := report.buttons + {SwitchB});
        case Nothing => report := Recentre(report);
        case _ =>
      }
      durationCount := durationCount + 1;
      if durationCount > step.duration as int {
        bufindex := bufindex + 1;
        durationCount := 0;
      }
      if bufindex > |Scripts.AfterFeedSteps| - 1 {
        bufindex := 0;
        portsval := Not(portsval);
        state := BuyItem;
      }
    }
  }

  /** A caller of the class: the first call on a freshly initialised
      sequencer returns the neutral report (SYNC opens with NOTHING). */
  method FirstReport() returns (report: Report)
    ensures report == NeutralReport()
  {
    var sequencer := new Sequencer();
    report := sequencer.Tick();
  }
}
