// The four constant macro scripts of Joystick.c and the number of
// GetNextReport calls each one lasts.

module Scripts {
  import opened Controller

  /** Wakes the console's controller-pairing screen: press L+R twice, then A. */
  const SyncControllerSteps: seq<Command> := [
    Command(Nothing, 250),
    Command(Triggers, 5),
    Command(Nothing, 150),
    Command(Triggers, 5),
    Command(Nothing, 150),
    Command(A, 5),
    Command(Nothing, 250)
  ]

  /** The shop dialogue: fourteen presses, each followed by a pause. */
  const BuyItemSteps: seq<Command> := [
    Command(A, 5), Command(Nothing, 300),
    Command(A, 5), Command(Nothing, 300),
    Command(A, 5), Command(Nothing, 300),
    Command(A, 5), Command(Nothing, 300),
    Command(A, 5), Command(Nothing, 300),
    Command(Left, 5), Command(Nothing, 300),
    Command(A, 5), Command(Nothing, 300),
    Command(B, 5), Command(Nothing, 300),
    Command(B, 5), Command(Nothing, 300),
    Command(Plus, 5), Command(Nothing, 300),
    Command(A, 5), Command(Nothing, 300),
    Command(A, 5), Command(Nothing, 300),
    Command(Left, 5), Command(Nothing, 300),
    Command(A, 5), Command(Nothing, 300)
  ]

  /** Hands over one item: A three times with pauses. */
  const FeedItemSteps: seq<Command> := [
    Command(A, 5), Command(Nothing, 300),
    Command(A, 5), Command(Nothing, 300),
    Command(A, 5), Command(Nothing, 300)
  ]

  /** Backs out of the menus: B four times with pauses. */
  const AfterFeedSteps: seq<Command> := [
    Command(B, 5), Command(Nothing, 300),
    Command(B, 5), Command(Nothing, 300),
    Command(B, 5), Command(Nothing, 300),
    Command(B, 5), Command(Nothing, 300)
  ]

  /** Number of calls needed to walk `script` once: the sequencer holds a
      step while the incremented count is not yet greater than its
      duration, so each step lasts duration + 1 calls. */
  function Ticks(script: seq<Command>): nat
  {
    if script == [] then 0 else script[0].duration as nat + 1 + Ticks(script[1..])
  }

  /** Ticks of the suffix that starts at step `i` splits off step `i`. */
  lemma {:induction false} TicksFromStep(script: seq<Command>, i: nat)
    requires i < |script|
    ensures Ticks(script[i..]) == script[i].duration as nat + 1 + Ticks(script[i + 1..])
  {
  }

  /** The calls of two consecutive runs of steps add up. */
  lemma {:induction false} TicksConcat(a: seq<Command>, b: seq<Command>)
    ensures Ticks(a + b) == Ticks(a) + Ticks(b)
    decreases |a|
  {
    if a == [] {
      assert a + b == b;
    } else {
      assert (a + b)[0] == a[0] && (a + b)[1..] == a[1..] + b;
      TicksConcat(a[1..], b);
    }
  }

  /** Every script is non-empty and every step lasts at least one call,
      so the end-of-script test is reached and no step is skipped. */
  lemma ScriptsWellFormed()
    ensures |SyncControllerSteps| == 7 && |BuyItemSteps| == 28 && |FeedItemSteps| == 6 && |AfterFeedSteps| == 8
    ensures forall c :: c in SyncControllerSteps + BuyItemSteps + FeedItemSteps + AfterFeedSteps ==> 5 <= c.duration <= 300
  {
  }

  /** BUY alternates fourteen action steps with fourteen NOTHING pauses. */
  lemma BuyItemAlternates()
    ensures forall i :: 0 <= i < |BuyItemSteps| ==> (BuyItemSteps[i].button == Nothing <==> i % 2 == 1)
    ensures forall i :: 0 <= i < |BuyItemSteps| ==> BuyItemSteps[i].duration == if i % 2 == 1 then 300 else 5
  {
  }

  /** SYNC lasts 822 calls: 251 + 6 + 151 + 6 + 151 + 6 + 251. */
  lemma SyncControllerTicks()
    ensures Ticks(SyncControllerSteps) == 822
  {
  }

  /** BUY lasts 4298 calls: fourteen pairs of 6 + 301. */
  lemma BuyItemTicks()
    ensures Ticks(BuyItemSteps) == 4298
  {
    BuyItemAlternates();
    TicksPairs(BuyItemSteps, 14);
  }

  /** One pass of FEED lasts 921 calls. */
  lemma FeedItemTicks()
    ensures Ticks(FeedItemSteps) == 921
  {
  }

  /** AFTER_FEED lasts 1228 calls. */
  lemma AfterFeedTicks()
    ensures Ticks(AfterFeedSteps) == 1228
  {
  }

  /** A script made of `n` (action for 5, pause for 300) pairs lasts 307 * n calls. */
  lemma {:induction false} TicksPairs(script: seq<Command>, n: nat)
    requires |script| == 2 * n
    requires forall i :: 0 <= i < |script| ==> script[i].duration == if i % 2 == 1 then 300 else 5
    ensures Ticks(script) == 307 * n
  {
    if n > 0 {
      var rest := script[2..];
      assert script[0..] == script;
      TicksFromStep(script, 0);
      TicksFromStep(script, 1);
      forall i | 0 <= i < |rest|
        ensures rest[i].duration == if i % 2 == 1 then 300 else 5
      {
        assert rest[i] == script[i + 2];
      }
      TicksPairs(rest, n - 1);
    }
  }
}
