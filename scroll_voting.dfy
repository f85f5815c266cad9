/**
 * The scroll-direction voting state machine as values: the tally of
 * `ScrollDirectionVotes`, the state of the anonymous scroll listener, one
 * function per handler, and the two delayed tasks (the settle check after
 * IDLE and the gate re-enable after a decision) as explicit pending tasks
 * that the environment fires later, in any order.
 */
module ScrollVoting {
  import opened JavaByte

  /** Minimum number of votes before a direction can win. */
  const MIN_VOTES := 4

  /** Android's scroll-state codes passed to `onScrollStateChanged`. */
  const SCROLL_STATE_IDLE := 0
  const SCROLL_STATE_TOUCH_SCROLL := 1
  const SCROLL_STATE_FLING := 2

  datatype Direction = Up | Down {
    function Other(): (o: Direction)
      ensures o != this
    {
      if this == Up then Down else Up
    }
  }

  /** The two byte counters of `ScrollDirectionVotes`. */
  datatype Tally = Tally(ups: Byte, downs: Byte) {

    /** Neither counter is negative and their sum fits in a byte. */
    predicate NoWrap() {
      0 <= ups && 0 <= downs && ups + downs <= 127
    }

    /** `total()`: the byte-truncated sum of the counters. */
    function Total(): (t: Byte)
      ensures NoWrap() ==> t == ups + downs
      ensures (ups + downs - t) % 256 == 0
    {
      ToByte(ups + downs)
    }

    /** `delta()`: the byte-truncated distance between the counters. */
    function Delta(): (d: Byte)
      ensures d == 0 <==> ups == downs
      ensures NoWrap() ==> d == Abs(ups - downs)
    {
      ToByte(Abs(ups - downs))
    }

    /** `up()`: one more up vote. */
    function Up(): Tally {
      Tally(Increment(ups), downs)
    }

    /** `down()`: one more down vote. */
    function Down(): Tally {
      Tally(ups, Increment(downs))
    }

    /** One more vote in the given direction. */
    function Add(d: Direction): Tally {
      if d == Direction.Up then Up() else Down()
    }

    /** The test of `checkCandidates`: enough votes, and `delta > total * 0.5`,
      * which on integers is exactly `2 * delta > total`. */
    predicate Decidable() {
      Total() >= MIN_VOTES && 2 * Delta() > Total()
    }

    /** The side `checkCandidates` declares: up when `ups > downs`, otherwise down. */
    function Winner(): Direction {
      if ups > downs then Direction.Up else Direction.Down
    }
  }

  /** The tally after `reset()` and at construction: `ups = downs = 0`. */
  const Zero := Tally(0, 0)

  /** A task submitted to the thread pool that has not run yet. */
  datatype Task =
    | SettleCheck            // the Runnable submitted on IDLE
    | ReEnable(gate: Direction)  // the Runnable submitted by `disable`

  /** The fields of the listener object built by `createOnScrollListener`. */
  datatype State = State(
    votes: Tally,
    lastFirstVisibleItem: int,
    enabled: bool,
    hasListener: bool,        // `scrollDirectionListener != null`
    inMotion: bool,
    enabledScrollUp: bool,
    enabledScrollDown: bool,
    pending: seq<Task>,       // tasks submitted and not yet run
    notified: seq<Direction>  // callbacks made on the listener, in order
  ) {
    /** The gate of one direction. */
    function Gate(d: Direction): bool {
      if d == Direction.Up then enabledScrollUp else enabledScrollDown
    }

    /** The state with the gate of `d` set to `b`. */
    function SetGate(d: Direction, b: bool): (r: State)
      ensures r.Gate(d) == b && r.Gate(d.Other()) == Gate(d.Other())
      ensures r.(enabledScrollUp := enabledScrollUp, enabledScrollDown := enabledScrollDown) == this
    {
      if d == Direction.Up then this.(enabledScrollUp := b) else this.(enabledScrollDown := b)
    }
  }

  /** The listener right after `createOnScrollListener`. */
  function Initial(hasListener: bool): State {
    State(Zero, 0, true, hasListener, false, true, true, [], [])
  }

  /** After every handler and task returns, the tally is not decidable. */
  ghost predicate Quiet(s: State) {
    !s.votes.Decidable()
  }

  // ---------------------------------------------------------------------
  // The handlers
  // ---------------------------------------------------------------------

  /** `disable(interval, flag)`: close the gate now, submit its re-enable. */
  function Disable(s: State, gate: Direction): State {
    s.SetGate(gate, false).(pending := s.pending + [ReEnable(gate)])
  }

  /** `checkCandidates()`. */
  function CheckCandidates(s: State): State {
    if s.votes.Decidable() then
      var w := s.votes.Winner();
      Disable(s.(votes := Zero), w).(notified := s.notified + [w])
    else
      s
  }

  /** The part of `onScroll` before `checkCandidates`: remember the index and
    * count at most one vote. The down test comes first, as in the source. */
  function Vote(s: State, firstVisibleItem: int): State {
    var scrollingDown := firstVisibleItem > s.lastFirstVisibleItem;
    var scrollingUp := firstVisibleItem < s.lastFirstVisibleItem;
    var s' := s.(lastFirstVisibleItem := firstVisibleItem);
    if s.enabledScrollDown && scrollingDown then s'.(votes := s.votes.Down())
    else if s.enabledScrollUp && scrollingUp then s'.(votes := s.votes.Up())
    else s'
  }

  /** `onScroll(view, firstVisibleItem, _, _)`. */
  function OnScroll(s: State, firstVisibleItem: int): State {
    if !s.enabled || !s.hasListener then s
    else CheckCandidates(Vote(s, firstVisibleItem))
  }

  /** `onScrollStateChanged(view, scrollState)`; a code the switch does not name changes nothing. */
  function OnScrollStateChanged(s: State, scrollState: int): State {
    if scrollState == SCROLL_STATE_IDLE then
      s.(inMotion := false, pending := s.pending + [SettleCheck])
    else if scrollState == SCROLL_STATE_FLING || scrollState == SCROLL_STATE_TOUCH_SCROLL then
      CheckCandidates(s.(inMotion := true))
    else
      s
  }

  /** The pending tasks without the one at index `i`. */
  function Without(tasks: seq<Task>, i: nat): (r: seq<Task>)
    requires i < |tasks|
    ensures |r| == |tasks| - 1
    ensures multiset(r) + multiset{tasks[i]} == multiset(tasks)
  {
    assert tasks == tasks[..i] + [tasks[i]] + tasks[i + 1..];
    tasks[..i] + tasks[i + 1..]
  }

  /** The pending task at index `i` runs once its delay has elapsed (an
    * interrupted sleep counts as elapsed) and leaves the pool. */
  function RunTask(s: State, i: nat): State
    requires i < |s.pending|
  {
    var rest := Without(s.pending, i);
    match s.pending[i]
    case SettleCheck =>
      if !s.inMotion then s.(votes := Zero, pending := rest) else s.(pending := rest)
    case ReEnable(g) =>
      s.SetGate(g, true).(pending := rest)
  }

  // ---------------------------------------------------------------------
  // Traces of events
  // ---------------------------------------------------------------------

  /** What can happen to the listener: the view calls one of its two
    * handlers, or the pool runs one of the pending tasks. */
  datatype Event =
    | Scroll(firstVisibleItem: int)
    | StateChanged(scrollState: int)
    | Fire(task: nat)

  /** One event. Firing a task that is not pending does nothing. */
  function Step(s: State, e: Event): State {
    match e
    case Scroll(f) => OnScroll(s, f)
    case StateChanged(code) => OnScrollStateChanged(s, code)
    case Fire(i) => if i < |s.pending| then RunTask(s, i) else s
  }

  /** A sequence of events, in order. */
  function Run(s: State, events: seq<Event>): State
    decreases |events|
  {
    if events == [] then s else Run(Step(s, events[0]), events[1..])
  }

  /** The number of `onScroll` calls among the events. */
  function ScrollCount(events: seq<Event>): nat
    decreases |events|
  {
    if events == [] then 0
    else (if events[0].Scroll? then 1 else 0) + ScrollCount(events[1..])
  }

  // ---------------------------------------------------------------------
  // The tally
  // ---------------------------------------------------------------------

  /** A fresh or reset tally holds no votes. */
  lemma ZeroIsEmpty()
    ensures Zero.Total() == 0 && Zero.Delta() == 0 && !Zero.Decidable()
  {
  }

  /** Without wrap-around, the decision test says: at least four votes, and
    * one side has more than three times the votes of the other (that is,
    * more than three quarters of all votes). */
  lemma DecidableIff(t: Tally)
    requires t.NoWrap()
    ensures t.Decidable() <==>
              t.ups + t.downs >= MIN_VOTES && (t.ups > 3 * t.downs || t.downs > 3 * t.ups)
  {
  }

  /** A tie never decides, whatever the counters; without wrap-around the
    * winner holds a strict majority, indeed more than three quarters. */
  lemma WinnerHasMajority(t: Tally)
    requires t.Decidable()
    ensures t.ups != t.downs
    ensures t.Winner() == Up <==> t.ups > t.downs
    ensures t.NoWrap() && t.Winner() == Up ==> 2 * t.ups > t.ups + t.downs && t.ups > 3 * t.downs
    ensures t.NoWrap() && t.Winner() == Down ==> 2 * t.downs > t.ups + t.downs && t.downs > 3 * t.ups
  {
  }

  /** The boundary of the decision test: four votes split 3-1 or 2-2 do
    * not decide, 4-0 does, and 3-0 is below the minimum. */
  lemma DecisionBoundary()
    ensures !Tally(3, 1).Decidable() && !Tally(1, 3).Decidable()
    ensures !Tally(2, 2).Decidable()
    ensures Tally(4, 0).Decidable() && Tally(4, 0).Winner() == Up
    ensures Tally(0, 4).Decidable() && Tally(0, 4).Winner() == Down
    ensures !Tally(3, 0).Decidable()
    ensures Tally(4, 1).Decidable() && Tally(4, 1).Winner() == Up
  {
  }

  /** The byte counters wrap: at 97 up votes against 32 down votes the total
    * reads as -127, so no decision is taken although ups exceed three times
    * downs. */
  lemma ByteWrapSuppressesDecision()
    ensures Tally(97, 32).Total() == -127
    ensures 97 > 3 * 32 && !Tally(97, 32).Decidable()
    ensures !Tally(96, 32).Decidable()
  {
  }

  // ---------------------------------------------------------------------
  // The handlers, one by one
  // ---------------------------------------------------------------------

  /** `checkCandidates` fires exactly when the tally is decidable; then it
    * empties the tally, closes only the winner's gate, submits exactly one
    * re-enable for it and makes exactly one callback, for the winner. */
  lemma CheckCandidatesEffect(s: State)
    ensures var r := CheckCandidates(s);
      !s.votes.Decidable() ==> r == s
    ensures var r := CheckCandidates(s);
      var w := s.votes.Winner();
      s.votes.Decidable() ==>
        r.votes == Zero && r.votes.Total() == 0 &&
        !r.Gate(w) && r.Gate(w.Other()) == s.Gate(w.Other()) &&
        r.notified == s.notified + [w] &&
        r.pending == s.pending + [ReEnable(w)] &&
        r.lastFirstVisibleItem == s.lastFirstVisibleItem && r.inMotion == s.inMotion &&
        r.enabled == s.enabled && r.hasListener == s.hasListener
    ensures Quiet(CheckCandidates(s))
  {
  }

  /** `onScroll` without a listener, or while disabled, changes nothing. */
  lemma OnScrollIgnored(s: State, firstVisibleItem: int)
    requires !s.enabled || !s.hasListener
    ensures OnScroll(s, firstVisibleItem) == s
  {
  }

  /** The vote `onScroll` counts: a down vote only for a larger index with
    * the down gate open, an up vote only for a smaller index with the up
    * gate open, nothing for an unchanged index. The new index is remembered
    * in every case and nothing else changes. */
  lemma VoteEffect(s: State, firstVisibleItem: int)
    ensures var r := Vote(s, firstVisibleItem);
      r.(votes := s.votes, lastFirstVisibleItem := s.lastFirstVisibleItem) == s &&
      r.lastFirstVisibleItem == firstVisibleItem
    ensures var r := Vote(s, firstVisibleItem);
      r.votes == (
        if firstVisibleItem > s.lastFirstVisibleItem && s.enabledScrollDown then s.votes.Down()
        else if firstVisibleItem < s.lastFirstVisibleItem && s.enabledScrollUp then s.votes.Up()
        else s.votes)
  {
  }

  /** A closed gate blocks only its own direction: a closed up gate keeps
    * `ups` as it is for every index, while a larger index still adds a down
    * vote; and symmetrically for the down gate. */
  lemma GateBlocksOnlyItsDirection(s: State, firstVisibleItem: int)
    ensures !s.enabledScrollUp ==> Vote(s, firstVisibleItem).votes.ups == s.votes.ups
    ensures !s.enabledScrollDown ==> Vote(s, firstVisibleItem).votes.downs == s.votes.downs
    ensures s.enabledScrollDown && firstVisibleItem > s.lastFirstVisibleItem ==>
              Vote(s, firstVisibleItem).votes == s.votes.Add(Down)
    ensures s.enabledScrollUp && firstVisibleItem < s.lastFirstVisibleItem ==>
              Vote(s, firstVisibleItem).votes == s.votes.Add(Up)
    ensures firstVisibleItem == s.lastFirstVisibleItem ==> Vote(s, firstVisibleItem).votes == s.votes
  {
  }

  /** With a listener and while enabled, `onScroll` remembers the new index,
    * leaves the motion flag alone, ends with an undecidable tally, and makes
    * at most one callback; a callback happens exactly when the vote made the
    * tally decidable, and it empties the tally. */
  lemma OnScrollEffect(s: State, firstVisibleItem: int)
    requires s.enabled && s.hasListener
    ensures var r := OnScroll(s, firstVisibleItem);
      r.lastFirstVisibleItem == firstVisibleItem && r.inMotion == s.inMotion && Quiet(r)
    ensures var r := OnScroll(s, firstVisibleItem);
      var v := Vote(s, firstVisibleItem).votes;
      (r.notified == s.notified) == !v.Decidable()
    ensures var r := OnScroll(s, firstVisibleItem);
      var v := Vote(s, firstVisibleItem).votes;
      v.Decidable() ==> r.notified == s.notified + [v.Winner()] && r.votes == Zero
  {
  }

  /** IDLE clears the motion flag and submits one settle check; FLING and
    * TOUCH_SCROLL set it, and on a quiet state their decision check makes no
    * callback and changes nothing else. */
  lemma OnScrollStateChangedEffect(s: State, scrollState: int)
    ensures scrollState == SCROLL_STATE_IDLE ==>
              OnScrollStateChanged(s, scrollState) == s.(inMotion := false, pending := s.pending + [SettleCheck])
    ensures Quiet(s) && (scrollState == SCROLL_STATE_FLING || scrollState == SCROLL_STATE_TOUCH_SCROLL) ==>
              OnScrollStateChanged(s, scrollState) == s.(inMotion := true)
    ensures scrollState !in {SCROLL_STATE_IDLE, SCROLL_STATE_FLING, SCROLL_STATE_TOUCH_SCROLL} ==>
              OnScrollStateChanged(s, scrollState) == s
  {
  }

  /** The settle check empties the tally if and only if the listener is not
    * in motion when it runs, that is, unless the last state change was FLING
    * or TOUCH_SCROLL; it leaves the pool and nothing else changes. */
  lemma SettleCheckEffect(s: State, i: nat)
    requires i < |s.pending| && s.pending[i] == SettleCheck
    ensures var r := RunTask(s, i);
      r.(votes := s.votes, pending := s.pending) == s &&
      (r.votes == Zero <==> !s.inMotion || s.votes == Zero) &&
      (s.inMotion ==> r.votes == s.votes)
    ensures multiset(RunTask(s, i).pending) + multiset{SettleCheck} == multiset(s.pending)
  {
  }

  /** The re-enable task opens its own gate and leaves the other gate, the
    * tally, the index, the flags and the callbacks as they were; it leaves
    * the pool. */
  lemma ReEnableEffect(s: State, i: nat)
    requires i < |s.pending| && s.pending[i].ReEnable?
    ensures var r := RunTask(s, i);
      var g := s.pending[i].gate;
      r.Gate(g) && r.Gate(g.Other()) == s.Gate(g.Other()) &&
      r.votes == s.votes && r.lastFirstVisibleItem == s.lastFirstVisibleItem &&
      r.inMotion == s.inMotion && r.notified == s.notified &&
      r.enabled == s.enabled && r.hasListener == s.hasListener
    ensures multiset(RunTask(s, i).pending) + multiset{s.pending[i]} == multiset(s.pending)
  {
  }

  /** The settle check reads the motion flag only when it runs: after IDLE,
    * TOUCH_SCROLL, one vote and IDLE again, the first settle check still
    * empties the tally, although a TOUCH_SCROLL came in between. */
  lemma StaleSettleCheckResets()
    ensures var s := Run(Initial(true), [StateChanged(SCROLL_STATE_IDLE), StateChanged(SCROLL_STATE_TOUCH_SCROLL),
                                         Scroll(1), StateChanged(SCROLL_STATE_IDLE)]);
      s.votes == Tally(0, 1) && s.pending == [SettleCheck, SettleCheck] && RunTask(s, 0).votes == Zero
  {
    var e1, e2, e3, e4 := StateChanged(SCROLL_STATE_IDLE), StateChanged(SCROLL_STATE_TOUCH_SCROLL),
                          Scroll(1), StateChanged(SCROLL_STATE_IDLE);
    var s0 := Initial(true);
    var s1 := Step(s0, e1);
    var s2 := Step(s1, e2);
    var s3 := Step(s2, e3);
    var s4 := Step(s3, e4);
    assert s2.inMotion && s3.votes == Tally(0, 1) && !s4.inMotion;
    assert Run(s4, []) == s4;
    assert Run(s3, [e4]) == Run(s4, []);
    assert Run(s2, [e3, e4]) == Run(s3, [e4]);
    assert Run(s1, [e2, e3, e4]) == Run(s2, [e3, e4]);
    assert Run(s0, [e1, e2, e3, e4]) == Run(s1, [e2, e3, e4]);
  }

  // ---------------------------------------------------------------------
  // Invariants over traces
  // ---------------------------------------------------------------------

  /** The listener starts quiet. */
  lemma InitialQuiet(hasListener: bool)
    ensures Quiet(Initial(hasListener))
    ensures Initial(hasListener).votes.Total() == 0
  {
  }

  /** One event keeps the listener quiet and makes at most one callback,
    * and only an `onScroll` can make one. */
  lemma StepQuiet(s: State, e: Event)
    requires Quiet(s)
    ensures Quiet(Step(s, e))
    ensures s.notified <= Step(s, e).notified
    ensures |Step(s, e).notified| <= |s.notified| + (if e.Scroll? then 1 else 0)
  {
  }

  /** Along any trace from a quiet state the listener stays quiet, earlier
    * callbacks are never undone, and there are at most as many new callbacks
    * as `onScroll` calls: the checks run on FLING and TOUCH_SCROLL never fire. */
  lemma {:induction false} RunQuiet(s: State, events: seq<Event>)
    requires Quiet(s)
    ensures Quiet(Run(s, events))
    ensures s.notified <= Run(s, events).notified
    ensures |Run(s, events).notified| <= |s.notified| + ScrollCount(events)
    decreases |events|
  {
    if events != [] {
      var s' := Step(s, events[0]);
      StepQuiet(s, events[0]);
      RunQuiet(s', events[1..]);
    }
  }

  /** Without a listener no vote is ever counted, so no trace can make a
    * callback. */
  lemma {:induction false} NoListenerNoCallback(s: State, events: seq<Event>)
    requires !s.hasListener && s.votes == Zero
    ensures Run(s, events).votes == Zero
    ensures Run(s, events).notified == s.notified
    decreases |events|
  {
    if events != [] {
      var s' := Step(s, events[0]);
      NoListenerNoCallback(s', events[1..]);
    }
  }

  /** A closed gate is closed only temporarily: its re-enable task is still
    * pending, so running the pending tasks opens it again. */
  ghost predicate GateWillReopen(s: State) {
    forall d: Direction :: !s.Gate(d) ==> ReEnable(d) in s.pending
  }

  /** A new listener has both gates open. */
  lemma InitialGateWillReopen(hasListener: bool)
    ensures GateWillReopen(Initial(hasListener))
    ensures Initial(hasListener).Gate(Up) && Initial(hasListener).Gate(Down)
  {
  }

  /** One event keeps every closed gate's re-enable pending: a decision closes
    * a gate only together with submitting its re-enable, and a task that runs
    * either opens its own gate or leaves every re-enable task in the pool. */
  lemma StepGateWillReopen(s: State, e: Event)
    requires GateWillReopen(s)
    ensures GateWillReopen(Step(s, e))
  {
  }

  /** Along every trace from a state whose closed gates have their re-enable
    * pending, that stays so. */
  lemma {:induction false} RunGateWillReopen(s: State, events: seq<Event>)
    requires GateWillReopen(s)
    ensures GateWillReopen(Run(s, events))
    decreases |events|
  {
    if events != [] {
      StepGateWillReopen(s, events[0]);
      RunGateWillReopen(Step(s, events[0]), events[1..]);
    }
  }
}
