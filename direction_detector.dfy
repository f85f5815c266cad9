/**
 * The objects of `DirectionDetectorScrollListener`: the vote tally, whose
 * byte fields `up()`, `down()` and `reset()` change in place, and the
 * scroll listener that `createOnScrollListener` builds, whose fields the two
 * handlers and the delayed tasks update. Every method is proved to move the
 * object from `old(Model())` to the state the matching function of
 * `ScrollVoting` gives, so the lemmas there apply to the objects.
 */
module DirectionDetectorScrollListener {
  import opened JavaByte
  import opened ScrollVoting

  /** `ScrollDirectionVotes`. */
  class ScrollDirectionVotes {
    var ups: Byte
    var downs: Byte

    /** The counters as a value. */
    function Value(): Tally
      reads this
    {
      Tally(ups, downs)
    }

    constructor ()
      ensures Value() == Zero
    {
      ups, downs := 0, 0;
    }

    method Reset()
      modifies this
      ensures Value() == Zero && Value().Total() == 0 && Value().Delta() == 0
    {
      ups, downs := 0, 0;
    }

    method Up()
      modifies this
      ensures Value() == old(Value()).Up()
    {
      ups := Increment(ups);
    }

    method Down()
      modifies this
      ensures Value() == old(Value()).Down()
    {
      downs := Increment(downs);
    }

    function Total(): Byte
      reads this
    {
      Value().Total()
    }

    function Delta(): Byte
      reads this
    {
      Value().Delta()
    }
  }

  /** The anonymous `AbsListView.OnScrollListener` of `createOnScrollListener`. */
  class ScrollListener {
    const votes: ScrollDirectionVotes
    /** Whether a `ScrollDirectionListener` was passed (it is not null). */
    const hasListener: bool
    var lastFirstVisibleItem: int
    var enabled: bool
    var inMotion: bool
    var enabledScrollDown: bool
    var enabledScrollUp: bool
    /** Runnables submitted to the thread pool that have not run yet. */
    var pending: seq<Task>
    /** The calls made on the `ScrollDirectionListener`, in order. */
    var notified: seq<Direction>

    /** The listener's fields as a value. */
    ghost function Model(): State
      reads this, votes
    {
      State(votes.Value(), lastFirstVisibleItem, enabled, hasListener, inMotion,
            enabledScrollUp, enabledScrollDown, pending, notified)
    }

    /** Whenever no handler is running, the tally is not decidable and
      * every closed gate has its re-enable pending. */
    ghost predicate Valid()
      reads this, votes
    {
      Quiet(Model()) && GateWillReopen(Model())
    }

    /** `createOnScrollListener(scrollDirectionListener)`. */
    constructor (listenerPresent: bool)
      ensures Valid() && fresh(votes)
      ensures Model() == Initial(listenerPresent)
    {
      votes := new ScrollDirectionVotes();
      hasListener := listenerPresent;
      lastFirstVisibleItem := 0;
      enabled := true;
      inMotion := false;
      enabledScrollDown := true;
      enabledScrollUp := true;
      pending := [];
      notified := [];
    }

    /** `onScrollStateChanged(view, scrollState)`. */
    method OnScrollStateChanged(scrollState: int)
      requires Valid()
      modifies this, votes
      ensures Valid()
      ensures Model() == ScrollVoting.OnScrollStateChanged(old(Model()), scrollState)
      ensures scrollState != SCROLL_STATE_IDLE ==>
                notified == old(notified) && votes.Value() == old(votes.Value())
    {
      if scrollState == SCROLL_STATE_IDLE {
        inMotion := false;
        // the Runnable that sleeps 400 ms, then calls onIdle() unless in motion
        pending := pending + [SettleCheck];
      } else if scrollState == SCROLL_STATE_FLING {
        inMotion := true;
        OnFling();
      } else if scrollState == SCROLL_STATE_TOUCH_SCROLL {
        inMotion := true;
        OnTouchScroll();
      }
    }

    method OnFling()
      modifies this, votes
      ensures Model() == ScrollVoting.CheckCandidates(old(Model()))
    {
      CheckCandidates();
    }

    method OnTouchScroll()
      modifies this, votes
      ensures Model() == ScrollVoting.CheckCandidates(old(Model()))
    {
      CheckCandidates();
    }

    method OnIdle()
      modifies votes
      ensures Model() == old(Model()).(votes := Zero)
    {
      votes.Reset();
    }

    /** `onScroll(view, firstVisibleItem, visibleItemCount, totalItemCount)`. */
    method OnScroll(firstVisibleItem: int)
      requires Valid()
      modifies this, votes
      ensures Valid()
      ensures Model() == ScrollVoting.OnScroll(old(Model()), firstVisibleItem)
    {
      if !enabled || !hasListener {
        return;
      }
      var scrollingDown := firstVisibleItem > lastFirstVisibleItem;
      var scrollingUp := firstVisibleItem < lastFirstVisibleItem;
      lastFirstVisibleItem := firstVisibleItem;
      if enabledScrollDown && scrollingDown {
        votes.Down();
      } else if enabledScrollUp && scrollingUp {
        votes.Up();
      }
      CheckCandidates();
    }

    /** `disable(interval, flag)`: close the gate and submit the Runnable
      * that re-opens it after the interval. */
    method Disable(gate: Direction)
      modifies this
      ensures Model() == ScrollVoting.Disable(old(Model()), gate)
    {
      if gate == Up {
        enabledScrollUp := false;
      } else {
        enabledScrollDown := false;
      }
      pending := pending + [ReEnable(gate)];
    }

    /** `checkCandidates()`. */
    method CheckCandidates()
      modifies this, votes
      ensures Model() == ScrollVoting.CheckCandidates(old(Model()))
    {
      if votes.Total() >= MIN_VOTES {
        if 2 * votes.Delta() > votes.Total() {
          var scrollingUp := votes.ups > votes.downs;
          votes.Reset();
          Disable(if scrollingUp then Up else Down);
          if scrollingUp {
            notified := notified + [Up];
          } else {
            notified := notified + [Down];
          }
        }
      }
    }

    /** The thread pool runs the pending settle check number `i`: the
      * Runnable submitted on IDLE, once its 400 ms sleep is over (an
      * interrupted sleep counts as over), calls `onIdle()` unless the motion
      * flag is set at that moment. */
    method RunSettleCheck(i: nat)
      requires Valid()
      requires i < |pending| && pending[i] == SettleCheck
      modifies this, votes
      ensures Valid()
      ensures Model() == ScrollVoting.RunTask(old(Model()), i)
    {
      pending := Without(pending, i);
      if !inMotion {
        OnIdle();
      }
    }

    /** The thread pool runs the pending re-enable number `i`: the Runnable
      * submitted by `disable`, once its sleep is over, opens its gate again. */
    method RunReEnable(i: nat)
      requires Valid()
      requires i < |pending| && pending[i].ReEnable?
      modifies this
      ensures Valid()
      ensures Model() == ScrollVoting.RunTask(old(Model()), i)
    {
      var gate := pending[i].gate;
      pending := Without(pending, i);
      if gate == Up {
        enabledScrollUp := true;
      } else {
        enabledScrollDown := true;
      }
    }
  }

  /** Scrolling down through items 1 to 4 from a new listener makes one
    * `onScrollDown` call, empties the tally and closes the down gate. */
  method SteadyScrollDownScenario() returns (calls: seq<Direction>, total: Byte, downGate: bool, upGate: bool)
    ensures calls == [Down] && total == 0 && !downGate && upGate
  {
    var l := new ScrollListener(true);
    l.OnScroll(1);
    l.OnScroll(2);
    l.OnScroll(3);
    assert l.notified == [] && l.votes.Value() == Tally(0, 3);
    l.OnScroll(4);
    calls, total, downGate, upGate := l.notified, l.votes.Total(), l.enabledScrollDown, l.enabledScrollUp;
  }

  /** Three up votes against one down vote sit on the boundary and make no
    * call; the next up vote decides, and after the decision an up movement
    * is not counted while a down movement is. */
  method SplitVoteScenario() returns (callsAtBoundary: seq<Direction>, calls: seq<Direction>, ups: Byte, downs: Byte)
    ensures callsAtBoundary == [] && calls == [Up] && ups == 0 && downs == 1
  {
    var l := new ScrollListener(true);
    l.OnScroll(10);
    l.OnScroll(9);
    l.OnScroll(8);
    l.OnScroll(7);
    assert l.votes.Value() == Tally(3, 1);
    callsAtBoundary := l.notified;
    l.OnScroll(6);
    assert l.notified == [Up] && !l.enabledScrollUp && l.enabledScrollDown;
    l.OnScroll(5);
    l.OnScroll(9);
    calls, ups, downs := l.notified, l.votes.ups, l.votes.downs;
  }

  /** An idle listener whose settle check runs with no motion in between
    * loses its votes; one that resumed a touch scroll first keeps them. */
  method SettleScenario() returns (settledTotal: Byte, resumedTotal: Byte)
    ensures settledTotal == 0 && resumedTotal == 2
  {
    var a := new ScrollListener(true);
    a.OnScroll(1);
    a.OnScroll(2);
    a.OnScrollStateChanged(SCROLL_STATE_IDLE);
    a.RunSettleCheck(0);
    settledTotal := a.votes.Total();

    var b := new ScrollListener(true);
    b.OnScroll(1);
    b.OnScrollStateChanged(SCROLL_STATE_IDLE);
    b.OnScrollStateChanged(SCROLL_STATE_TOUCH_SCROLL);
    b.OnScroll(2);
    b.RunSettleCheck(0);
    resumedTotal := b.votes.Total();
  }
}
