/** Deadlock freedom: whoever is blocked waits, in a few steps, on somebody who can run. */
module Progress {
  import opened Options
  import opened Ledger
  import opened Exchange
  import opened Control

  ghost predicate IsThread(s: State, t: Tid) {
    t.TraderTid? ==> t.i < |s.traders|
  }

  ghost predicate Finished(s: State, t: Tid)
    requires IsThread(s, t)
  {
    match t
    case TraderTid(i) => s.traders[i].phase.TFinished?
    case MatcherTid => s.matcher.phase.MFinished?
    case MakerTid => s.maker.phase.KFinished?
    case DashTid => s.dash.phase.DFinished?
    case MainTid => s.main.phase.Exited?
  }

  /** The event that is t's own next step; draws do not decide whether it is possible. */
  ghost function OwnStep(s: State, t: Tid): Event
    requires IsThread(s, t) && s.cfg.symbols != []
  {
    match t
    case TraderTid(i) => TraderStep(i, Draw(s.cfg.symbols[0], false, false, 0, 0))
    case MatcherTid => MatcherStep
    case MakerTid => MakerStep(FLOOR)
    case DashTid => DashStep
    case MainTid => MainStep
  }

  ghost function WantedBy(s: State, t: Tid): Option<Lock>
    requires IsThread(s, t)
  {
    match t
    case TraderTid(i) => s.traders[i].Wants()
    case MatcherTid => s.matcher.Wants(s.cfg)
    case MakerTid => s.maker.Wants()
    case DashTid => s.dash.Wants(s.cfg)
    case MainTid => s.main.Wants()
  }

  ghost predicate CanRun(s: State, t: Tid) {
    IsThread(s, t) && s.cfg.symbols != [] && Enabled(s, OwnStep(s, t))
  }

  /** What a blocked thread waits for: a mutex's owner, somebody in a full room, a thread to join, or main's signal. */
  ghost predicate WaitsFor(s: State, t: Tid, u: Tid) {
    && IsThread(s, t) && IsThread(s, u)
    && match t
       case TraderTid(i) =>
         (WantedBy(s, t).Some? && WantedBy(s, t).value in Owned(s.sh.owner, u))
         || (s.traders[i].phase.Enter? && s.sh.room == 0 && u.TraderTid? && s.traders[u.i].InRoom())
       case MatcherTid =>
         (WantedBy(s, t).Some? && WantedBy(s, t).value in Owned(s.sh.owner, u)) || (s.sh.sleeping && u == MainTid)
       case MainTid =>
         (WantedBy(s, t).Some? && WantedBy(s, t).value in Owned(s.sh.owner, u))
         || (s.main.phase.JoinTrader? && u == TraderTid(s.main.phase.k))
         || (s.main.phase.JoinMatcher? && u == MatcherTid)
         || (s.main.phase.JoinMaker? && u == MakerTid) || (s.main.phase.JoinDash? && u == DashTid)
       case _ => WantedBy(s, t).Some? && WantedBy(s, t).value in Owned(s.sh.owner, u)
  }

  /** Following waits from t reaches a thread that can run within n steps. */
  ghost predicate Unblocks(s: State, t: Tid, n: nat)
    decreases n
  {
    CanRun(s, t) || (n > 0 && exists u :: WaitsFor(s, t, u) && Unblocks(s, u, n - 1))
  }

  lemma {:induction false} UnblocksMore(s: State, t: Tid, n: nat, m: nat)
    requires Unblocks(s, t, n) && n <= m
    ensures Unblocks(s, t, m)
    decreases n
  {
    if !CanRun(s, t) {
      var u :| WaitsFor(s, t, u) && Unblocks(s, u, n - 1);
      UnblocksMore(s, u, n - 1, m - 1);
    }
  }

  // ---------------------------------------------------------------- ranks of locks

  /** A lock in use has an owner, which is a thread of the system. */
  lemma OwnerOf(s: State, l: Lock) returns (u: Tid)
    requires LocksHeld(s) && l in s.sh.owner
    ensures l in Owned(s.sh.owner, u) && IsThread(s, u)
  {
    u := s.sh.owner[l];
    assert l in Owned(s.sh.owner, u);
  }

  /** Whoever is inside the logger's mutex can leave it. */
  lemma LoggerHolderRuns(s: State, t: Tid)
    requires Shape(s) && LocksHeld(s) && IsThread(s, t) && LoggerLock in Owned(s.sh.owner, t)
    ensures CanRun(s, t)
  {
  }

  lemma TraderHolderRuns(s: State, i: nat, l: Lock)
    requires Shape(s) && LocksHeld(s) && i < |s.traders| && l in Owned(s.sh.owner, TraderTid(i))
    ensures CanRun(s, TraderTid(i))
  {
    assert TraderShape(s.cfg, s.traders[i]);
  }

  lemma MatcherHolderRunsOrLogs(s: State, l: Lock)
    requires Shape(s) && LocksHeld(s) && l in Owned(s.sh.owner, MatcherTid)
    ensures WantedBy(s, MatcherTid) == Some(LoggerLock) || CanRun(s, MatcherTid)
  {
  }

  /** Inside any other mutex a thread runs, or wants the logger's: locks are only nested in that order. */
  lemma HolderRunsOrLogs(s: State, t: Tid, l: Lock)
    requires Shape(s) && LocksHeld(s) && IsThread(s, t) && l in Owned(s.sh.owner, t)
    ensures WantedBy(s, t) == Some(LoggerLock) || CanRun(s, t)
  {
    match t
    case TraderTid(i) => TraderHolderRuns(s, i, l);
    case MatcherTid => MatcherHolderRunsOrLogs(s, l);
    case _ =>
  }

  lemma WantsLogger(s: State, t: Tid)
    requires ControlInv(s) && IsThread(s, t) && WantedBy(s, t) == Some(LoggerLock)
    ensures Unblocks(s, t, 1)
  {
    if LoggerLock in s.sh.owner {
      var u := OwnerOf(s, LoggerLock);
      LoggerHolderRuns(s, u);
      assert WaitsFor(s, t, u) && Unblocks(s, u, 0);
    }
  }

  lemma WantsLock(s: State, t: Tid)
    requires ControlInv(s) && IsThread(s, t) && WantedBy(s, t).Some?
    ensures Unblocks(s, t, 2)
  {
    var l := WantedBy(s, t).value;
    if l in s.sh.owner {
      var u := OwnerOf(s, l);
      HolderRunsOrLogs(s, u, l);
      if WantedBy(s, u) == Some(LoggerLock) {
        WantsLogger(s, u);
      }
      assert WaitsFor(s, t, u) && Unblocks(s, u, 1);
    }
  }

  // ---------------------------------------------------------------- each thread

  lemma WorkerUnblocks(s: State, t: Tid)
    requires ControlInv(s) && (t == MakerTid || t == DashTid) && !Finished(s, t)
    ensures Unblocks(s, t, 2)
  {
    if WantedBy(s, t).Some? {
      WantsLock(s, t);
    } else {
      assert CanRun(s, t);
    }
  }

  lemma TraderInRoomUnblocks(s: State, i: nat)
    requires ControlInv(s) && i < |s.traders|
    requires !s.traders[i].phase.TFinished? && (s.traders[i].phase.Enter? ==> s.sh.room > 0)
    ensures Unblocks(s, TraderTid(i), 2)
  {
    if WantedBy(s, TraderTid(i)).Some? {
      WantsLock(s, TraderTid(i));
    } else {
      assert CanRun(s, TraderTid(i));
    }
  }

  lemma TraderUnblocks(s: State, i: nat)
    requires ControlInv(s) && i < |s.traders| && !s.traders[i].phase.TFinished?
    ensures Unblocks(s, TraderTid(i), 3)
  {
    if s.traders[i].phase.Enter? && s.sh.room == 0 {
      var j := SumWitness(s.traders, Present);
      TraderInRoomUnblocks(s, j);
      assert WaitsFor(s, TraderTid(i), TraderTid(j)) && Unblocks(s, TraderTid(j), 2);
    } else {
      TraderInRoomUnblocks(s, i);
      UnblocksMore(s, TraderTid(i), 2, 3);
    }
  }

  lemma MatcherAwakeUnblocks(s: State)
    requires ControlInv(s) && !s.matcher.phase.MFinished? && !s.sh.sleeping
    ensures Unblocks(s, MatcherTid, 2)
  {
    if WantedBy(s, MatcherTid).Some? {
      WantsLock(s, MatcherTid);
    } else {
      assert CanRun(s, MatcherTid);
    }
  }

  lemma MainUnblocks(s: State)
    requires ControlInv(s) && !s.main.phase.Exited?
    ensures Unblocks(s, MainTid, 4)
  {
    if WantedBy(s, MainTid).Some? {
      WantsLock(s, MainTid);
      UnblocksMore(s, MainTid, 2, 4);
    } else if !CanRun(s, MainTid) {
      var u := JoinTarget(s);
      match u {
        case TraderTid(i) => TraderUnblocks(s, i);
        case MatcherTid => MatcherAwakeUnblocks(s); UnblocksMore(s, u, 2, 3);
        case MakerTid => WorkerUnblocks(s, u); UnblocksMore(s, u, 2, 3);
        case DashTid => WorkerUnblocks(s, u); UnblocksMore(s, u, 2, 3);
        case MainTid =>
      }
      assert WaitsFor(s, MainTid, u) && Unblocks(s, u, 3);
    }
  }

  /** Main blocked outside a mutex is joining somebody unfinished, and it has signalled before joining the matcher. */
  lemma JoinTarget(s: State) returns (u: Tid)
    requires ControlInv(s) && !s.main.phase.Exited? && WantedBy(s, MainTid).None? && !CanRun(s, MainTid)
    ensures WaitsFor(s, MainTid, u) && !Finished(s, u) && u != MainTid
    ensures u == MatcherTid ==> !s.sh.sleeping
  {
    u := match s.main.phase
      case JoinTrader(k) => TraderTid(k)
      case JoinMatcher => MatcherTid
      case JoinMaker => MakerTid
      case _ => DashTid;
  }

  /**
   * No deadlock, not even among some of the threads: in every reachable state each unfinished thread can
   * run, or waits for one that can along a chain of at most five.
   */
  lemma DeadlockFree(s: State, t: Tid)
    requires Reachable(s) && IsThread(s, t) && !Finished(s, t)
    ensures Unblocks(s, t, 5)
  {
    ReachableControl(s);
    match t
    case TraderTid(i) => TraderUnblocks(s, i); UnblocksMore(s, t, 3, 5);
    case MainTid => MainUnblocks(s); UnblocksMore(s, t, 4, 5);
    case MatcherTid =>
      if s.sh.sleeping {
        MainUnblocks(s);
        assert WaitsFor(s, t, MainTid) && Unblocks(s, MainTid, 4);
      } else {
        MatcherAwakeUnblocks(s);
        UnblocksMore(s, t, 2, 5);
      }
    case _ => WorkerUnblocks(s, t); UnblocksMore(s, t, 2, 5);
  }

  lemma {:induction false} SomebodyRuns(s: State, t: Tid, n: nat) returns (u: Tid)
    requires Unblocks(s, t, n)
    ensures CanRun(s, u)
    decreases n
  {
    if CanRun(s, t) {
      u := t;
    } else {
      var v :| WaitsFor(s, t, v) && Unblocks(s, v, n - 1);
      u := SomebodyRuns(s, v, n - 1);
    }
  }

  /** Until main has exited some thread has a step of its own, no spurious wakeup needed. */
  lemma SomeoneCanStep(s: State) returns (u: Tid)
    requires Reachable(s) && !s.main.phase.Exited?
    ensures CanRun(s, u)
  {
    DeadlockFree(s, MainTid);
    u := SomebodyRuns(s, MainTid, 5);
  }

  // ---------------------------------------------------------------- mutual exclusion, the room

  ghost function HeldBy(s: State, t: Tid): set<Lock>
    requires IsThread(s, t)
  {
    match t
    case TraderTid(i) => s.traders[i].Holds()
    case MatcherTid => s.matcher.Holds(s.cfg)
    case MakerTid => s.maker.Holds()
    case DashTid => s.dash.Holds(s.cfg)
    case MainTid => s.main.Holds()
  }

  /** Two threads are never inside the same mutex. */
  lemma MutualExclusion(s: State, t: Tid, u: Tid)
    requires Reachable(s) && IsThread(s, t) && IsThread(s, u) && t != u
    ensures HeldBy(s, t) !! HeldBy(s, u)
  {
    ReachableControl(s);
    assert HeldBy(s, t) == Owned(s.sh.owner, t) && HeldBy(s, u) == Owned(s.sh.owner, u);
  }

  /** The room is never over-full, and is empty once main has joined the traders. */
  lemma RoomCapacity(s: State)
    requires Reachable(s)
    ensures 0 <= SumOver(s.traders, Present) == s.cfg.capacity - s.sh.room <= s.cfg.capacity
    ensures s.main.PastTraders() ==> s.sh.room == s.cfg.capacity
  {
    ReachableControl(s);
    SumBounds(s.traders, Present);
    if s.main.PastTraders() && SumOver(s.traders, Present) > 0 {
      var i := SumWitness(s.traders, Present);
      assert false;
    }
  }
}
