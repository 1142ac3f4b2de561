/** The mutex of src/mg/box/InterruptibleMutex.cpp: any number of threads, one step an atomic operation. */
module InterruptibleMutex {
  /** How a thread became the owner. */
  datatype How = ByTryLock | ByLock | Handed

  datatype Pc =
    | Out
    // Lock() after its TryLock() failed.
    | Wants             // Before myMutex.Lock().
    | Announces         // Before the waiters flag is set.
    | Takes             // The flag is set, the mutex was free.
    | Enlists           // The flag is set, the mutex was taken.
    | Called            // After the wakeup callback, if it was needed.
    | Appended          // In the waiters, before myMutex.Unlock().
    | Waits             // On its own signal.
    | Owns(how: How)
    // Unlock() after the flag of the waiters was seen.
    | Leaves            // Before myMutex.Lock().
    | Pops              // Before the first waiter is popped.
    | Clears(first: nat)  // Before the flag is changed.
    | Sends(first: nat)
    | Unlocks           // Before myMutex.Unlock().

  /**
   * `internal` owns myMutex and `owner` the mutex itself, -1 if nobody does. `fired` says whether a wakeup
   * callback was called since `owner` became the owner. `queued` and `handed` are all threads which were
   * ever appended to the waiters and popped from them.
   */
  datatype State = State(
    pcs: seq<Pc>, taken: bool, hasWaiters: bool, internal: int, waiters: seq<nat>, signaled: seq<bool>,
    owner: int, fired: bool, queued: seq<nat>, handed: seq<nat>)

  predicate Init(s: State) {
    && (forall t :: 0 <= t < |s.pcs| ==> s.pcs[t] == Out)
    && |s.signaled| == |s.pcs| && (forall t :: 0 <= t < |s.signaled| ==> !s.signaled[t])
    && !s.taken && !s.hasWaiters && s.internal == -1 && s.waiters == [] && s.owner == -1
    && s.queued == [] && s.handed == []
  }

  predicate Enabled(s: State, t: nat) {
    && t < |s.pcs| == |s.signaled|
    && match s.pcs[t] {
      case Wants => s.internal == -1
      case Leaves => s.internal == -1
      case Waits => s.signaled[t]
      case Pops => s.waiters != []
      case Sends(first) => first < |s.pcs|
      case _ => true
    }
  }

  /** The next atomic operation of the thread; `lock` decides whether it calls Lock() or TryLock(). */
  function Do(s: State, t: nat, lock: bool): State
    requires Enabled(s, t)
  {
    match s.pcs[t]
    case Out =>
      if !s.taken && !s.hasWaiters then
        s.(pcs := s.pcs[t := Owns(ByTryLock)], taken := true, owner := t, fired := false)
      else s.(pcs := s.pcs[t := if lock then Wants else Out])
    case Wants => s.(pcs := s.pcs[t := Announces], internal := t)
    case Announces => s.(pcs := s.pcs[t := if s.taken then Enlists else Takes], hasWaiters := true)
    case Takes =>
      s.(pcs := s.pcs[t := Owns(ByLock)], taken := true, hasWaiters := false, internal := -1, owner := t,
         fired := false)
    case Enlists => s.(pcs := s.pcs[t := Called], fired := s.fired || s.waiters == [])
    case Called => s.(pcs := s.pcs[t := Appended], waiters := s.waiters + [t], queued := s.queued + [t])
    case Appended => s.(pcs := s.pcs[t := Waits], internal := -1)
    case Waits => s.(pcs := s.pcs[t := Owns(Handed)], signaled := s.signaled[t := false])
    case Owns(_) =>
      if !s.hasWaiters then s.(pcs := s.pcs[t := Out], taken := false, owner := -1)
      else s.(pcs := s.pcs[t := Leaves])
    case Leaves => s.(pcs := s.pcs[t := Pops], internal := t)
    case Pops =>
      s.(pcs := s.pcs[t := Clears(s.waiters[0])], waiters := s.waiters[1..], handed := s.handed + [s.waiters[0]])
    case Clears(first) => s.(pcs := s.pcs[t := Sends(first)], hasWaiters := s.hasWaiters && s.waiters != [])
    case Sends(first) =>
      s.(pcs := s.pcs[t := Unlocks], signaled := s.signaled[first := true], owner := first, fired := false)
    case Unlocks => s.(pcs := s.pcs[t := Out], internal := -1)
  }

  /** The assertions of the code before the next operation of the thread, whether it can go on or not. */
  predicate Asserts(s: State, t: nat)
    requires t < |s.pcs|
  {
    match s.pcs[t]
    case Takes => s.waiters == [] && !s.taken && s.hasWaiters
    case Waits => t < |s.signaled| && (s.signaled[t] ==> s.taken)
    case Owns(_) => s.taken
    case Pops => s.waiters != []
    case Clears(_) => s.taken && s.hasWaiters
    // The popped waiter is on the stack of its thread.
    case Sends(first) => first < |s.pcs| == |s.signaled| && s.pcs[first] == Waits && !s.signaled[first]
    case _ => true
  }

  /** The thread waits for myMutex or for its own signal. */
  predicate Blocked(s: State, t: nat)
    requires t < |s.pcs| == |s.signaled|
  {
    match s.pcs[t]
    case Wants => s.internal != -1
    case Leaves => s.internal != -1
    case Waits => !s.signaled[t]
    case _ => false
  }

  // ------------------------------------------------------------------
  // The invariant

  /** Between the lock and the unlock of myMutex. */
  predicate Inside(pc: Pc) {
    pc.Announces? || pc.Takes? || pc.Enlists? || pc.Called? || pc.Appended? || pc.Pops? || pc.Clears? || pc.Sends?
    || pc.Unlocks?
  }

  predicate Owning(pc: Pc) {
    pc.Owns? || pc.Leaves? || pc.Pops? || pc.Clears? || pc.Sends?
  }

  /** The one the thread gives the mutex to. */
  predicate Gives(pc: Pc, first: nat) {
    pc == Clears(first) || pc == Sends(first)
  }

  predicate Queued(s: State, t: nat) {
    t in s.waiters
  }

  predicate ThreadOk(s: State, t: nat)
    requires t < |s.pcs| == |s.signaled|
  {
    var pc := s.pcs[t];
    && (s.internal == t <==> Inside(pc))
    && (s.owner == t <==> Owning(pc) || s.signaled[t])
    && (s.signaled[t] ==> pc == Waits && !Queued(s, t))
    && (Queued(s, t) ==> pc == Appended || pc == Waits)
    && (pc == Appended ==> Queued(s, t))
    && (pc == Waits ==> Queued(s, t) || s.signaled[t] || (0 <= s.owner < |s.pcs| && Gives(s.pcs[s.owner], t)))
    && (pc == Takes ==> !s.taken)
    && (pc == Enlists || pc == Called ==> s.taken)
    && (pc == Leaves || pc == Pops ==> s.hasWaiters)
    && (pc.Clears? || pc.Sends? ==>
          pc.first < |s.pcs| && s.pcs[pc.first] == Waits && !s.signaled[pc.first] && !Queued(s, pc.first))
    && (pc == Called && s.owner >= 0 && NeedsWakeup(s) ==> s.fired)
  }

  /** The owner did not get the mutex from another thread, and thus may sleep. */
  predicate NeedsWakeup(s: State) {
    0 <= s.owner < |s.pcs| && (s.pcs[s.owner] == Owns(ByTryLock) || s.pcs[s.owner] == Owns(ByLock))
  }

  /** The flag is ahead of the list, or behind it. */
  predicate KeepsFlag(pc: Pc) {
    pc.Takes? || pc.Enlists? || pc.Called? || pc.Clears?
  }

  predicate FlagOk(s: State) {
    s.hasWaiters <==>
      || s.waiters != []
      || (0 <= s.internal < |s.pcs| && KeepsFlag(s.pcs[s.internal]))
  }

  predicate Shape(s: State) {
    && |s.signaled| == |s.pcs|
    && -1 <= s.internal < |s.pcs| && -1 <= s.owner < |s.pcs|
    && (s.taken <==> s.owner >= 0)
    && (s.waiters != [] ==> s.taken)
    && (forall i :: 0 <= i < |s.waiters| ==> s.waiters[i] < |s.pcs|)
    && (forall i, j :: 0 <= i < j < |s.waiters| ==> s.waiters[i] != s.waiters[j])
    && s.queued == s.handed + s.waiters
    && (NeedsWakeup(s) && s.waiters != [] ==> s.fired)
  }

  predicate IsLast(q: seq<nat>, t: nat) {
    q != [] && q[|q| - 1] == t
  }

  /** An owner by hand-off, or the one the owner is going to give the mutex to, is the last one handed to. */
  predicate HandedOk(s: State)
    requires |s.signaled| == |s.pcs|
  {
    0 <= s.owner < |s.pcs| ==>
      && (s.pcs[s.owner] == Owns(Handed) || s.signaled[s.owner] ==> IsLast(s.handed, s.owner))
      && (s.pcs[s.owner].Clears? || s.pcs[s.owner].Sends? ==> IsLast(s.handed, s.pcs[s.owner].first))
  }

  predicate Inv(s: State) {
    && Shape(s) && FlagOk(s) && HandedOk(s)
    && forall t {:trigger ThreadOk(s, t)} :: 0 <= t < |s.pcs| ==> ThreadOk(s, t)
  }

  lemma InitOk(s: State)
    requires Init(s)
    ensures Inv(s)
  {
  }

  predicate MayUnlock(pc: Pc) {
    pc.Owns? || pc.Leaves? || pc.Pops? || pc.Clears? || pc.Sends? || pc.Unlocks?
  }

  /** What is known of the other threads a step depends on. */
  lemma Known(s: State, t: nat)
    requires Inv(s) && Enabled(s, t)
    ensures ThreadOk(s, t)
    ensures s.owner >= 0 ==> ThreadOk(s, s.owner)
    ensures s.internal >= 0 ==> ThreadOk(s, s.internal)
    ensures s.pcs[t] == Pops ==> s.waiters[0] < |s.pcs| && ThreadOk(s, s.waiters[0]) && s.pcs[s.waiters[0]] == Waits
    ensures s.pcs[t].Clears? || s.pcs[t].Sends? ==> ThreadOk(s, s.pcs[t].first)
  {
    assert ThreadOk(s, t);
    if s.owner >= 0 {
      assert ThreadOk(s, s.owner);
    }
    if s.internal >= 0 {
      assert ThreadOk(s, s.internal);
    }
    if s.pcs[t] == Pops {
      assert ThreadOk(s, s.waiters[0]) && Queued(s, s.waiters[0]);
    }
    if s.pcs[t].Clears? || s.pcs[t].Sends? {
      assert ThreadOk(s, s.pcs[t].first);
    }
  }

  lemma LockKeepsShape(s: State, t: nat, lock: bool)
    requires Inv(s) && Enabled(s, t) && !MayUnlock(s.pcs[t])
    ensures Shape(Do(s, t, lock)) && FlagOk(Do(s, t, lock))
  {
    Known(s, t);
  }

  lemma UnlockKeepsShape(s: State, t: nat, lock: bool)
    requires Inv(s) && Enabled(s, t) && MayUnlock(s.pcs[t]) && s.pcs[t] != Pops
    ensures Shape(Do(s, t, lock)) && FlagOk(Do(s, t, lock))
  {
    Known(s, t);
  }

  lemma PopKeepsShape(s: State, t: nat, lock: bool)
    requires Inv(s) && Enabled(s, t) && s.pcs[t] == Pops
    ensures Shape(Do(s, t, lock)) && FlagOk(Do(s, t, lock))
  {
    Known(s, t);
    assert s.waiters == [s.waiters[0]] + s.waiters[1..];
  }

  /** Before the waiters flag is set, or after the wait. */
  predicate Outer(pc: Pc) {
    pc.Out? || pc.Wants? || pc.Waits? || pc.Takes?
  }

  lemma OutKeepsThread(s: State, t: nat, lock: bool, u: nat)
    requires Inv(s) && Enabled(s, t) && u < |s.pcs| && Shape(Do(s, t, lock)) && s.pcs[t].Out?
    ensures ThreadOk(Do(s, t, lock), u)
  {
    Known(s, t);
    assert ThreadOk(s, u);
  }

  lemma WantsKeepsThread(s: State, t: nat, lock: bool, u: nat)
    requires Inv(s) && Enabled(s, t) && u < |s.pcs| && Shape(Do(s, t, lock)) && s.pcs[t].Wants?
    ensures ThreadOk(Do(s, t, lock), u)
  {
    Known(s, t);
    assert ThreadOk(s, u);
  }

  lemma EntryKeepsThread(s: State, t: nat, lock: bool, u: nat)
    requires Inv(s) && Enabled(s, t) && u < |s.pcs| && Shape(Do(s, t, lock))
    requires s.pcs[t].Waits? || s.pcs[t].Takes?
    ensures ThreadOk(Do(s, t, lock), u)
  {
    Known(s, t);
    assert ThreadOk(s, u);
  }

  lemma LockKeepsThread(s: State, t: nat, lock: bool, u: nat)
    requires Inv(s) && Enabled(s, t) && u < |s.pcs| && Shape(Do(s, t, lock))
    requires !MayUnlock(s.pcs[t]) && !Outer(s.pcs[t])
    ensures ThreadOk(Do(s, t, lock), u)
  {
    Known(s, t);
    assert ThreadOk(s, u);
  }

  predicate HandsOver(pc: Pc) {
    pc.Pops? || pc.Clears? || pc.Sends?
  }

  lemma HandOverKeepsThread(s: State, t: nat, lock: bool, u: nat)
    requires Inv(s) && Enabled(s, t) && u < |s.pcs| && Shape(Do(s, t, lock)) && HandsOver(s.pcs[t])
    ensures ThreadOk(Do(s, t, lock), u)
  {
    Known(s, t);
    assert ThreadOk(s, u);
  }

  lemma UnlockKeepsThread(s: State, t: nat, lock: bool, u: nat)
    requires Inv(s) && Enabled(s, t) && u < |s.pcs| && Shape(Do(s, t, lock))
    requires MayUnlock(s.pcs[t]) && !HandsOver(s.pcs[t])
    ensures ThreadOk(Do(s, t, lock), u)
  {
    Known(s, t);
    assert ThreadOk(s, u);
  }

  lemma LockKeepsHanded(s: State, t: nat, lock: bool)
    requires Inv(s) && Enabled(s, t) && Shape(Do(s, t, lock)) && !MayUnlock(s.pcs[t]) && !Outer(s.pcs[t])
    ensures HandedOk(Do(s, t, lock))
  {
    Known(s, t);
  }

  lemma OutKeepsHanded(s: State, t: nat, lock: bool)
    requires Inv(s) && Enabled(s, t) && Shape(Do(s, t, lock)) && (s.pcs[t].Out? || s.pcs[t].Wants?)
    ensures HandedOk(Do(s, t, lock))
  {
    Known(s, t);
  }

  lemma EntryKeepsHanded(s: State, t: nat, lock: bool)
    requires Inv(s) && Enabled(s, t) && Shape(Do(s, t, lock)) && (s.pcs[t].Waits? || s.pcs[t].Takes?)
    ensures HandedOk(Do(s, t, lock))
  {
    Known(s, t);
  }

  lemma UnlockKeepsHanded(s: State, t: nat, lock: bool)
    requires Inv(s) && Enabled(s, t) && Shape(Do(s, t, lock)) && MayUnlock(s.pcs[t]) && !HandsOver(s.pcs[t])
    ensures HandedOk(Do(s, t, lock))
  {
    Known(s, t);
  }

  lemma HandOverKeepsHanded(s: State, t: nat, lock: bool)
    requires Inv(s) && Enabled(s, t) && Shape(Do(s, t, lock)) && HandsOver(s.pcs[t])
    ensures HandedOk(Do(s, t, lock))
  {
    Known(s, t);
  }

  lemma StepKeeps(s: State, t: nat, lock: bool)
    requires Inv(s) && Enabled(s, t)
    ensures Inv(Do(s, t, lock))
  {
    var n, pc := Do(s, t, lock), s.pcs[t];
    if pc == Pops {
      PopKeepsShape(s, t, lock);
    } else if MayUnlock(pc) {
      UnlockKeepsShape(s, t, lock);
    } else {
      LockKeepsShape(s, t, lock);
    }
    if HandsOver(pc) {
      HandOverKeepsHanded(s, t, lock);
    } else if MayUnlock(pc) {
      UnlockKeepsHanded(s, t, lock);
    } else if !Outer(pc) {
      LockKeepsHanded(s, t, lock);
    } else if pc.Waits? || pc.Takes? {
      EntryKeepsHanded(s, t, lock);
    } else {
      OutKeepsHanded(s, t, lock);
    }
    forall u | 0 <= u < |n.pcs|
      ensures ThreadOk(n, u)
    {
      if HandsOver(pc) {
        HandOverKeepsThread(s, t, lock, u);
      } else if MayUnlock(pc) {
        UnlockKeepsThread(s, t, lock, u);
      } else if !Outer(pc) {
        LockKeepsThread(s, t, lock, u);
      } else if pc.Waits? || pc.Takes? {
        EntryKeepsThread(s, t, lock, u);
      } else if pc.Wants? {
        WantsKeepsThread(s, t, lock, u);
      } else {
        OutKeepsThread(s, t, lock, u);
      }
    }
  }

  // ------------------------------------------------------------------
  // Runs

  datatype Action = Action(thread: nat, lock: bool)

  ghost predicate StepAt(states: seq<State>, actions: seq<Action>, n: nat)
    requires |states| == |actions| + 1 && n < |actions|
  {
    && Enabled(states[n], actions[n].thread)
    && states[n + 1] == Do(states[n], actions[n].thread, actions[n].lock)
  }

  ghost predicate IsRun(states: seq<State>, actions: seq<Action>) {
    && |states| == |actions| + 1
    && Init(states[0])
    && forall n {:trigger StepAt(states, actions, n)} :: 0 <= n < |actions| ==> StepAt(states, actions, n)
  }

  lemma {:induction false} RunInv(states: seq<State>, actions: seq<Action>, n: nat)
    requires IsRun(states, actions) && n < |states|
    ensures Inv(states[n])
  {
    if n == 0 {
      InitOk(states[0]);
    } else {
      RunInv(states, actions, n - 1);
      assert StepAt(states, actions, n - 1);
      StepKeeps(states[n - 1], actions[n - 1].thread, actions[n - 1].lock);
    }
  }

  /**
   * No assertion of the code fails in any run, for any thread which gets to it, and nothing but myMutex and its
   * own signal ever stops a thread.
   */
  lemma AssertionsHold(states: seq<State>, actions: seq<Action>, n: nat, t: nat)
    requires IsRun(states, actions) && n < |states| && t < |states[n].pcs|
    ensures Asserts(states[n], t)
    ensures |states[n].pcs| == |states[n].signaled| && (Enabled(states[n], t) <==> !Blocked(states[n], t))
  {
    RunInv(states, actions, n);
    var s := states[n];
    assert ThreadOk(s, t);
    if s.owner >= 0 {
      assert ThreadOk(s, s.owner);
    }
  }

  /** At most one thread is between getting the mutex and giving it away. */
  lemma MutualExclusion(states: seq<State>, actions: seq<Action>, n: nat, t: nat, u: nat)
    requires IsRun(states, actions) && n < |states| && t < |states[n].pcs| && u < |states[n].pcs|
    requires Owning(states[n].pcs[t]) && Owning(states[n].pcs[u])
    ensures t == u
  {
    RunInv(states, actions, n);
    assert ThreadOk(states[n], t) && ThreadOk(states[n], u);
  }

  /** Nobody waits for a free mutex. */
  lemma FreeHasNoWaiters(states: seq<State>, actions: seq<Action>, n: nat, t: nat)
    requires IsRun(states, actions) && n < |states| && t < |states[n].pcs|
    requires !states[n].taken
    ensures states[n].waiters == [] && states[n].pcs[t] != Waits && !Owning(states[n].pcs[t])
  {
    RunInv(states, actions, n);
    assert ThreadOk(states[n], t);
  }

  /** Who gets the mutex without a hand-off finds everybody who ever queued up served already. */
  lemma NoOvertaking(states: seq<State>, actions: seq<Action>, n: nat)
    requires IsRun(states, actions) && n < |actions|
    requires states[n].owner == -1 && states[n + 1].owner != -1
    ensures states[n].queued == states[n].handed && states[n + 1].queued == states[n + 1].handed
    ensures states[n + 1].owner == actions[n].thread
  {
    RunInv(states, actions, n);
    assert StepAt(states, actions, n);
    assert ThreadOk(states[n], actions[n].thread);
    if 0 <= states[n].internal {
      assert ThreadOk(states[n], states[n].internal);
    }
  }

  /** Who owns the mutex by a hand-off is the last one it was handed to. */
  lemma HandedToOwner(states: seq<State>, actions: seq<Action>, n: nat, t: nat)
    requires IsRun(states, actions) && n < |states| && t < |states[n].pcs|
    requires states[n].pcs[t] == Owns(Handed) || (t < |states[n].signaled| && states[n].signaled[t])
    ensures states[n].owner == t && IsLast(states[n].handed, t)
  {
    RunInv(states, actions, n);
    assert ThreadOk(states[n], t);
  }

  /** When the mutex goes from one owner to another, the new one is the next in the queue behind the served ones. */
  lemma HandOff(states: seq<State>, actions: seq<Action>, n: nat)
    requires IsRun(states, actions) && n < |actions|
    requires states[n].owner >= 0 && states[n + 1].owner >= 0 && states[n].owner != states[n + 1].owner
    ensures var s, s' := states[n], states[n + 1];
      s'.handed == s.handed && IsLast(s.handed, s'.owner) && s.handed <= s.queued
  {
    RunInv(states, actions, n);
    assert StepAt(states, actions, n);
    Known(states[n], actions[n].thread);
  }

  /** The mutex goes from waiter to waiter in the order they queued up, and the histories only grow. */
  lemma {:induction false} HandedInOrder(states: seq<State>, actions: seq<Action>, m: nat, n: nat)
    requires IsRun(states, actions) && m <= n < |states|
    ensures states[n].handed <= states[n].queued
    ensures states[m].handed <= states[n].handed && states[m].queued <= states[n].queued
  {
    RunInv(states, actions, n);
    if m < n {
      HandedInOrder(states, actions, m, n - 1);
      assert StepAt(states, actions, n - 1);
    }
  }

  /** An owner which may sleep had its wakeup callback called if somebody waits for it. */
  lemma SleeperWasWoken(states: seq<State>, actions: seq<Action>, n: nat, t: nat)
    requires IsRun(states, actions) && n < |states| && t < |states[n].pcs|
    requires states[n].pcs[t] == Owns(ByTryLock) && states[n].waiters != []
    ensures states[n].fired && states[n].owner == t
  {
    RunInv(states, actions, n);
    assert ThreadOk(states[n], t);
  }

  // ------------------------------------------------------------------
  // What a call has done when it returns

  /** Inside Lock(), or done with it. */
  predicate InLock(pc: Pc) {
    pc.Wants? || pc.Announces? || pc.Takes? || pc.Enlists? || pc.Called? || pc.Appended? || pc.Waits? || pc.Owns?
  }

  /** The thread did not become the owner by the actions `from..to`. */
  ghost predicate NotYet(states: seq<State>, from: nat, to: nat, t: nat)
    requires to < |states|
  {
    forall k :: from < k < to ==> t < |states[k].pcs| && !states[k].pcs[t].Owns?
  }

  /** A Lock() does not return before its thread is the owner. */
  lemma {:induction false} LockReturns(states: seq<State>, actions: seq<Action>, from: nat, to: nat, t: nat)
    requires IsRun(states, actions) && from < to < |states| && NotYet(states, from, to, t)
    requires actions[from] == Action(t, true) && t < |states[from].pcs| && states[from].pcs[t] == Out
    ensures t < |states[to].pcs| && InLock(states[to].pcs[t])
    ensures states[to].pcs[t].Owns? ==> states[to].owner == t
  {
    assert StepAt(states, actions, to - 1);
    if from + 1 < to {
      assert NotYet(states, from, to - 1, t);
      LockReturns(states, actions, from, to - 1, t);
    }
    LockMoves(states[to - 1], actions[to - 1], t);
    RunInv(states, actions, to);
    assert ThreadOk(states[to], t);
  }

  lemma LockMoves(s: State, a: Action, t: nat)
    requires Enabled(s, a.thread) && t < |s.pcs|
    requires if s.pcs[t] == Out then a == Action(t, true) else InLock(s.pcs[t]) && !s.pcs[t].Owns?
    ensures var n := Do(s, a.thread, a.lock); |n.pcs| == |s.pcs| && InLock(n.pcs[t])
  {
  }

  /** TryLock() takes the mutex if and only if it has no owner and no Lock() is just about to take it. */
  lemma TryLockReturns(states: seq<State>, actions: seq<Action>, n: nat, t: nat)
    requires IsRun(states, actions) && n < |actions| && t < |states[n].pcs|
    requires actions[n] == Action(t, false) && states[n].pcs[t] == Out
    ensures |states[n + 1].pcs| == |states[n].pcs|
    ensures var s, s' := states[n], states[n + 1];
      if s.owner == -1 && forall u :: 0 <= u < |s.pcs| ==> s.pcs[u] != Takes then
        s'.pcs[t] == Owns(ByTryLock) && s'.owner == t
      else
        s' == s
  {
    RunInv(states, actions, n);
    assert StepAt(states, actions, n);
    var s := states[n];
    if s.internal >= 0 {
      assert ThreadOk(s, s.internal);
    }
    forall u | 0 <= u < |s.pcs|
      ensures s.pcs[u] == Takes ==> s.hasWaiters && !s.taken
    {
      assert ThreadOk(s, u);
    }
    if s.owner >= 0 {
      assert ThreadOk(s, s.owner);
    }
  }

  /** Unlock() with nobody announced frees the mutex. */
  lemma UnlockFrees(states: seq<State>, actions: seq<Action>, n: nat, t: nat)
    requires IsRun(states, actions) && n < |actions| && actions[n].thread == t
    requires t < |states[n].pcs| && states[n].pcs[t].Owns? && !states[n].hasWaiters
    ensures var s' := states[n + 1];
      s'.owner == -1 && !s'.taken && t < |s'.pcs| && s'.pcs[t] == Out && s'.handed == states[n].handed
  {
    assert StepAt(states, actions, n);
  }

  /** Where an Unlock() which saw the waiters flag may be: it serves one waiter, the next one in the queue. */
  predicate UnlockAt(s: State, t: nat, served: seq<nat>)
    requires t < |s.pcs|
  {
    match s.pcs[t]
    case Leaves => s.handed == served
    case Pops => s.handed == served
    case Clears(first) => s.handed == served + [first]
    case Sends(first) => s.handed == served + [first]
    case Unlocks => |s.handed| == |served| + 1 && served <= s.handed && s.owner != t
    case Out => |s.handed| == |served| + 1 && served <= s.handed && s.owner != t
    case _ => false
  }

  /** While a thread is in the second half of Unlock() nobody else hands the mutex over. */
  lemma UnlockAlone(s: State, a: Action, t: nat, served: seq<nat>)
    requires Inv(s) && Enabled(s, a.thread) && t < |s.pcs| && s.pcs[t] != Out && UnlockAt(s, t, served)
    requires a.thread != t
    ensures var n := Do(s, a.thread, a.lock); |n.pcs| == |s.pcs| && n.pcs[t] == s.pcs[t] && n.handed == s.handed
  {
    assert ThreadOk(s, t) && ThreadOk(s, a.thread);
  }

  lemma UnlockMoves(s: State, t: nat, lock: bool, served: seq<nat>)
    requires Inv(s) && Enabled(s, t) && s.pcs[t] != Out && UnlockAt(s, t, served)
    ensures |Do(s, t, lock).pcs| == |s.pcs| && UnlockAt(Do(s, t, lock), t, served)
  {
    assert ThreadOk(s, t);
    if s.pcs[t].Sends? {
      assert ThreadOk(s, s.pcs[t].first);
    }
  }

  /** Unlock() with somebody announced has handed the mutex over to the next one in the queue when it returns. */
  lemma {:induction false} UnlockReturns(states: seq<State>, actions: seq<Action>, from: nat, to: nat, t: nat)
    requires IsRun(states, actions) && from < to < |states| && actions[from].thread == t
    requires t < |states[from].pcs| && states[from].pcs[t].Owns? && states[from].hasWaiters
    requires forall k :: from < k < to ==> t < |states[k].pcs| && states[k].pcs[t] != Out
    ensures t < |states[to].pcs| && UnlockAt(states[to], t, states[from].handed)
    ensures states[to].handed <= states[to].queued
  {
    assert StepAt(states, actions, to - 1);
    RunInv(states, actions, to - 1);
    RunInv(states, actions, to);
    if from + 1 < to {
      UnlockReturns(states, actions, from, to - 1, t);
      if actions[to - 1].thread == t {
        UnlockMoves(states[to - 1], t, actions[to - 1].lock, states[from].handed);
      } else {
        UnlockAlone(states[to - 1], actions[to - 1], t, states[from].handed);
        assert ThreadOk(states[to], t);
      }
    }
  }

  /** `fired` becomes true exactly when a thread is about to be the first waiter: it calls the wakeup callback then. */
  lemma FiredMeaning(s: State, t: nat, lock: bool)
    requires Enabled(s, t)
    ensures !s.fired && Do(s, t, lock).fired ==> s.pcs[t] == Enlists && s.waiters == []
    ensures s.pcs[t] == Enlists && s.waiters == [] ==> Do(s, t, lock).fired
  {
  }

  /** How many operations are left in a call at most. */
  function Left(pc: Pc): nat {
    match pc
    case Out => 0
    case Wants => 13
    case Announces => 12
    case Takes => 11
    case Enlists => 11
    case Called => 10
    case Appended => 9
    case Waits => 8
    case Owns(_) => 7
    case Leaves => 6
    case Pops => 5
    case Clears(_) => 4
    case Sends(_) => 3
    case Unlocks => 2
  }

  /** Each operation of a call brings it nearer to its end. */
  lemma CallsEnd(s: State, t: nat, lock: bool)
    requires Enabled(s, t) && s.pcs[t] != Out
    ensures |Do(s, t, lock).pcs| == |s.pcs| && Left(Do(s, t, lock).pcs[t]) < Left(s.pcs[t])
  {
  }

  /** Someone who waits is waited for by a thread which can go on: nobody sleeps forever on a deadlock. */
  lemma NoDeadlock(states: seq<State>, actions: seq<Action>, n: nat, t: nat)
    requires IsRun(states, actions) && n < |states| && t < |states[n].pcs|
    requires !Enabled(states[n], t)
    ensures exists u ::
              && 0 <= u < |states[n].pcs| && (u == states[n].owner || u == states[n].internal)
              && Enabled(states[n], u)
  {
    var s := states[n];
    RunInv(states, actions, n);
    assert ThreadOk(s, t);
    if s.internal >= 0 {
      assert ThreadOk(s, s.internal);
      assert Enabled(s, s.internal);
    } else {
      assert ThreadOk(s, s.owner);
      assert Enabled(s, s.owner);
    }
  }

  /** When all threads are done the mutex is as it was in the beginning. */
  lemma CleanInTheEnd(states: seq<State>, actions: seq<Action>, n: nat)
    requires IsRun(states, actions) && n < |states|
    requires forall t :: 0 <= t < |states[n].pcs| ==> states[n].pcs[t] == Out
    ensures !states[n].taken && !states[n].hasWaiters && states[n].queued == states[n].handed
  {
    RunInv(states, actions, n);
    if states[n].owner >= 0 || states[n].internal >= 0 {
      SomebodyInside(states[n]);
    }
  }

  lemma SomebodyInside(s: State)
    requires Inv(s) && (s.owner >= 0 || s.internal >= 0)
    ensures exists t :: 0 <= t < |s.pcs| && s.pcs[t] != Out
  {
    var t := if s.owner >= 0 then s.owner else s.internal;
    assert ThreadOk(s, t);
    assert s.pcs[t] != Out;
  }
}
