/**
 * tryAction (domain/error.ts): run an action; on failure alert the
 * operator, wait the delay of the current slot and try again with the
 * next slot, until the last slot of the delay table, where it gives up.
 */
module Retry {
  import opened Common
  import opened Events

  /** What one tryAction call settles to, with everything it emitted. */
  datatype Retried<T> = Retried(result: Attempt<T>, events: seq<Event>)

  function MaxRetriesMessage(action: string): string
  {
    "Max retries reached for action: " + action
  }

  /** The alert tryAction raises when it gives up (a no-entry sign, then the message it throws). */
  function GiveUpAlert(action: string): string
  {
    "\U{26D4}\U{FE0F} " + MaxRetriesMessage(action)
  }

  /** `tryNumber >= delays.length - 1`, on integers: an empty table gives up at once. */
  predicate LastSlot(delays: seq<nat>, tryNumber: nat)
  {
    tryNumber + 1 >= |delays|
  }

  /** The most invocations a tryAction that starts at `tryNumber` can make. */
  function Budget(delays: seq<nat>, tryNumber: nat): (n: nat)
    ensures n >= 1
  {
    if LastSlot(delays, tryNumber) then 1 else |delays| - tryNumber
  }

  /**
   * `op(at, k)` is how the action settles on the attempt numbered k of the
   * tryAction that starts at trace position `at`; `call` is what each
   * attempt invokes and `action` is the actionDescription.
   */
  function TryAction<T>(op: (nat, nat) -> Attempt<T>, at: nat, call: Call, action: string,
                        delays: seq<nat>, tryNumber: nat): (r: Retried<T>)
    ensures |r.events| > 0 && r.events[0] == Invoked(call)
    ensures r.result.Threw? ==> r.result.message == MaxRetriesMessage(action)
    decreases |delays| - tryNumber
  {
    match op(at, tryNumber)
    case Returned(v) => Retried(Returned(v), [Invoked(call)])
    case Threw(e) =>
      if LastSlot(delays, tryNumber) then
        Retried(Threw(MaxRetriesMessage(action)), [Invoked(call), ErrorAlert(GiveUpAlert(action))])
      else
        var rest := TryAction(op, at, call, action, delays, tryNumber + 1);
        Retried(rest.result,
                [Invoked(call), RetryNotice(action, e, delays[tryNumber]), Slept(delays[tryNumber])] + rest.events)
  }

  /** The only events a tryAction emits. */
  predicate RetryEvent(e: Event, call: Call, action: string)
  {
    || e == Invoked(call)
    || (e.RetryNotice? && e.action == action)
    || e.Slept?
    || e == ErrorAlert(GiveUpAlert(action))
  }

  /** The events of one failed attempt before the last slot: one invocation and one sleep. */
  lemma RetryStepCounts(call: Call, action: string, e: string, d: nat)
    ensures Invocations([Invoked(call), RetryNotice(action, e, d), Slept(d)]) == 1
    ensures Sleeps([Invoked(call), RetryNotice(action, e, d), Slept(d)]) == [d]
  {
    var s := [Invoked(call), RetryNotice(action, e, d), Slept(d)];
    var s1, s2 := [RetryNotice(action, e, d), Slept(d)], [Slept(d)];
    assert s[1..] == s1 && s1[1..] == s2 && s2[1..] == [];
    assert Invocations(s2) == 0 && Sleeps(s2) == [d] + Sleeps([]);
    assert Invocations(s1) == 0 && Sleeps(s1) == [] + Sleeps(s2);
    assert Invocations(s) == 1 + Invocations(s1) && Sleeps(s) == [] + Sleeps(s1);
  }

  /** A first attempt that succeeds is returned with no alert and no sleep. */
  lemma ImmediateSuccess<T>(op: (nat, nat) -> Attempt<T>, at: nat, call: Call, action: string,
                           delays: seq<nat>, tryNumber: nat)
    requires op(at, tryNumber).Returned?
    ensures TryAction(op, at, call, action, delays, tryNumber) == Retried(op(at, tryNumber), [Invoked(call)])
  {
  }

  /** A failure in the last slot alerts and throws, without invoking the action again. */
  lemma GivesUpAtLastSlot<T>(op: (nat, nat) -> Attempt<T>, at: nat, call: Call, action: string,
                            delays: seq<nat>, tryNumber: nat)
    requires op(at, tryNumber).Threw? && LastSlot(delays, tryNumber)
    ensures TryAction(op, at, call, action, delays, tryNumber)
         == Retried(Threw(MaxRetriesMessage(action)), [Invoked(call), ErrorAlert(GiveUpAlert(action))])
  {
  }

  /** A failure before the last slot waits exactly delays[tryNumber] and retries with tryNumber + 1. */
  lemma RetriesWithSlotDelay<T>(op: (nat, nat) -> Attempt<T>, at: nat, call: Call, action: string,
                               delays: seq<nat>, tryNumber: nat)
    requires op(at, tryNumber).Threw? && !LastSlot(delays, tryNumber)
    ensures var r := TryAction(op, at, call, action, delays, tryNumber);
            var next := TryAction(op, at, call, action, delays, tryNumber + 1);
            && r.result == next.result
            && r.events == [Invoked(call), RetryNotice(action, op(at, tryNumber).message, delays[tryNumber]),
                            Slept(delays[tryNumber])] + next.events
  {
  }

  /** tryAction emits nothing but invocations of its own call, its notices, sleeps and its final alert. */
  lemma {:induction false} OnlyRetryEvents<T>(op: (nat, nat) -> Attempt<T>, at: nat, call: Call, action: string,
                                              delays: seq<nat>, tryNumber: nat)
    ensures forall e :: e in TryAction(op, at, call, action, delays, tryNumber).events ==> RetryEvent(e, call, action)
    decreases |delays| - tryNumber
  {
    if op(at, tryNumber).Threw? && !LastSlot(delays, tryNumber) {
      OnlyRetryEvents(op, at, call, action, delays, tryNumber + 1);
    }
  }

  /** The action is invoked at least once and at most Budget times. */
  lemma {:induction false} InvocationsWithinBudget<T>(op: (nat, nat) -> Attempt<T>, at: nat, call: Call, action: string,
                                                      delays: seq<nat>, tryNumber: nat)
    ensures 1 <= Invocations(TryAction(op, at, call, action, delays, tryNumber).events) <= Budget(delays, tryNumber)
    decreases |delays| - tryNumber
  {
    var r := TryAction(op, at, call, action, delays, tryNumber);
    match op(at, tryNumber)
    case Returned(_) =>
      assert Invocations(r.events) == 1 + Invocations([]);
    case Threw(e) =>
      if LastSlot(delays, tryNumber) {
        var tail := [ErrorAlert(GiveUpAlert(action))];
        assert r.events == [Invoked(call), ErrorAlert(GiveUpAlert(action))];
        assert r.events[1..] == tail && tail[1..] == [];
        assert Invocations(tail) == 0 + Invocations([]);
        assert Invocations(r.events) == 1 + Invocations(tail);
      } else {
        var next := TryAction(op, at, call, action, delays, tryNumber + 1);
        InvocationsWithinBudget(op, at, call, action, delays, tryNumber + 1);
        var head := [Invoked(call), RetryNotice(action, e, delays[tryNumber]), Slept(delays[tryNumber])];
        InvocationsAppend(head, next.events);
        RetryStepCounts(call, action, e, delays[tryNumber]);
      }
  }

  /**
   * The result is the outcome of the last invocation, and every earlier
   * invocation threw: a returned value comes from the first success, and a
   * thrown result follows failures in every slot up to the budget.
   */
  lemma {:induction false} SettlesOnLastInvocation<T>(op: (nat, nat) -> Attempt<T>, at: nat, call: Call, action: string,
                                                      delays: seq<nat>, tryNumber: nat)
    ensures var r := TryAction(op, at, call, action, delays, tryNumber);
            var n := Invocations(r.events);
            && n >= 1
            && (forall k :: tryNumber <= k < tryNumber + n - 1 ==> op(at, k).Threw?)
            && (r.result.Returned? ==> r.result == op(at, tryNumber + n - 1))
            && (r.result.Threw? ==> op(at, tryNumber + n - 1).Threw? && n == Budget(delays, tryNumber)
                                    && r.result.message == MaxRetriesMessage(action))
    decreases |delays| - tryNumber
  {
    InvocationsWithinBudget(op, at, call, action, delays, tryNumber);
    var r := TryAction(op, at, call, action, delays, tryNumber);
    match op(at, tryNumber)
    case Returned(_) =>
      assert Invocations(r.events) == 1 + Invocations([]);
    case Threw(e) =>
      if LastSlot(delays, tryNumber) {
        assert Invocations(r.events) == 1 + Invocations([ErrorAlert(GiveUpAlert(action))]);
      } else {
        var next := TryAction(op, at, call, action, delays, tryNumber + 1);
        SettlesOnLastInvocation(op, at, call, action, delays, tryNumber + 1);
        var head := [Invoked(call), RetryNotice(action, e, delays[tryNumber]), Slept(delays[tryNumber])];
        InvocationsAppend(head, next.events);
        RetryStepCounts(call, action, e, delays[tryNumber]);
      }
  }

  /** tryAction returns a value exactly when some attempt within the budget succeeds. */
  lemma SucceedsIffSomeAttemptSucceeds<T>(op: (nat, nat) -> Attempt<T>, at: nat, call: Call, action: string,
                                         delays: seq<nat>, tryNumber: nat)
    ensures TryAction(op, at, call, action, delays, tryNumber).result.Returned?
        <==> exists k :: tryNumber <= k < tryNumber + Budget(delays, tryNumber) && op(at, k).Returned?
  {
    var r := TryAction(op, at, call, action, delays, tryNumber);
    var n := Invocations(r.events);
    SettlesOnLastInvocation(op, at, call, action, delays, tryNumber);
    InvocationsWithinBudget(op, at, call, action, delays, tryNumber);
    if r.result.Returned? {
      assert op(at, tryNumber + n - 1).Returned?;
    }
  }

  /** When every attempt fails, tryAction throws after sleeping delays[tryNumber .. |delays|-2] in order. */
  lemma {:induction false} AllAttemptsFail<T>(op: (nat, nat) -> Attempt<T>, at: nat, call: Call, action: string,
                                              delays: seq<nat>, tryNumber: nat)
    requires forall k :: tryNumber <= k < tryNumber + Budget(delays, tryNumber) ==> op(at, k).Threw?
    ensures var r := TryAction(op, at, call, action, delays, tryNumber);
            && r.result == Threw(MaxRetriesMessage(action))
            && Sleeps(r.events) == (if tryNumber < |delays| then delays[tryNumber..|delays| - 1] else [])
            && r.events[|r.events| - 1] == ErrorAlert(GiveUpAlert(action))
    decreases |delays| - tryNumber
  {
    assert op(at, tryNumber).Threw?;
    if LastSlot(delays, tryNumber) {
      FailsAtLastSlot(op, at, call, action, delays, tryNumber);
    } else {
      var e := op(at, tryNumber).message;
      var d := delays[tryNumber];
      FailingRetriesStep(op, at, call, action, delays, tryNumber);
      var next := TryAction(op, at, call, action, delays, tryNumber + 1);
      var head := [Invoked(call), RetryNotice(action, e, d), Slept(d)];
      RetriesWithSlotDelay(op, at, call, action, delays, tryNumber);
      var r := TryAction(op, at, call, action, delays, tryNumber);
      assert r.events == head + next.events;
      assert r.events[|r.events| - 1] == next.events[|next.events| - 1];
      SleepsAppend(head, next.events);
      RetryStepCounts(call, action, e, d);
      SliceFront(delays, tryNumber, |delays| - 1);
    }
  }

  lemma SliceFront(s: seq<nat>, i: nat, j: nat)
    requires i < j <= |s|
    ensures s[i..j] == [s[i]] + s[i + 1..j]
  {
  }

  /** The base case of AllAttemptsFail: a failure in the last slot alerts without sleeping. */
  lemma FailsAtLastSlot<T>(op: (nat, nat) -> Attempt<T>, at: nat, call: Call, action: string,
                           delays: seq<nat>, tryNumber: nat)
    requires op(at, tryNumber).Threw? && LastSlot(delays, tryNumber)
    ensures var r := TryAction(op, at, call, action, delays, tryNumber);
            && r.result == Threw(MaxRetriesMessage(action))
            && Sleeps(r.events) == []
            && r.events[|r.events| - 1] == ErrorAlert(GiveUpAlert(action))
  {
    var tail := [ErrorAlert(GiveUpAlert(action))];
    assert TryAction(op, at, call, action, delays, tryNumber).events == [Invoked(call)] + tail;
    assert Sleeps(tail) == [] + Sleeps([]);
    assert Sleeps([Invoked(call)] + tail) == [] + Sleeps(tail) by {
      assert ([Invoked(call)] + tail)[1..] == tail;
    }
  }

  /** The induction step of AllAttemptsFail: the remaining attempts all fail too. */
  lemma {:induction false} FailingRetriesStep<T>(op: (nat, nat) -> Attempt<T>, at: nat, call: Call, action: string,
                                                 delays: seq<nat>, tryNumber: nat)
    requires forall k :: tryNumber <= k < tryNumber + Budget(delays, tryNumber) ==> op(at, k).Threw?
    requires !LastSlot(delays, tryNumber)
    ensures var next := TryAction(op, at, call, action, delays, tryNumber + 1);
            && next.result == Threw(MaxRetriesMessage(action))
            && Sleeps(next.events) == (if tryNumber + 1 < |delays| then delays[tryNumber + 1..|delays| - 1] else [])
            && next.events[|next.events| - 1] == ErrorAlert(GiveUpAlert(action))
    decreases |delays| - tryNumber, 0
  {
    assert Budget(delays, tryNumber + 1) == Budget(delays, tryNumber) - 1;
    AllAttemptsFail(op, at, call, action, delays, tryNumber + 1);
  }
  /** Every remote call a tryAction makes is its own call. */
  lemma OnlyItsOwnCall<T>(op: (nat, nat) -> Attempt<T>, at: nat, call: Call, action: string,
                          delays: seq<nat>, tryNumber: nat)
    ensures forall c :: c in Calls(TryAction(op, at, call, action, delays, tryNumber).events) ==> c == call
  {
    OnlyRetryEvents(op, at, call, action, delays, tryNumber);
    CallsMembership(TryAction(op, at, call, action, delays, tryNumber).events);
  }

  /** A tryAction whose own call is allowed keeps to what is allowed. */
  lemma OwnCallWithin<T>(op: (nat, nat) -> Attempt<T>, at: nat, call: Call, action: string,
                         delays: seq<nat>, tryNumber: nat, allowed: Call -> bool)
    requires allowed(call)
    ensures CallsWithin(TryAction(op, at, call, action, delays, tryNumber).events, allowed)
  {
    OnlyItsOwnCall(op, at, call, action, delays, tryNumber);
    CallsWithinMeans(TryAction(op, at, call, action, delays, tryNumber).events, allowed);
  }

  /** A tryAction posts no chat message other than its own retry notices and alert. */
  lemma PostsNothing<T>(op: (nat, nat) -> Attempt<T>, at: nat, call: Call, action: string,
                        delays: seq<nat>, tryNumber: nat)
    ensures Posted(TryAction(op, at, call, action, delays, tryNumber).events) == []
  {
    OnlyRetryEvents(op, at, call, action, delays, tryNumber);
    NothingPosted(TryAction(op, at, call, action, delays, tryNumber).events);
  }

  /**
   * tryAction as written against the scalar ERROR_DELAY_SEC = 30 of
   * domain/settings.ts: `30.length - 1` is NaN, so the give-up test
   * `tryNumber >= NaN` is always false and every failure is retried.
   * `fuel` bounds the number of attempts looked at; None means the call has
   * not settled within them.
   */
  function ScalarTryAction<T>(op: (nat, nat) -> Attempt<T>, at: nat, tryNumber: nat, fuel: nat): (r: Option<Attempt<T>>)
    ensures r.Some? ==> r.value.Returned?
    ensures r.Some? ==> exists k :: tryNumber <= k < tryNumber + fuel && r.value == op(at, k)
    decreases fuel
  {
    if fuel == 0 then None
    else match op(at, tryNumber)
         case Returned(v) => Some(Returned(v))
         case Threw(_) => ScalarTryAction(op, at, tryNumber + 1, fuel - 1)
  }

  /** As written, an action that always fails is retried for ever: it never throws, whatever the bound. */
  lemma {:induction false} ScalarNeverGivesUp<T>(op: (nat, nat) -> Attempt<T>, at: nat, tryNumber: nat, fuel: nat)
    requires forall k :: tryNumber <= k ==> op(at, k).Threw?
    ensures ScalarTryAction(op, at, tryNumber, fuel) == None
    decreases fuel
  {
    if fuel > 0 {
      assert op(at, tryNumber).Threw?;
      ScalarNeverGivesUp(op, at, tryNumber + 1, fuel - 1);
    }
  }

  /** With a delay table, the same action makes Budget attempts and then throws. */
  lemma TableGivesUp<T>(op: (nat, nat) -> Attempt<T>, at: nat, call: Call, action: string, delays: seq<nat>,
                        tryNumber: nat)
    requires forall k :: tryNumber <= k ==> op(at, k).Threw?
    ensures var r := TryAction(op, at, call, action, delays, tryNumber);
            r.result == Threw(MaxRetriesMessage(action)) && Invocations(r.events) == Budget(delays, tryNumber)
  {
    AllAttemptsFail(op, at, call, action, delays, tryNumber);
    SettlesOnLastInvocation(op, at, call, action, delays, tryNumber);
  }
}
