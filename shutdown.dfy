/** The `isActive` flag of pcap-fsnotify/main.go and the context cancellation
    it guards. Every path that cancels the main context first flips the flag
    with `isActive.CompareAndSwap(true, false)`, so cancellation fires once. */
module Shutdown {
  /** The flag, whether the context was cancelled, and how many times a
      guarded cancellation fired. */
  datatype Flag = Flag(active: bool, cancelled: bool, fires: nat)

  /** The guarded cancellation paths: the `TCPDUMPW_EXITED` sentinel
      (main.go:467), the three-second deadline timer (main.go:539), the PCAP
      lock being acquired (main.go:555) and the initialization check
      (main.go:565). */
  datatype Trigger = Sentinel | DeadlineTimer | LockAcquired | InitFailure

  /** `if isActive.CompareAndSwap(true, false) { cancel() }` */
  function Fire(f: Flag): (r: Flag)
    ensures r.fires == f.fires + (if f.active then 1 else 0)
    ensures !r.active
    ensures r.cancelled <==> f.cancelled || f.active
  {
    if f.active then Flag(false, true, f.fires + 1) else f
  }

  /** The triggers, in the order they happen to run. */
  function FireAll(f: Flag, triggers: seq<Trigger>): Flag
    decreases |triggers|
  {
    if |triggers| == 0 then f else FireAll(Fire(f), triggers[1..])
  }

  /** The invariant of the flag: cancellation fired at most once, exactly
      when the context is cancelled, and never while the flag is still set. */
  predicate Inv(f: Flag)
  {
    f.fires <= 1 && (f.cancelled <==> f.fires == 1) && (f.cancelled ==> !f.active)
  }

  lemma FirePreservesInv(f: Flag)
    requires Inv(f)
    ensures Inv(Fire(f))
  {
  }

  /** Single fire: from a state where nothing has fired, any sequence of
      triggers cancels exactly once if the flag was set and there is at least
      one trigger, and never otherwise. */
  lemma {:induction false} FireAllSingleFire(f: Flag, triggers: seq<Trigger>)
    requires Inv(f)
    ensures Inv(FireAll(f, triggers))
    ensures FireAll(f, triggers).fires == f.fires + (if f.active && |triggers| > 0 then 1 else 0)
    ensures |triggers| > 0 ==> !FireAll(f, triggers).active
    decreases |triggers|
  {
    if |triggers| > 0 {
      FireAllSingleFire(Fire(f), triggers[1..]);
    }
  }

  /** Lines 445-450: the flag is set, then cleared again when watching the
      source directory fails. */
  function StartWatching(addOk: bool): (f: Flag)
    ensures Inv(f) && f.fires == 0
    ensures f.active <==> addOk
  {
    Flag(addOk, false, 0)
  }

  /** Lines 563-572: on an initialization error, cancel through the guard. */
  function InitCheck(f: Flag, addOk: bool): (g: Flag)
    ensures g.fires == f.fires + (if !addOk && f.active then 1 else 0)
    ensures !addOk ==> !g.active
    ensures g.cancelled <==> f.cancelled || (!addOk && f.active)
  {
    if addOk then f else Fire(f)
  }

  /** Start-up as written. */
  function StartAsWritten(addOk: bool): (f: Flag)
    ensures Inv(f)
    ensures !addOk ==> !f.active && !f.cancelled && f.fires == 0
    ensures addOk ==> f.active && !f.cancelled && f.fires == 0
  {
    InitCheck(StartWatching(addOk), addOk)
  }

  /** Start-up as evidently intended: the flag stays set until the
      initialization check clears it, so that check cancels the context. */
  function StartCorrected(addOk: bool): (f: Flag)
    ensures Inv(f)
    ensures f.active <==> addOk
    ensures f.cancelled <==> !addOk
    ensures f.fires == if addOk then 0 else 1
  {
    InitCheck(Flag(true, false, 0), addOk)
  }

  /** As written, a failure to watch the source directory clears the flag
      before the initialization check, so neither that check nor any later
      trigger ever cancels the context, and `main` waits forever. */
  lemma InitFailureNeverCancels(triggers: seq<Trigger>)
    ensures !FireAll(StartAsWritten(false), triggers).cancelled
  {
    FireAllSingleFire(StartAsWritten(false), triggers);
  }

  /** Corrected, the failure cancels at once, exactly once, and later
      triggers do nothing; a successful start cancels on the first trigger. */
  lemma StartCorrectedCancels(addOk: bool, triggers: seq<Trigger>)
    ensures Inv(StartCorrected(addOk))
    ensures !addOk ==> StartCorrected(false).cancelled && FireAll(StartCorrected(false), triggers).fires == 1
    ensures addOk && |triggers| > 0 ==> FireAll(StartCorrected(true), triggers).cancelled
    ensures addOk && |triggers| > 0 ==> FireAll(StartCorrected(true), triggers).fires == 1
  {
    FireAllSingleFire(StartCorrected(addOk), triggers);
  }
}
