/** How long a message waits for its retries: the delays of `backoff`, added up over the waits a run makes
    for it. */
module ChainWaits {
  import opened Wrappers
  import opened Kafka
  import opened Delivery
  import opened DeliverySafety
  import opened Conservation
  import opened RetryChains
  import Backoff

  /** The label ends a wait for a descendant of `s`. */
  predicate WaitsFor(st: State, l: Label, s: Slot) {
    l.RetryWaited? && Holding(st.retry) && InHand(st.retry).src == s
  }

  /** What a label adds to the time waited for `s`. */
  function Slept(baseMs: int, st: State, l: Label, s: Slot): nat {
    if WaitsFor(st, l, s) && RetryCount(InHand(st.retry)) >= 0 then Backoff.SleepNs(baseMs, RetryCount(InHand(st.retry))) else 0
  }

  /** Nanoseconds a run waits for `s`. */
  function WaitedFor(cfg: Config, baseMs: int, st: State, ls: seq<Label>, s: Slot): nat
    decreases |ls|
  {
    if ls == [] || Step(cfg, st, ls[0]).None? then 0
    else Slept(baseMs, st, ls[0], s) + WaitedFor(cfg, baseMs, Step(cfg, st, ls[0]).value, ls[1..], s)
  }

  /** Waits so far: one before each call but the first, and one more when the next call is due. */
  function Waits(st: State, s: Slot): nat {
    var o := |Outcomes(st.calls, s)|;
    (if o == 0 then 0 else o - 1) + Due(st, s)
  }

  function Due(st: State, s: Slot): nat {
    if st.retry.pc.Ready? && Holding(st.retry) && InHand(st.retry).src == s then 1 else 0
  }

  /** Everything the chain lemmas need of a state. */
  ghost predicate Tracked(cfg: Config, st: State, s: Slot) {
    Inv(cfg, st) && Ledger(st, s) && NoRereads(st) && Chain(cfg, st, s) && st.crashes == 0
  }

  lemma DueStays(cfg: Config, st: State, l: Label, s: Slot)
    requires Placed(st.retry) && Enabled(cfg, st, l) && !l.Crash? && !l.RetryWaited? && !l.RetryOk? && !l.RetryErr?
    requires RetryStage(cfg, st.retry) && !Enabled(cfg, st, RetryDiscard)
    ensures Due(Next(cfg, st, l), s) == Due(st, s)
  {
    OpsFit(cfg, st, l);
    if l.Deliver? {
      AppendKeepsHand(st.retry, l.part, st.pipe.inflight[l.i], s);
    }
  }

  /** A wait begins a new attempt: it is the one numbered by the calls made so far. */
  lemma WaitedStep(cfg: Config, st: State, l: Label, s: Slot)
    requires Tracked(cfg, st, s) && l.RetryWaited? && Enabled(cfg, st, l)
    ensures Waits(Next(cfg, st, l), s) == Waits(st, s) + (if WaitsFor(st, l, s) then 1 else 0)
    ensures WaitsFor(st, l, s) ==> RetryCount(InHand(st.retry)) == Waits(st, s)
  {
    OutcomesStep(cfg, st, l, s);
    if WaitsFor(st, l, s) {
      assert InHandCount(st.retry, s) == 1;
      assert Provenance(cfg, st.main.topic, InHand(st.retry));
    }
  }

  /** A call uses up the wait before it; the first call needs none. */
  lemma CalledStep(cfg: Config, st: State, l: Label, s: Slot)
    requires Tracked(cfg, st, s) && Enabled(cfg, st, l) && (l.MainOk? || l.MainErr? || l.RetryOk? || l.RetryErr?)
    ensures Waits(Next(cfg, st, l), s) == Waits(st, s)
  {
    OutcomesStep(cfg, st, l, s);
    if l.MainOk? || l.MainErr? {
      DueUntouched(cfg, st, l, s);
      if CallsFor(st, l, s) {
        assert InHandCount(st.main, s) == 1;
      }
    } else {
      DueUsed(cfg, st, l, s);
      if CallsFor(st, l, s) {
        assert InHandCount(st.retry, s) == 1;
        assert Provenance(cfg, st.main.topic, InHand(st.retry));
      }
    }
  }

  lemma DueUntouched(cfg: Config, st: State, l: Label, s: Slot)
    requires Enabled(cfg, st, l) && (l.MainOk? || l.MainErr?)
    ensures Due(Next(cfg, st, l), s) == Due(st, s)
  {
    OpsFit(cfg, st, l);
  }

  lemma DueUsed(cfg: Config, st: State, l: Label, s: Slot)
    requires Enabled(cfg, st, l) && (l.RetryOk? || l.RetryErr?)
    ensures Due(Next(cfg, st, l), s) == 0
    ensures Due(st, s) == (if CallsFor(st, l, s) then 1 else 0)
  {
    OpsFit(cfg, st, l);
  }

  lemma QuietStep(cfg: Config, st: State, l: Label, s: Slot)
    requires Inv(cfg, st) && Enabled(cfg, st, l) && !l.Crash?
    requires !l.RetryWaited? && !l.MainOk? && !l.MainErr? && !l.RetryOk? && !l.RetryErr?
    ensures Waits(Next(cfg, st, l), s) == Waits(st, s)
  {
    RetryBranches(cfg, st);
    DueStays(cfg, st, l, s);
    OutcomesStep(cfg, st, l, s);
  }

  /** How many waits a label adds. */
  function WaitsBy(st: State, l: Label, s: Slot): nat {
    if WaitsFor(st, l, s) then 1 else 0
  }

  lemma WaitsCount(cfg: Config, st: State, l: Label, s: Slot)
    requires Tracked(cfg, st, s) && Enabled(cfg, st, l) && !l.Crash?
    ensures Waits(Next(cfg, st, l), s) == Waits(st, s) + WaitsBy(st, l, s)
    ensures WaitsFor(st, l, s) ==> RetryCount(InHand(st.retry)) == Waits(st, s)
  {
    if l.RetryWaited? {
      WaitedStep(cfg, st, l, s);
    } else if l.MainOk? || l.MainErr? || l.RetryOk? || l.RetryErr? {
      CalledStep(cfg, st, l, s);
    } else {
      QuietStep(cfg, st, l, s);
    }
  }

  lemma WaitsStep(cfg: Config, baseMs: int, st: State, l: Label, s: Slot)
    requires Tracked(cfg, st, s) && Enabled(cfg, st, l) && !l.Crash?
    ensures Backoff.TotalWait(baseMs, Waits(Next(cfg, st, l), s))
      == Backoff.TotalWait(baseMs, Waits(st, s)) + Slept(baseMs, st, l, s)
  {
    WaitsCount(cfg, st, l, s);
    ScheduleAdds(baseMs, st, l, s, Waits(st, s), Waits(Next(cfg, st, l), s));
  }

  lemma ScheduleAdds(baseMs: int, st: State, l: Label, s: Slot, n: nat, n': nat)
    requires n' == n + WaitsBy(st, l, s) && (WaitsFor(st, l, s) ==> RetryCount(InHand(st.retry)) == n)
    ensures Backoff.TotalWait(baseMs, n') == Backoff.TotalWait(baseMs, n) + Slept(baseMs, st, l, s)
  {
  }

  lemma TrackedStep(cfg: Config, st: State, l: Label, s: Slot)
    requires ValidConfig(cfg) && Tracked(cfg, st, s) && Enabled(cfg, st, l) && !l.Crash?
    ensures Tracked(cfg, Next(cfg, st, l), s)
  {
    InvStep(cfg, st, l);
    LedgerStep(cfg, st, l, s);
    NoRereadsStep(cfg, st, l);
    CrashesOnlyGrow(cfg, st, l);
    ChainStep(cfg, st, l, s);
  }

  lemma {:induction false} WaitsAlways(cfg: Config, baseMs: int, st: State, ls: seq<Label>, st': State, s: Slot)
    requires ValidConfig(cfg) && Tracked(cfg, st, s) && Runs(cfg, st, ls, st')
    requires forall k :: 0 <= k < |ls| ==> !ls[k].Crash?
    ensures Tracked(cfg, st', s)
    ensures Backoff.TotalWait(baseMs, Waits(st', s))
      == Backoff.TotalWait(baseMs, Waits(st, s)) + WaitedFor(cfg, baseMs, st, ls, s)
    decreases |ls|
  {
    if ls != [] {
      WaitsStep(cfg, baseMs, st, ls[0], s);
      TrackedStep(cfg, st, ls[0], s);
      WaitsAlways(cfg, baseMs, Next(cfg, st, ls[0]), ls[1..], st', s);
    }
  }

  /** At most `limit` waits: a message that is due has a count below the limit. */
  lemma WaitsWithinBudget(cfg: Config, st: State, s: Slot)
    requires Tracked(cfg, st, s)
    ensures Waits(st, s) <= Budget(cfg)
  {
    if Due(st, s) == 1 {
      assert InHandCount(st.retry, s) == 1;
      assert Provenance(cfg, st.main.topic, InHand(st.retry));
    } else {
      ChainShape(cfg, st, s);
    }
  }

  /** In a crash-free run the time waited for a message is exactly the first delays of the schedule, one for
      each retry made or due, whatever the interleaving and whatever base is configured. */
  lemma ChainWaitsBySchedule(cfg: Config, baseMs: int, st: State, ls: seq<Label>, st': State, s: Slot)
    requires ValidConfig(cfg) && Init(st) && Runs(cfg, st, ls, st')
    requires forall k :: 0 <= k < |ls| ==> !ls[k].Crash?
    ensures Waits(st', s) <= Budget(cfg)
    ensures WaitedFor(cfg, baseMs, st, ls, s) == Backoff.TotalWait(baseMs, Waits(st', s))
  {
    InitInv(cfg, st);
    InitLedger(st, s);
    InitChain(cfg, st, s);
    WaitsAlways(cfg, baseMs, st, ls, st', s);
    WaitsWithinBudget(cfg, st', s);
  }

  /** Under the bound on the configuration that is at most base * (2^limit - 1) ms, and 30 s * limit. */
  lemma ChainWaitBound(cfg: Config, baseMs: nat, st: State, ls: seq<Label>, st': State, s: Slot)
    requires ValidConfig(cfg) && Init(st) && Runs(cfg, st, ls, st')
    requires forall k :: 0 <= k < |ls| ==> !ls[k].Crash?
    requires cfg.maxRetry > 0 ==> baseMs * Backoff.Pow2(cfg.maxRetry - 1) < Backoff.TWO_63
    ensures WaitedFor(cfg, baseMs, st, ls, s) <= baseMs * (Backoff.Pow2(Budget(cfg)) - 1) * 1_000_000
    ensures WaitedFor(cfg, baseMs, st, ls, s) <= Backoff.CAP_NS * Budget(cfg)
  {
    ChainWaitsBySchedule(cfg, baseMs, st, ls, st', s);
    TotalWaitGrows(baseMs, Waits(st', s), Budget(cfg));
    Backoff.TotalWaitBound(baseMs, Budget(cfg), Budget(cfg));
  }

  lemma {:induction false} TotalWaitGrows(baseMs: int, n: nat, m: nat)
    requires n <= m
    ensures Backoff.TotalWait(baseMs, n) <= Backoff.TotalWait(baseMs, m)
  {
    if n < m {
      TotalWaitGrows(baseMs, n, m - 1);
    }
  }
}
