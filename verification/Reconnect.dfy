/** The reconnect helper: its schedule over the reals, and its driver with a record of everything it did. */
module Reconnect {
  import opened Frames

  // ------------------------------------------------------------ the schedule

  /** `maxAttempts` is `None` for no limit. */
  datatype Options = Options(initialDelay: real, factor: real, maxDelay: real, jitter: real, maxAttempts: Option<nat>)

  /** What the options' own checks accept. */
  predicate Acceptable(o: Options) {
    0.0 < o.initialDelay && 1.0 <= o.factor && 0.0 <= o.jitter <= 1.0
  }

  function Power(base: real, n: nat): real {
    if n == 0 then 1.0 else base * Power(base, n - 1)
  }

  function UnjitteredDelay(attempts: nat, o: Options): real {
    var grown := o.initialDelay * Power(o.factor, attempts);
    if grown <= o.maxDelay then grown else o.maxDelay
  }

  function Share(jitter: real, draw: real): real {
    1.0 + jitter * draw
  }

  /** `draw` is the random number the jitter uses. */
  function BackoffDelay(attempts: nat, o: Options, draw: real): real {
    var jittered := UnjitteredDelay(attempts, o) * Share(o.jitter, draw);
    if jittered <= 0.0 then 0.0 else jittered
  }

  predicate ShouldRetry(attempts: nat, o: Options) {
    o.maxAttempts.None? || attempts < o.maxAttempts.value
  }

  lemma {:induction false} PowerGrows(base: real, m: nat, n: nat)
    requires 1.0 <= base && m <= n
    ensures 1.0 <= Power(base, m) <= Power(base, n)
    decreases n
  {
    if n != 0 {
      if m == n {
        PowerGrows(base, m - 1, n - 1);
        Scaled(base, 1.0, Power(base, m - 1));
      } else {
        PowerGrows(base, m, n - 1);
        Scaled(base, 1.0, Power(base, n - 1));
        assert Power(base, n) == base * Power(base, n - 1) >= Power(base, n - 1);
      }
    }
  }

  lemma Scaled(a: real, b: real, c: real)
    requires b <= a && 0.0 <= c
    ensures b * c <= a * c
  {
  }

  /** More failed attempts never shorten the delay, and it never passes the cap. */
  lemma DelayGrowsToTheCap(m: nat, n: nat, o: Options)
    requires Acceptable(o) && m <= n
    ensures UnjitteredDelay(m, o) <= UnjitteredDelay(n, o) <= o.maxDelay
  {
    PowerGrows(o.factor, m, n);
    Scaled(Power(o.factor, n), Power(o.factor, m), o.initialDelay);
  }

  function Capped(delay: real, o: Options): real {
    if delay <= o.maxDelay then delay else o.maxDelay
  }

  /** The delay as a step: the first one, then the factor times the one before, never past the cap. */
  function Planned(failures: nat, o: Options): real {
    Capped(if failures == 0 then o.initialDelay else Grown(Planned(failures - 1, o), o), o)
  }

  function Grown(delay: real, o: Options): real {
    o.factor * delay
  }

  /** With a cap that is not negative, every failure multiplies the delay by the factor until the cap. */
  lemma {:induction false} DelayIsPlanned(failures: nat, o: Options)
    requires Acceptable(o) && 0.0 <= o.maxDelay
    ensures UnjitteredDelay(failures, o) == Planned(failures, o)
  {
    hide Capped, Grown, UnjitteredDelay;
    UnjitteredAt(failures, o);
    if failures != 0 {
      DelayIsPlanned(failures - 1, o);
      UnjitteredAt(failures - 1, o);
      CappedStep(o, Uncapped(failures - 1, o));
    }
  }

  /** The delay if nothing capped it. */
  function Uncapped(failures: nat, o: Options): real {
    if failures == 0 then o.initialDelay else Grown(Uncapped(failures - 1, o), o)
  }

  lemma {:induction false} UncappedIsPower(n: nat, o: Options)
    ensures Uncapped(n, o) == o.initialDelay * Power(o.factor, n)
  {
    if n != 0 {
      UncappedIsPower(n - 1, o);
      Regrouped(o.initialDelay, o.factor, Power(o.factor, n - 1));
    }
  }

  lemma UnjitteredAt(n: nat, o: Options)
    ensures UnjitteredDelay(n, o) == Capped(Uncapped(n, o), o)
  {
    hide Power, Uncapped;
    UncappedIsPower(n, o);
  }

  lemma CappedStep(o: Options, delay: real)
    requires 1.0 <= o.factor && 0.0 <= o.maxDelay
    ensures Capped(Grown(delay, o), o) == Capped(Grown(Capped(delay, o), o), o)
  {
    Scaled(o.factor, 1.0, o.maxDelay);
    if o.maxDelay < delay {
      Scaled(o.factor, 1.0, delay);
    }
  }

  lemma Regrouped(a: real, b: real, c: real)
    ensures a * (b * c) == b * (a * c)
  {
  }

  /** The cap is reached at some number of failures exactly when it is no more than the first delay or the delay
      grows at all; it is kept from then on. */
  lemma CapIsReachedIff(o: Options)
    requires Acceptable(o) && 0.0 <= o.maxDelay
    ensures (exists n :: UnjitteredDelay(n, o) == o.maxDelay) <==> o.maxDelay <= o.initialDelay || 1.0 < o.factor
    ensures forall n, m :: n <= m && UnjitteredDelay(n, o) == o.maxDelay ==> UnjitteredDelay(m, o) == o.maxDelay
  {
    hide UnjitteredDelay;
    if 1.0 < o.factor {
      var n := EnoughFailures(o);
      assert UnjitteredDelay(n, o) == o.maxDelay;
    } else {
      ConstantDelay(o);
      assert UnjitteredDelay(0, o) == if o.initialDelay <= o.maxDelay then o.initialDelay else o.maxDelay;
    }
    forall n, m | n <= m && UnjitteredDelay(n, o) == o.maxDelay
      ensures UnjitteredDelay(m, o) == o.maxDelay
    {
      DelayGrowsToTheCap(n, m, o);
    }
  }

  lemma ConstantDelay(o: Options)
    requires Acceptable(o) && o.factor == 1.0
    ensures forall n :: UnjitteredDelay(n, o) == if o.initialDelay <= o.maxDelay then o.initialDelay else o.maxDelay
  {
    forall n ensures Power(o.factor, n) == 1.0 { PowerOfOne(n); }
  }

  lemma {:induction false} PowerOfOne(n: nat)
    ensures Power(1.0, n) == 1.0
  {
    if n != 0 {
      PowerOfOne(n - 1);
    }
  }

  /** A delay that grows is past any cap after enough failures. */
  lemma EnoughFailures(o: Options) returns (n: nat)
    requires Acceptable(o) && 0.0 <= o.maxDelay && 1.0 < o.factor
    ensures UnjitteredDelay(n, o) == o.maxDelay
  {
    hide Power;
    var step := o.initialDelay * (o.factor - 1.0);
    NotPositive(0.0 - o.initialDelay, o.factor - 1.0);
    Positive(o.initialDelay, o.factor - 1.0);
    n := Multiple(o.maxDelay, step);
    PowerGrowsBySteps(o.factor, n);
    Distributed(o.initialDelay, n as real, o.factor - 1.0);
    Scaled(Power(o.factor, n), 1.0 + n as real * (o.factor - 1.0), o.initialDelay);
  }

  lemma Positive(a: real, b: real)
    requires 0.0 < a && 0.0 < b
    ensures 0.0 < a * b
  {
  }

  lemma Distributed(a: real, n: real, c: real)
    ensures a * (1.0 + n * c) == a + n * (a * c)
  {
  }

  /** Some multiple of a positive step is past any bound. */
  lemma Multiple(bound: real, step: real) returns (n: nat)
    requires 0.0 <= bound && 0.0 < step
    ensures bound <= n as real * step
  {
    var ratio := bound / step;
    assert ratio * step == bound;
    if ratio < 0.0 {
      NotPositive(ratio, step);
    }
    n := ratio.Floor + 1;
    Scaled(n as real, ratio, step);
  }

  lemma {:induction false} PowerGrowsBySteps(base: real, n: nat)
    requires 1.0 <= base
    ensures 1.0 + n as real * (base - 1.0) <= Power(base, n)
  {
    if n != 0 {
      PowerGrowsBySteps(base, n - 1);
      PowerGrows(base, 0, n - 1);
      Scaled(Power(base, n - 1), 1.0, base - 1.0);
      OneStepMore(base, n as real, Power(base, n - 1));
    }
  }

  lemma OneStepMore(base: real, n: real, power: real)
    requires 1.0 + (n - 1.0) * (base - 1.0) <= power && base - 1.0 <= power * (base - 1.0)
    ensures 1.0 + n * (base - 1.0) <= base * power
  {
    assert base * power == power + power * (base - 1.0);
    assert n * (base - 1.0) == (n - 1.0) * (base - 1.0) + (base - 1.0);
  }

  /** With a cap that is not negative, every delay lies within the jitter fraction of the unjittered one. */
  lemma JitterStaysWithin(attempts: nat, o: Options, draw: real)
    requires Acceptable(o) && 0.0 <= o.maxDelay && -1.0 <= draw <= 1.0
    ensures var base := UnjitteredDelay(attempts, o);
            base * (1.0 - o.jitter) <= BackoffDelay(attempts, o, draw) <= base * (1.0 + o.jitter)
    ensures 0.0 <= BackoffDelay(attempts, o, draw)
  {
    hide UnjitteredDelay, Share;
    BaseNotNegative(attempts, o);
    JitterFraction(o.jitter, draw);
    Within(UnjitteredDelay(attempts, o), 1.0 - o.jitter, Share(o.jitter, draw), 1.0 + o.jitter);
  }

  lemma BaseNotNegative(attempts: nat, o: Options)
    requires Acceptable(o) && 0.0 <= o.maxDelay
    ensures 0.0 <= UnjitteredDelay(attempts, o)
  {
    hide Power;
    PowerGrows(o.factor, 0, attempts);
    PowerOfNone(o.factor);
    NotPositive(0.0 - o.initialDelay, Power(o.factor, attempts));
  }

  lemma Within(base: real, low: real, share: real, high: real)
    requires 0.0 <= base && 0.0 <= low <= share <= high
    ensures base * low <= base * share <= base * high
    ensures 0.0 <= base * share
  {
  }

  lemma JitterFraction(jitter: real, draw: real)
    requires 0.0 <= jitter <= 1.0 && -1.0 <= draw <= 1.0
    ensures 0.0 <= 1.0 - jitter <= Share(jitter, draw) <= 1.0 + jitter
  {
    ProductWithin(jitter, draw);
  }

  lemma ProductWithin(a: real, b: real)
    requires 0.0 <= a && -1.0 <= b <= 1.0
    ensures 0.0 - a <= a * b <= a
  {
  }

  /** A negative cap is accepted by the checks; it makes every delay zero, whatever is drawn. */
  lemma NegativeCapMeansNoDelay(attempts: nat, o: Options, draw: real)
    requires Acceptable(o) && o.maxDelay < 0.0 && -1.0 <= draw <= 1.0
    ensures BackoffDelay(attempts, o, draw) == 0.0
  {
    hide Share;
    NegativeCapWins(attempts, o);
    ShareIsNotNegative(o.jitter, draw);
    var base, share := UnjitteredDelay(attempts, o), Share(o.jitter, draw);
    NotPositive(base, share);
    assert BackoffDelay(attempts, o, draw) == if base * share <= 0.0 then 0.0 else base * share;
  }

  /** The options' checks accept a negative cap; exactly then a delay leaves its jitter fraction. */
  lemma JitterStaysWithinIff(attempts: nat, o: Options, draw: real)
    requires Acceptable(o) && -1.0 <= draw <= 1.0
    ensures var base := UnjitteredDelay(attempts, o);
            base * (1.0 - o.jitter) <= BackoffDelay(attempts, o, draw) <= base * (1.0 + o.jitter) <==> 0.0 <= o.maxDelay
  {
    hide BackoffDelay;
    if 0.0 <= o.maxDelay {
      JitterStaysWithin(attempts, o, draw);
    } else {
      NegativeCapMeansNoDelay(attempts, o, draw);
      NegativeCapWins(attempts, o);
      Negative(o.maxDelay, 1.0 + o.jitter);
    }
  }

  lemma Negative(a: real, c: real)
    requires a < 0.0 && 1.0 <= c
    ensures a * c < 0.0
  {
  }

  lemma ShareIsNotNegative(jitter: real, draw: real)
    requires 0.0 <= jitter <= 1.0 && -1.0 <= draw <= 1.0
    ensures 0.0 <= Share(jitter, draw)
  {
    JitterFraction(jitter, draw);
  }

  lemma NegativeCapWins(attempts: nat, o: Options)
    requires Acceptable(o) && o.maxDelay < 0.0
    ensures UnjitteredDelay(attempts, o) == o.maxDelay
  {
    hide Power;
    PowerGrows(o.factor, 0, attempts);
    PowerOfNone(o.factor);
    NotPositive(0.0 - o.initialDelay, Power(o.factor, attempts));
  }

  lemma NotPositive(a: real, c: real)
    requires a <= 0.0 <= c
    ensures a * c <= 0.0
    ensures 0.0 <= (0.0 - a) * c
  {
  }

  lemma PowerOfNone(base: real)
    ensures Power(base, 0) == 1.0
  {
  }

  // ------------------------------------------------------------ the record

  /** Everything the driver does that can be seen.  `Lost` is a socket loss reported with its `will_retry`. */
  datatype Mark = Slept(delay: real) | Dialled | Missed | Up | Lost(willRetry: bool) | GaveUp

  /** Failed attempts since the last established connection. */
  function Failures(trace: seq<Mark>): nat {
    if trace == [] then 0
    else
      match trace[|trace| - 1]
      case Up => 0
      case Missed => Failures(trace[..|trace| - 1]) + 1
      case _ => Failures(trace[..|trace| - 1])
  }

  /** Dials since the last established connection. */
  function Dials(trace: seq<Mark>): nat {
    if trace == [] then 0
    else
      match trace[|trace| - 1]
      case Up => 0
      case Dialled => Dials(trace[..|trace| - 1]) + 1
      case _ => Dials(trace[..|trace| - 1])
  }

  function Delays(trace: seq<Mark>): seq<real> {
    if trace == [] then []
    else Delays(trace[..|trace| - 1]) + (if trace[|trace| - 1].Slept? then [trace[|trace| - 1].delay] else [])
  }

  lemma TraceSnoc(trace: seq<Mark>, mark: Mark)
    ensures Failures(trace + [mark]) == match mark case Up => 0 case Missed => Failures(trace) + 1 case _ =>
      Failures(trace)
    ensures Dials(trace + [mark]) == match mark case Up => 0 case Dialled => Dials(trace) + 1 case _ => Dials(trace)
    ensures Delays(trace + [mark]) == if mark.Slept? then Delays(trace) + [mark.delay] else Delays(trace)
  {
    assert (trace + [mark])[..|trace|] == trace;
  }

  /** At no moment have more attempts been dialled since the last establishment than the options allow. */
  ghost predicate Disciplined(trace: seq<Mark>, o: Options) {
    o.maxAttempts.Some? ==> forall k :: 0 <= k <= |trace| ==> Dials(trace[..k]) <= o.maxAttempts.value
  }

  /** Every sleep is the backoff delay of the failures before it, for some draw. */
  ghost predicate OnSchedule(trace: seq<Mark>, o: Options) {
    forall k :: 0 <= k < |trace| && trace[k].Slept? ==>
      exists draw :: -1.0 <= draw <= 1.0 && trace[k].delay == BackoffDelay(Failures(trace[..k]), o, draw)
  }

  /** A loss was reported as final, and no connection has been established since. */
  predicate Final(trace: seq<Mark>) {
    trace != [] &&
    match trace[|trace| - 1]
    case Up => false
    case Lost(willRetry) => !willRetry || Final(trace[..|trace| - 1])
    case _ => Final(trace[..|trace| - 1])
  }

  lemma FinalSnoc(trace: seq<Mark>, mark: Mark)
    ensures Final(trace + [mark]) == match mark case Up => false case Lost(willRetry) => !willRetry
      || Final(trace) case _ => Final(trace)
  {
    assert (trace + [mark])[..|trace|] == trace;
  }

  /** A loss reported with `will_retry` false is followed by no dial. */
  ghost predicate Honest(trace: seq<Mark>) {
    forall k :: 0 <= k < |trace| && trace[k].Dialled? ==> !Final(trace[..k])
  }

  predicate MayDial(trace: seq<Mark>, o: Options) {
    o.maxAttempts.None? || Dials(trace) < o.maxAttempts.value
  }

  /** A loss is reported as one that will be retried exactly when a dial is left, and the helper gives up only
      when none is. */
  ghost predicate Truthful(trace: seq<Mark>, o: Options) {
    forall k :: 0 <= k < |trace| ==>
      && (trace[k].Lost? ==> (trace[k].willRetry <==> MayDial(trace[..k], o)))
      && (trace[k].GaveUp? ==> !MayDial(trace[..k], o))
  }

  ghost predicate Lawful(trace: seq<Mark>, o: Options) {
    Disciplined(trace, o) && OnSchedule(trace, o) && Honest(trace) && Truthful(trace, o)
  }

  /** What may be recorded next. */
  ghost predicate MayRecord(trace: seq<Mark>, mark: Mark, o: Options) {
    && (mark.Dialled? ==> !Final(trace) && (o.maxAttempts.Some? ==> Dials(trace) < o.maxAttempts.value))
    && (mark.Slept? ==> exists draw :: -1.0 <= draw <= 1.0 && mark.delay == BackoffDelay(Failures(trace), o, draw))
    && (mark.Lost? ==> (mark.willRetry <==> MayDial(trace, o)))
    && (mark.GaveUp? ==> !MayDial(trace, o))
  }

  lemma SnocKeeps(trace: seq<Mark>, mark: Mark, o: Options)
    requires Lawful(trace, o) && MayRecord(trace, mark, o)
    ensures Lawful(trace + [mark], o)
  {
    hide BackoffDelay, Final;
    var all := trace + [mark];
    TraceSnoc(trace, mark);
    assert all[..|trace|] == trace && trace[..|trace|] == trace && all[..|all|] == all;
    forall k | 0 <= k <= |trace|
      ensures all[..k] == trace[..k]
    {
    }
  }

  lemma SleepMayRecord(trace: seq<Mark>, draw: real, o: Options)
    requires -1.0 <= draw <= 1.0
    ensures MayRecord(trace, Slept(BackoffDelay(Failures(trace), o, draw)), o)
  {
    hide BackoffDelay;
  }

  // ------------------------------------------------------------ the driver

  class AttemptCounter {
    var attempts: nat

    constructor ()
      ensures attempts == 0
    {
      attempts := 0;
    }

    method Failed() returns (value: nat)
      modifies this
      ensures value == attempts == old(attempts) + 1
    {
      attempts := attempts + 1;
      value := attempts;
    }

    method Established()
      modifies this
      ensures attempts == 0
    {
      attempts := 0;
    }
  }

  /** How one attempt turns out; `stop()` cancels the helper wherever it waits. */
  datatype Outcome = StoppedAsleep | StoppedDialling | StoppedGreeting | DialFailed | HelloFailed | Acknowledged

  datatype Attempt = Attempt(draw: real, outcome: Outcome)

  /** How a redial ends: no attempt left, stopped, or no further attempt has turned out yet. */
  datatype Fate = Established | Exhausted | Cancelled | Pending

  /** What one attempt does, after `failures` failed ones. */
  function AttemptMarks(a: Attempt, failures: nat, o: Options): seq<Mark> {
    [Slept(BackoffDelay(failures, o, a.draw))] +
    match a.outcome
    case StoppedAsleep => []
    case StoppedDialling => [Dialled]
    case StoppedGreeting => [Dialled]
    case DialFailed => [Dialled, Missed]
    case HelloFailed => [Dialled, Lost(ShouldRetry(failures + 1, o)), Missed]
    case Acknowledged => [Dialled, Up]
  }

  /** What a redial does with the attempts of `script`. */
  function RedialMarks(script: seq<Attempt>, failures: nat, o: Options): (seq<Mark>, Fate)
    decreases |script|
  {
    if !ShouldRetry(failures, o) then ([], Exhausted)
    else if script == [] then ([], Pending)
    else
      var marks := AttemptMarks(script[0], failures, o);
      match script[0].outcome
      case Acknowledged => (marks, Established)
      case StoppedAsleep => (marks, Cancelled)
      case StoppedDialling => (marks, Cancelled)
      case StoppedGreeting => (marks, Cancelled)
      case _ =>
        var (more, fate) := RedialMarks(script[1..], failures + 1, o);
        (marks + more, fate)
  }

  /** Everything the helper does while its socket is lost once for each of `lives`. */
  function HelperMarks(lives: seq<seq<Attempt>>, o: Options): seq<Mark>
    decreases |lives|
  {
    if lives == [] then []
    else
      var (marks, fate) := RedialMarks(lives[0], 0, o);
      [Lost(ShouldRetry(0, o))] + marks +
      match fate
      case Established => HelperMarks(lives[1..], o)
      case Exhausted => [GaveUp]
      case _ => []
  }

  // ------------------------------------------------------------ the pace of a run

  /** Sleeps since the last established connection, `before` of them ahead of `marks`. */
  function Sleeps(before: nat, marks: seq<Mark>): nat
    decreases |marks|
  {
    if marks == [] then before
    else Sleeps(match marks[0] case Up => 0 case Slept(_) => before + 1 case _ => before, marks[1..])
  }

  /** The delay after `sleeps` others since the connection was lost, with a draw that `ok` allows. */
  ghost predicate Timed(delay: real, sleeps: nat, o: Options, ok: real -> bool) {
    exists draw :: ok(draw) && delay == Planned(sleeps, o) * Share(o.jitter, draw)
  }

  ghost predicate KeepsPace(before: nat, marks: seq<Mark>, o: Options, ok: real -> bool)
    decreases |marks|
  {
    marks == [] ||
    (&& (marks[0].Slept? ==> Timed(marks[0].delay, before, o, ok))
     && KeepsPace(Sleeps(before, [marks[0]]), marks[1..], o, ok))
  }

  lemma {:induction false} PaceAppends(before: nat, a: seq<Mark>, b: seq<Mark>, o: Options, ok: real -> bool)
    requires KeepsPace(before, a, o, ok) && KeepsPace(Sleeps(before, a), b, o, ok)
    ensures KeepsPace(before, a + b, o, ok) && Sleeps(before, a + b) == Sleeps(Sleeps(before, a), b)
    decreases |a|
  {
    hide Timed;
    if a == [] {
      assert a + b == b;
    } else {
      var next := Sleeps(before, [a[0]]);
      SleepsOne(before, a[0]);
      assert (a + b)[1..] == a[1..] + b;
      PaceAppends(next, a[1..], b, o, ok);
    }
  }

  lemma SleepsOne(before: nat, mark: Mark)
    ensures Sleeps(before, [mark]) == match mark case Up => 0 case Slept(_) => before + 1 case _ => before
  {
    assert [mark][1..] == [];
  }

  /** One attempt, with its own draw. */
  lemma AttemptKeepsPace(a: Attempt, failures: nat, o: Options, ok: real -> bool)
    requires Acceptable(o) && 0.0 <= o.maxDelay && -1.0 <= a.draw <= 1.0 && ok(a.draw)
    ensures var marks := AttemptMarks(a, failures, o);
            && KeepsPace(failures, marks, o, ok)
            && Sleeps(failures, marks) == if a.outcome == Acknowledged then 0 else failures + 1
  {
    hide BackoffDelay, Planned, Share;
    var delay := BackoffDelay(failures, o, a.draw);
    DrawnDelay(failures, o, a.draw);
    var marks := AttemptMarks(a, failures, o);
    assert Timed(delay, failures, o, ok);
    AfterSleep(failures + 1, marks[1..], o, ok);
    assert marks == [Slept(delay)] + marks[1..];
    SleepsOne(failures, Slept(delay));
  }

  /** Nothing but a sleep and an establishment counts. */
  lemma {:induction false} AfterSleep(before: nat, rest: seq<Mark>, o: Options, ok: real -> bool)
    requires forall i :: 0 <= i < |rest| ==> !rest[i].Slept? && (rest[i].Up? ==> i == |rest| - 1)
    ensures KeepsPace(before, rest, o, ok)
    ensures Sleeps(before, rest) == if rest != [] && rest[|rest| - 1].Up? then 0 else before
    decreases |rest|
  {
    hide Timed;
    if rest != [] {
      SleepsOne(before, rest[0]);
      AfterSleep(Sleeps(before, [rest[0]]), rest[1..], o, ok);
    }
  }

  /** A drawn delay is the planned one and a share of it. */
  lemma DrawnDelay(failures: nat, o: Options, draw: real)
    requires Acceptable(o) && 0.0 <= o.maxDelay && -1.0 <= draw <= 1.0
    ensures BackoffDelay(failures, o, draw) == Planned(failures, o) * Share(o.jitter, draw)
  {
    hide UnjitteredDelay, Planned, Share;
    DelayIsPlanned(failures, o);
    BaseNotNegative(failures, o);
    ShareIsNotNegative(o.jitter, draw);
    NotPositive(0.0 - Planned(failures, o), Share(o.jitter, draw));
  }

  predicate Drawn(script: seq<Attempt>, ok: real -> bool) {
    forall i :: 0 <= i < |script| ==> -1.0 <= script[i].draw <= 1.0 && ok(script[i].draw)
  }

  lemma {:induction false} RedialKeepsPace(script: seq<Attempt>, failures: nat, o: Options, ok: real -> bool)
    requires Acceptable(o) && 0.0 <= o.maxDelay && Drawn(script, ok)
    ensures var (marks, fate) := RedialMarks(script, failures, o);
            KeepsPace(failures, marks, o, ok) && (fate.Established? ==> Sleeps(failures, marks) == 0)
    decreases |script|
  {
    hide AttemptMarks, KeepsPace, Sleeps, Acceptable;
    if !ShouldRetry(failures, o) || script == [] {
      AfterSleep(failures, [], o, ok);
    } else {
      AttemptKeepsPace(script[0], failures, o, ok);
      if script[0].outcome.DialFailed? || script[0].outcome.HelloFailed? {
        RedialKeepsPace(script[1..], failures + 1, o, ok);
        PaceAppends(failures, AttemptMarks(script[0], failures, o), RedialMarks(script[1..], failures + 1, o).0, o, ok);
      }
    }
  }

  lemma {:induction false} HelperKeepsPace(lives: seq<seq<Attempt>>, o: Options, ok: real -> bool)
    requires Acceptable(o) && 0.0 <= o.maxDelay && forall i :: 0 <= i < |lives| ==> Drawn(lives[i], ok)
    ensures KeepsPace(0, HelperMarks(lives, o), o, ok)
    decreases |lives|
  {
    hide RedialMarks, KeepsPace, Sleeps, Acceptable, Drawn;
    if lives == [] {
      AfterSleep(0, [], o, ok);
    } else {
      var (marks, fate) := RedialMarks(lives[0], 0, o);
      var lost := [Lost(ShouldRetry(0, o))];
      AfterSleep(0, lost, o, ok);
      RedialKeepsPace(lives[0], 0, o, ok);
      PaceAppends(0, lost, marks, o, ok);
      AfterSleep(Sleeps(0, lost + marks), [], o, ok);
      AfterSleep(Sleeps(0, lost + marks), [GaveUp], o, ok);
      if fate.Established? { HelperKeepsPace(lives[1..], o, ok); }
      PaceAppends(0, lost + marks, match fate case Established => HelperMarks(lives[1..], o) case Exhausted => [GaveUp]
          case _ => [], o, ok);
    }
  }

  lemma {:induction false} PacedAt(before: nat, marks: seq<Mark>, k: nat, o: Options, ok: real -> bool)
    requires KeepsPace(before, marks, o, ok) && k < |marks| && marks[k].Slept?
    ensures Timed(marks[k].delay, Sleeps(before, marks[..k]), o, ok)
    decreases |marks|
  {
    hide Timed;
    if k != 0 {
      assert marks[..k][0] == marks[0] && marks[..k][1..] == marks[1..][..k - 1];
      SleepsOne(before, marks[0]);
      PacedAt(Sleeps(before, [marks[0]]), marks[1..], k - 1, o, ok);
    }
  }

  /** In every run the sleep that follows `k` others since the last establishment is the first delay multiplied `k`
      times by the factor, never past the cap, and the share of it that its draw gives. */
  lemma SleepsArePlanned(lives: seq<seq<Attempt>>, k: nat, o: Options, ok: real -> bool)
    requires Acceptable(o) && 0.0 <= o.maxDelay && forall i :: 0 <= i < |lives| ==> Drawn(lives[i], ok)
    requires k < |HelperMarks(lives, o)| && HelperMarks(lives, o)[k].Slept?
    ensures Timed(HelperMarks(lives, o)[k].delay, Sleeps(0, HelperMarks(lives, o)[..k]), o, ok)
  {
    HelperKeepsPace(lives, o, ok);
    PacedAt(0, HelperMarks(lives, o), k, o, ok);
  }

  /** When every draw is 0, the sleeps are the planned delays themselves. */
  lemma UndrawnSleepsArePlanned(lives: seq<seq<Attempt>>, k: nat, o: Options)
    requires Acceptable(o) && 0.0 <= o.maxDelay && forall i :: 0 <= i < |lives| ==> Drawn(lives[i], draw => draw == 0.0)
    requires k < |HelperMarks(lives, o)| && HelperMarks(lives, o)[k].Slept?
    ensures HelperMarks(lives, o)[k].delay == Planned(Sleeps(0, HelperMarks(lives, o)[..k]), o)
  {
    hide HelperMarks, Planned, Sleeps;
    SleepsArePlanned(lives, k, o, draw => draw == 0.0);
  }

  // ------------------------------------------------------------ no attempt is left out

  predicate Fails(a: Attempt) { a.outcome.DialFailed? || a.outcome.HelloFailed? }

  function DialsOf(outcome: Outcome): nat { if outcome.StoppedAsleep? then 0 else 1 }

  /** How many attempts the options still allow after `failures`; more than `length` when they set no limit. */
  function AttemptsLeft(failures: nat, length: nat, o: Options): nat {
    if o.maxAttempts.None? then length + 1
    else if o.maxAttempts.value <= failures then 0 else o.maxAttempts.value - failures
  }

  /** The first `n` attempts of `script` fail, and then comes one that does not, if any does. */
  predicate FailsFirst(script: seq<Attempt>, n: nat) {
    && n <= |script| && (forall i :: 0 <= i < n ==> Fails(script[i]))
    && (n < |script| ==> !Fails(script[n]))
  }

  /** The attempts that a redial dials, when its first `n` fail and `left` are allowed. */
  function Tries(script: seq<Attempt>, n: nat, left: nat): nat
    requires n <= |script|
  {
    if left <= n then left else if n == |script| then n else n + DialsOf(script[n].outcome)
  }

  lemma AttemptCounts(a: Attempt, failures: nat, o: Options)
    ensures var counts := multiset(AttemptMarks(a, failures, o));
            && counts[Dialled] == DialsOf(a.outcome) && counts[GaveUp] == 0
            && counts[Up] == if a.outcome.Acknowledged? then 1 else 0
  {
    hide BackoffDelay;
  }

  lemma {:induction false} RedialTries(script: seq<Attempt>, n: nat, failures: nat, o: Options)
    requires FailsFirst(script, n)
    ensures var (marks, fate) := RedialMarks(script, failures, o);
            var left := AttemptsLeft(failures, |script|, o);
            && multiset(marks)[Dialled] == Tries(script, n, left) && multiset(marks)[GaveUp] == 0
            && multiset(marks)[Up] == (if fate == Established then 1 else 0)
            && fate == if left <= n then Exhausted else if n == |script| then Pending
                       else if script[n].outcome.Acknowledged? then Established else Cancelled
    decreases |script|
  {
    hide AttemptMarks;
    if ShouldRetry(failures, o) && script != [] {
      AttemptCounts(script[0], failures, o);
      if n != 0 {
        RedialTries(script[1..], n - 1, failures + 1, o);
      }
    }
  }

  /** Every loss of the socket is answered in full, whatever the attempts after it turn out to be: the failing ones are
      all dialled while the options allow more, and the one after them, unless the helper was stopped asleep.  An
      establishment brings the connection up once and the helper waits for the next loss; running out of attempts
      gives up, once, and that and a stop end the run. */
  lemma EveryLossIsAnswered(script: seq<Attempt>, lives: seq<seq<Attempt>>, n: nat, o: Options)
    requires FailsFirst(script, n)
    ensures var counts, later := multiset(HelperMarks([script] + lives, o)), multiset(HelperMarks(lives, o));
            var left := AttemptsLeft(0, |script|, o);
            var up := n < left && n < |script| && script[n].outcome.Acknowledged?;
            && counts[Dialled] == Tries(script, n, left) + (if up then later[Dialled] else 0)
            && counts[Up] == (if up then 1 + later[Up] else 0)
            && counts[GaveUp] == if up then later[GaveUp] else if left <= n then 1 else 0
  {
    hide RedialMarks;
    RedialTries(script, n, 0, o);
    assert ([script] + lives)[1..] == lives;
  }

  const MAX_RECORDED_DELAYS: nat := 100

  /** What a bounded deque keeps. */
  function Recent(delays: seq<real>): seq<real> {
    if |delays| <= MAX_RECORDED_DELAYS then delays else delays[|delays| - MAX_RECORDED_DELAYS..]
  }

  class ConnectionLoop {
    const options: Options
    const counter: AttemptCounter
    var delays: seq<real>
    var reconnections: nat
    var stopped: bool
    var willRetry: bool
    var trace: seq<Mark>

    /** The counter is the failed attempts since the last establishment, and everything done so far keeps
        to the options. */
    ghost predicate Valid()
      reads this, counter
    {
      Tracked() && (!stopped ==> Dials(trace) == Failures(trace))
          && (Final(trace) && !stopped ==> !ShouldRetry(counter.attempts, options))
    }

    ghost predicate Tracked()
      reads this, counter
    {
      && Acceptable(options)
      && counter.attempts == Failures(trace)
      && Lawful(trace, options)
      && delays == Recent(Delays(trace))
    }

    constructor (options: Options)
      requires Acceptable(options)
      ensures Valid() && this.options == options && trace == [] && !stopped && fresh(counter)
      ensures willRetry == ShouldRetry(0, options)
    {
      this.options := options;
      counter := new AttemptCounter();
      delays, reconnections, stopped, trace := [], 0, false, [];
      willRetry := ShouldRetry(0, options);
    }

    method Record(mark: Mark)
      requires Lawful(trace, options) && MayRecord(trace, mark, options)
      modifies this`trace
      ensures trace == old(trace) + [mark] && Lawful(trace, options)
      ensures Failures(trace) == match mark case Up => 0 case Missed => old(Failures(trace)) + 1 case _ =>
        old(Failures(trace))
      ensures Dials(trace) == match mark case Up => 0 case Dialled => old(Dials(trace)) + 1 case _ => old(Dials(trace))
      ensures Delays(trace) == if mark.Slept? then old(Delays(trace)) + [mark.delay] else old(Delays(trace))
      ensures Final(trace) == match mark case Up => false case Lost(again) => !again || old(Final(trace)) case _ =>
        old(Final(trace))
    {
      SnocKeeps(trace, mark, options);
      TraceSnoc(trace, mark);
      FinalSnoc(trace, mark);
      trace := trace + [mark];
    }

    method RecordDelay(delay: real)
      modifies this`delays
      ensures forall all: seq<real> :: old(delays) == Recent(all) ==> delays == Recent(all + [delay])
    {
      delays := delays + [delay];
      if MAX_RECORDED_DELAYS < |delays| {
        delays := delays[1..];
      }
    }

    /** One failed attempt. */
    method CountFailure()
      requires Tracked()
      modifies this`trace, counter
      ensures Tracked() && trace == old(trace) + [Missed] && counter.attempts == old(counter.attempts) + 1
      ensures Failures(trace) == old(Failures(trace)) + 1 && Dials(trace) == old(Dials(trace))
        && Final(trace) == old(Final(trace))
    {
      hide Lawful, Failures, Dials, Delays, Final, MayRecord;
      MissMayRecord(trace, options);
      var value := counter.Failed();
      Record(Missed);
    }

    static lemma MissMayRecord(trace: seq<Mark>, o: Options)
      ensures MayRecord(trace, Missed, o) && MayRecord(trace, Up, o)
      ensures MayRecord(trace, Lost(MayDial(trace, o)), o)
      ensures !MayDial(trace, o) ==> MayRecord(trace, GaveUp, o)
      ensures forall n :: Dials(trace) == n ==> MayDial(trace, o) == ShouldRetry(n, o)
    {
    }

    static lemma DialMayRecord(trace: seq<Mark>, o: Options)
      requires !Final(trace) && Dials(trace) == Failures(trace) && ShouldRetry(Failures(trace), o)
      ensures MayRecord(trace, Dialled, o)
    {
    }

    /** Sleep the backoff delay. */
    method SleepBackoff(draw: real)
      requires Tracked() && -1.0 <= draw <= 1.0
      modifies this`trace, this`delays
      ensures Tracked() && trace == old(trace) + [Slept(BackoffDelay(counter.attempts, options, draw))]
      ensures Failures(trace) == old(Failures(trace)) && Dials(trace) == old(Dials(trace))
        && Final(trace) == old(Final(trace))
    {
      hide Lawful, Failures, Dials, Delays, Final, MayRecord, BackoffDelay, Recent;
      var delay := BackoffDelay(counter.attempts, options, draw);
      SleepMayRecord(trace, draw, options);
      RecordDelay(delay);
      Record(Slept(delay));
    }

    /** The record gains `Up`, or the miss and the loss of an attempt that failed; a stop adds nothing. */
    method Adopt(outcome: Outcome) returns (up: bool)
      requires outcome == HelloFailed || outcome == Acknowledged || outcome == StoppedGreeting
      requires Tracked() && !stopped && Dials(trace) == Failures(trace) + 1 && !Final(trace)
      modifies this, counter
      ensures Valid() && up == (outcome == Acknowledged) && (stopped <==> outcome == StoppedGreeting)
      ensures outcome == Acknowledged ==>
        && trace == old(trace) + [Up] && Failures(trace) == 0 && reconnections == old(reconnections) + 1
        && willRetry == ShouldRetry(0, options)
      ensures outcome == HelloFailed ==>
        && trace == old(trace) + [Lost(willRetry), Missed] && counter.attempts == old(counter.attempts) + 1
        && willRetry == ShouldRetry(counter.attempts, options)
      ensures outcome == StoppedGreeting ==> trace == old(trace)
    {
      hide Lawful, Failures, Dials, Delays, Final, MayRecord, Recent;
      // Read by the socket's loss, should it come before the hello is acknowledged.
      willRetry := ShouldRetry(counter.attempts + 1, options);
      MissMayRecord(trace, options);
      if outcome == StoppedGreeting {
        stopped := true;
        return false;
      }
      if outcome == HelloFailed {
        Record(Lost(willRetry));
        CountFailure();
        assert old(trace) + [Lost(willRetry)] + [Missed] == old(trace) + [Lost(willRetry), Missed];
        return false;
      }
      counter.Established();
      Record(Up);
      willRetry := ShouldRetry(0, options);
      reconnections := reconnections + 1;
      return true;
    }

    /** One attempt: what it adds to the record, and whether the connection is up. */
    method Try(attempt: Attempt) returns (up: bool)
      requires Valid() && !stopped && ShouldRetry(counter.attempts, options) && -1.0 <= attempt.draw <= 1.0
      modifies this, counter
      ensures Valid() && trace == old(trace) + AttemptMarks(attempt, old(counter.attempts), options)
      ensures up == (attempt.outcome == Acknowledged)
      ensures up ==> Failures(trace) == 0 && willRetry == ShouldRetry(0, options)
      ensures stopped == (attempt.outcome.StoppedAsleep? || attempt.outcome.StoppedDialling?
                          || attempt.outcome.StoppedGreeting?)
      ensures attempt.outcome.DialFailed? || attempt.outcome.HelloFailed?
        ==> counter.attempts == old(counter.attempts) + 1
    {
      hide Lawful, Failures, Dials, Delays, Final, MayRecord, BackoffDelay, Recent;
      up := false;
      ghost var start := trace;
      SleepBackoff(attempt.draw);
      if attempt.outcome == StoppedAsleep {
        stopped := true;
        return;
      }
      DialMayRecord(trace, options);
      Record(Dialled);
      ghost var dialled := trace;
      if attempt.outcome == StoppedDialling {
        stopped := true;
        return;
      }
      if attempt.outcome == DialFailed {
        CountFailure();
        return;
      }
      up := Adopt(attempt.outcome);
      assert trace == dialled + AttemptMarks(attempt, old(counter.attempts), options)[2..];
    }

    /** The record grows by what the redial does with `script`, and how it ends is what that says. */
    method Redial(script: seq<Attempt>) returns (fate: Fate)
      requires Valid() && !stopped && forall i :: 0 <= i < |script| ==> -1.0 <= script[i].draw <= 1.0
      modifies this, counter
      ensures Valid()
      ensures (trace, fate) == var (marks, end) := RedialMarks(script, old(counter.attempts), options);
        (old(trace) + marks, end)
      ensures fate.Established? ==> !stopped && Failures(trace) == 0 && willRetry == ShouldRetry(0, options)
      ensures stopped <==> fate.Cancelled?
      ensures fate.Exhausted? ==> !ShouldRetry(counter.attempts, options)
    {
      hide Lawful, Failures, Dials, Delays, Final, MayRecord, AttemptMarks, RedialMarks, Recent;
      var used := 0;
      ghost var all, start := RedialMarks(script, counter.attempts, options), trace;
      assert script[0..] == script && trace + all.0 == start + all.0;
      while !stopped && ShouldRetry(counter.attempts, options)
        invariant used <= |script| && Valid() && !stopped
        invariant var (marks, end) := RedialMarks(script[used..], counter.attempts, options);
          (trace + marks, end) == (start + all.0, all.1)
        decreases |script| - used
      {
        assert script[used..] != [] ==> script[used..][0] == script[used] && script[used..][1..] == script[used + 1..];
        RedialStep(script[used..], counter.attempts, options);
        if used == |script| {
          assert script[used..] == [] && trace + [] == trace;
          return Pending;
        }
        var attempt := script[used];
        ghost var before, failures := trace, counter.attempts;
        var up := Try(attempt);
        used := used + 1;
        if up {
          return Established;
        }
        if stopped {
          return Cancelled;
        }
        ghost var more := RedialMarks(script[used..], counter.attempts, options).0;
        assert (before + AttemptMarks(attempt, failures, options)) + more
            == before + (AttemptMarks(attempt, failures, options) + more);
      }
      RedialStep(script[used..], counter.attempts, options);
      assert trace + [] == trace;
      return Exhausted;
    }

    static lemma HelperStep(lives: seq<seq<Attempt>>, o: Options)
      ensures HelperMarks([], o) == []
      ensures lives != [] ==>
        var (marks, fate) := RedialMarks(lives[0], 0, o);
        HelperMarks(lives, o) == [Lost(ShouldRetry(0, o))] + marks +
          match fate
          case Established => HelperMarks(lives[1..], o)
          case Exhausted => [GaveUp]
          case _ => []
    {
      hide RedialMarks;
    }

    static lemma RedialStep(script: seq<Attempt>, failures: nat, o: Options)
      ensures !ShouldRetry(failures, o) ==> RedialMarks(script, failures, o) == ([], Exhausted)
      ensures ShouldRetry(failures, o) && script == [] ==> RedialMarks(script, failures, o) == ([], Pending)
      ensures ShouldRetry(failures, o) && script != [] ==>
        var marks := AttemptMarks(script[0], failures, o);
        RedialMarks(script, failures, o) ==
          match script[0].outcome
          case Acknowledged => (marks, Established)
          case StoppedAsleep => (marks, Cancelled)
          case StoppedDialling => (marks, Cancelled)
          case StoppedGreeting => (marks, Cancelled)
          case _ => (marks + RedialMarks(script[1..], failures + 1, o).0, RedialMarks(script[1..], failures + 1, o).1)
    {
      hide AttemptMarks;
    }

    /** The record grows by everything the helper does while its socket is lost once for each of `lives`. */
    method Supervise(lives: seq<seq<Attempt>>)
      requires Valid() && !stopped && Failures(trace) == 0 && willRetry == ShouldRetry(0, options)
      requires forall i, j :: 0 <= i < |lives| && 0 <= j < |lives[i]| ==> -1.0 <= lives[i][j].draw <= 1.0
      modifies this, counter
      ensures Valid() && trace == old(trace) + HelperMarks(lives, options)
    {
      hide Lawful, Failures, Dials, Delays, Final, MayRecord, AttemptMarks, RedialMarks, Recent, HelperMarks,
        Acceptable;
      var life := 0;
      ghost var start, all := trace, HelperMarks(lives, options);
      assert lives[0..] == lives;
      HelperStep(lives[|lives|..], options);
      while life < |lives|
        invariant 0 <= life <= |lives| && Valid() && !stopped && Failures(trace) == 0
          && willRetry == ShouldRetry(0, options)
        invariant trace + HelperMarks(lives[life..], options) == start + all
      {
        assert lives[life..][0] == lives[life] && lives[life..][1..] == lives[life + 1..];
        HelperStep(lives[life..], options);
        MissMayRecord(trace, options);
        Record(Lost(willRetry));
        RedialStep(lives[life], 0, options);
        if !ShouldRetry(counter.attempts, options) {
          GiveUp();
          return;
        }
        var fate := Redial(lives[life]);
        life := life + 1;
        if fate.Established? {
          continue;
        }
        if fate.Exhausted? {
          GiveUp();
        }
        return;
      }
    }

    method GiveUp()
      requires Valid() && !stopped && !ShouldRetry(counter.attempts, options)
      modifies this
      ensures Valid() && !willRetry && stopped == old(stopped) && trace == old(trace) + [GaveUp]
    {
      hide Lawful, Failures, Dials, Delays, Final, MayRecord, Recent;
      willRetry := false;
      MissMayRecord(trace, options);
      Record(GaveUp);
    }
  }

  /** The helper does exactly what its options and the outcomes of its attempts determine; and in every run at most
      `maxAttempts` dials come between two establishments, every delay is on the schedule of the failures before it,
      and a loss reported as final is followed by no dial. */
  method RunHelper(options: Options, lives: seq<seq<Attempt>>) returns (attempts: nat, trace: seq<Mark>)
    requires Acceptable(options)
    requires forall i, j :: 0 <= i < |lives| && 0 <= j < |lives[i]| ==> -1.0 <= lives[i][j].draw <= 1.0
    ensures trace == HelperMarks(lives, options) && attempts == Failures(trace)
    ensures Disciplined(trace, options) && OnSchedule(trace, options) && Honest(trace) && Truthful(trace, options)
  {
    hide HelperMarks, Disciplined, OnSchedule, Honest, Truthful, BackoffDelay, Recent, Dials, Delays, Final;
    assert [] + HelperMarks(lives, options) == HelperMarks(lives, options);
    var loop := new ConnectionLoop(options);
    loop.Supervise(lives);
    attempts, trace := loop.counter.attempts, loop.trace;
  }
}
