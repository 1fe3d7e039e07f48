/** The time budget of a start attempt: what the settings validator promises, and how long all
    tries of a start job can take. */
module Config {

  /** A length of time in seconds. */
  type Duration = d: real | d >= 0.0

  datatype Settings = Settings(
    dbTimeout: Duration,
    dockerTimeout: Duration,
    launchTimeout: Duration,
    jobTimeout: nat,
    jobMaxTries: nat)

  const DEFAULTS := Settings(5.0, 10.0, 45.0, 90, 3)

  datatype Validation = Valid | TooShort(worst: real)

  /** Every runtime call is bounded by three times the timeout of one Docker request. */
  function RuntimeDeadline(s: Settings): Duration {
    3.0 * s.dockerTimeout
  }

  /** `_launch_fits_in_job`. */
  function Validate(s: Settings): Validation {
    var worst := s.launchTimeout + 3.0 * s.dockerTimeout + 2.0 * s.dbTimeout;
    if worst > s.jobTimeout as real then TooShort(worst) else Valid
  }

  /** A status write is two awaits: the statement and the commit. */
  datatype Write = Write(execute: Duration, commit: Duration)

  /** How long the awaits of a failing attempt took. */
  datatype Attempt = Attempt(read: Duration, claim: Write, launch: Duration, discard: Duration, settle: Write)

  /** Each await ends by its own deadline: the driver's command timeout bounds one command, not a
      whole transaction. */
  predicate Bounded(s: Settings, x: Attempt) {
    && x.read <= s.dbTimeout
    && x.claim.execute <= s.dbTimeout && x.claim.commit <= s.dbTimeout
    && x.launch <= s.launchTimeout
    && x.discard <= RuntimeDeadline(s)
    && x.settle.execute <= s.dbTimeout && x.settle.commit <= s.dbTimeout
  }

  function Lasts(w: Write): Duration {
    w.execute + w.commit
  }

  /** What the validator assumes beyond that: statement and commit together end within the timeout
      of one command. */
  predicate WritesAreOneCommand(s: Settings, x: Attempt) {
    Lasts(x.claim) <= s.dbTimeout && Lasts(x.settle) <= s.dbTimeout
  }

  /** From the claim to the write that settles the row. */
  function FromClaim(x: Attempt): Duration {
    Lasts(x.claim) + x.launch + x.discard + Lasts(x.settle)
  }

  function Whole(x: Attempt): Duration {
    x.read + FromClaim(x)
  }

  /** Every await takes as long as it may. */
  function Slowest(s: Settings): Attempt {
    var w := Write(s.dbTimeout, s.dbTimeout);
    Attempt(s.dbTimeout, w, s.launchTimeout, RuntimeDeadline(s), w)
  }

  /** The slowest attempt that the validator has in mind. */
  function SlowestCharged(s: Settings): Attempt {
    var w := Write(s.dbTimeout, 0.0);
    Attempt(s.dbTimeout, w, s.launchTimeout, RuntimeDeadline(s), w)
  }

  /** Under the validator's own assumption it accepts exactly the settings under which every failing
      attempt, from its claim on, has cleaned up and settled its row before the queue cancels it. */
  lemma AcceptedMeansItFits(s: Settings)
    ensures Validate(s).Valid? <==>
            forall x :: Bounded(s, x) && WritesAreOneCommand(s, x) ==> FromClaim(x) <= s.jobTimeout as real
  {
    var x := SlowestCharged(s);
    assert Bounded(s, x) && WritesAreOneCommand(s, x);
    if Validate(s).TooShort? {
      assert FromClaim(x) > s.jobTimeout as real;
    }
  }

  /** Without the assumption, an attempt is sure to settle in time if and only if four commands fit
      from its claim on, and five with the read that opens the handler. */
  lemma EveryAwaitNeedsRoom(s: Settings)
    ensures (forall x :: Bounded(s, x) ==> FromClaim(x) <= s.jobTimeout as real)
       <==> s.launchTimeout + 3.0 * s.dockerTimeout + 4.0 * s.dbTimeout <= s.jobTimeout as real
    ensures (forall x :: Bounded(s, x) ==> Whole(x) <= s.jobTimeout as real)
       <==> s.launchTimeout + 3.0 * s.dockerTimeout + 5.0 * s.dbTimeout <= s.jobTimeout as real
  {
    var x := Slowest(s);
    assert Bounded(s, x);
    assert FromClaim(x) == s.launchTimeout + 3.0 * s.dockerTimeout + 4.0 * s.dbTimeout;
    assert Whole(x) == s.launchTimeout + 3.0 * s.dockerTimeout + 5.0 * s.dbTimeout;
  }

  /** The validator accepts the defaults, and they do not fit: a failing attempt can take 100 seconds
      where the queue cancels it after 90, and is cancelled after its claim, before its row is
      settled. */
  lemma DefaultsDoNotFit()
    ensures Validate(DEFAULTS).Valid?
    ensures
      var x := Slowest(DEFAULTS);
      && Bounded(DEFAULTS, x) && Whole(x) == 100.0 && FromClaim(x) == 95.0
      && DEFAULTS.jobTimeout as real == 90.0
      && x.read + Lasts(x.claim) < DEFAULTS.jobTimeout as real < x.read + FromClaim(x) - Lasts(x.settle) + x.settle.execute
  {
  }

  // ---- Any number of commands ----

  function Total(commands: seq<Duration>): Duration {
    if commands == [] then 0.0 else commands[0] + Total(commands[1..])
  }

  predicate AllWithin(commands: seq<Duration>, limit: Duration) {
    forall i :: 0 <= i < |commands| ==> commands[i] <= limit
  }

  lemma {:induction false} TotalWithin(commands: seq<Duration>, limit: Duration)
    requires AllWithin(commands, limit)
    ensures Total(commands) <= |commands| as real * limit
  {
    if commands == [] {
    } else {
      TotalWithin(commands[1..], limit);
      assert |commands| as real * limit == limit + |commands[1..]| as real * limit;
    }
  }

  lemma {:induction false} TotalOfSlowest(n: nat, limit: Duration)
    ensures Total(seq(n, _ => limit)) == n as real * limit
  {
    if n == 0 {
    } else {
      assert seq(n, _ => limit)[1..] == seq(n - 1, _ => limit);
      TotalOfSlowest(n - 1, limit);
      assert n as real * limit == limit + (n - 1) as real * limit;
    }
  }

  lemma LongestTotal(n: nat, limit: Duration)
    ensures forall commands: seq<Duration> :: |commands| == n && AllWithin(commands, limit) ==>
              Total(commands) <= n as real * limit
    ensures exists commands: seq<Duration> ::
              |commands| == n && AllWithin(commands, limit) && Total(commands) == n as real * limit
  {
    forall commands: seq<Duration> | |commands| == n && AllWithin(commands, limit)
      ensures Total(commands) <= n as real * limit
    {
      TotalWithin(commands, limit);
    }
    var slowest := seq(n, _ => limit);
    TotalOfSlowest(n, limit);
    assert |slowest| == n && AllWithin(slowest, limit);
  }

  /** A driver that sends more commands than the handler awaits, such as the start of a transaction,
      needs the room for each: an attempt with `n` commands is sure to end in time if and only if `n`
      command timeouts fit beside launch and cleanup. */
  lemma EveryCommandNeedsRoom(s: Settings, n: nat)
    ensures
      (forall commands: seq<Duration> :: |commands| == n && AllWithin(commands, s.dbTimeout) ==>
         s.launchTimeout + RuntimeDeadline(s) + Total(commands) <= s.jobTimeout as real)
      <==> s.launchTimeout + 3.0 * s.dockerTimeout + n as real * s.dbTimeout <= s.jobTimeout as real
  {
    hide Total, AllWithin;
    LongestTotal(n, s.dbTimeout);
    var longest := n as real * s.dbTimeout;
    var slowest: seq<Duration> :| |slowest| == n && AllWithin(slowest, s.dbTimeout) && Total(slowest) == longest;
  }

  // ---- Backoff ----

  function Pow2(n: nat): nat {
    if n == 0 then 1 else 2 * Pow2(n - 1)
  }

  predicate IsJitter(u: real) {
    0.0 <= u <= 1.0
  }

  /** The deferral after try `try`: exponential, plus a jitter of at most a second. */
  function Backoff(try: nat, jitter: real): real {
    Pow2(try) as real + jitter
  }

  /** Retries spread out: whatever the jitter, each deferral is longer than the one before. */
  lemma BackoffsIncrease(try: nat, u: real, v: real)
    requires try >= 1 && IsJitter(u) && IsJitter(v)
    ensures Backoff(try, u) < Backoff(try + 1, v)
  {
    assert Pow2(try) == 2 * Pow2(try - 1) >= 2 by { Pow2Positive(try - 1); }
    assert Pow2(try + 1) == 2 * Pow2(try);
  }

  lemma {:induction false} Pow2Positive(n: nat)
    ensures Pow2(n) >= 1
  {
    if n == 0 {
    } else {
      Pow2Positive(n - 1);
    }
  }

  /** The time from the first pickup to the end of the last try: `runs[i]` is how long try `i + 1`
      ran, `jitters[i]` the jitter of the deferral after it. */
  function Elapsed(runs: seq<real>, jitters: seq<real>, n: nat): real
    requires n <= |runs| && n <= |jitters| + 1
  {
    if n == 0 then 0.0
    else if n == 1 then runs[0]
    else Elapsed(runs, jitters, n - 1) + Backoff(n - 1, jitters[n - 2]) + runs[n - 1]
  }

  /** The queue stops every run at the job timeout, so `n` tries with immediate pickup end within
      `n` job timeouts, `2^n - 2` seconds of backoff and `n - 1` seconds of jitter. */
  lemma {:induction false} TriesEndInTime(s: Settings, runs: seq<real>, jitters: seq<real>, n: nat)
    requires 1 <= n <= |runs| && n <= |jitters| + 1
    requires forall i :: 0 <= i < n ==> 0.0 <= runs[i] <= s.jobTimeout as real
    requires forall i :: 0 <= i < n - 1 ==> IsJitter(jitters[i])
    ensures Elapsed(runs, jitters, n) <=
            n as real * s.jobTimeout as real + (Pow2(n) as real - 2.0) + (n - 1) as real
  {
    if n == 1 {
      assert Pow2(1) == 2 * Pow2(0);
    } else {
      TriesEndInTime(s, runs, jitters, n - 1);
      assert Pow2(n) == 2 * Pow2(n - 1);
      assert n as real * s.jobTimeout as real == (n - 1) as real * s.jobTimeout as real + s.jobTimeout as real;
    }
  }
}
