/** Whether and how a finished build resumes (planResume, backoff and clampDelay of
    backend/usecase/buildengine.go): the turn, wall-clock and no-progress budgets and the wait. */
module ResumePlan {
  import opened Wrappers
  import opened Runs
  import opened Ndjson
  import opened BuildClass

  datatype Config = Config(
    maxBuildResumes: int,
    resumeBaseMs: int,
    maxBackoffMs: int,
    noProgressLimit: int,
    maxWallMs: int,
    limitWaitMs: int,
    stallMs: int,
    autoPush: bool)

  const MAX_SPAWN_RETRIES: int := 3

  /** The environment knobs are never negative, and the streak limit and the backoff cap are constants. */
  predicate ValidConfig(cfg: Config) {
    && cfg.maxBuildResumes >= 0 && cfg.resumeBaseMs >= 0 && cfg.maxWallMs >= 0 && cfg.limitWaitMs >= 0
    && cfg.stallMs >= 0 && cfg.maxBackoffMs == 300_000 && cfg.noProgressLimit == 3
  }

  // --- waits ---

  function Pow2(n: nat): nat {
    if n == 0 then 1 else 2 * Pow2(n - 1)
  }

  function Min(a: int, b: int): int {
    if a < b then a else b
  }

  lemma {:induction false} Pow2Grows(base: int, i: nat, n: nat)
    requires base >= 0 && i <= n
    ensures base * Pow2(i) <= base * Pow2(n)
    decreases n - i
  {
    if i < n {
      Pow2Grows(base, i, n - 1);
      assert base * Pow2(n) == 2 * (base * Pow2(n - 1));
      assert base * Pow2(n - 1) >= 0;
    }
  }

  /** base doubled once a streak step, up to the cap. */
  method Backoff(base: int, cap: int, streak: nat) returns (d: int)
    requires base >= 0
    ensures d == Min(base * Pow2(streak), cap)
  {
    d := base;
    for i := 0 to streak
      invariant d == base * Pow2(i)
    {
      assert base * Pow2(i + 1) == 2 * (base * Pow2(i));
      d := d * 2;
      if d >= cap {
        Pow2Grows(base, i + 1, streak);
        return cap;
      }
    }
    if d > cap { return cap; }
  }

  function ClampDelay(resetAt: int, now: int, base: int, limitWait: int): int {
    var d := if resetAt - now < base then base else resetAt - now;
    if d > limitWait then limitWait else d
  }

  /** A mis-read reset time can neither wait past the configured wait nor hit the limit again at once. */
  lemma ClampDelayBounds(resetAt: int, now: int, base: int, limitWait: int)
    requires base >= 0 && limitWait >= 0
    ensures 0 <= ClampDelay(resetAt, now, base, limitWait) <= limitWait
    ensures base <= limitWait ==> ClampDelay(resetAt, now, base, limitWait) >= base
    ensures base <= resetAt - now <= limitWait ==> now + ClampDelay(resetAt, now, base, limitWait) == resetAt
  {}

  // --- the plan ---

  datatype Parked = Declined | AwaitingDecision | Ended | TurnBudget | AuthFailure | WallBudget | NoProgress

  datatype Resume = Resume(
    delayMs: int,
    nextResumeCount: nat,
    nextStreak: nat,
    firstStartedAt: int,
    limited: bool)

  datatype Plan = Stay(reason: Parked) | Go(resume: Resume)

  /** The clock readings a plan takes, in order: one for the limit pattern, then either one for the
      limit's wait or one for the wall-clock budget. */
  datatype PlanClock = PlanClock(atDetect: int, atBudget: int)

  function NextStreak(run: Run, endFingerprint: Option<string>): nat {
    if run.startFingerprint.None? || endFingerprint.None? then run.noProgressStreak
    else if run.startFingerprint != endFingerprint then 0
    else run.noProgressStreak + 1
  }

  predicate MadeProgress(run: Run, endFingerprint: Option<string>) {
    run.startFingerprint.Some? && endFingerprint.Some? && run.startFingerprint != endFingerprint
  }

  function LimitDelay(cfg: Config, resetAt: Option<int>, now: int): int {
    if resetAt.None? then cfg.limitWaitMs
    else ClampDelay(resetAt.value, now, cfg.resumeBaseMs, cfg.limitWaitMs)
  }

  function OrdinaryDelay(cfg: Config, progress: bool, streak: nat): int {
    if progress then cfg.resumeBaseMs else Min(cfg.resumeBaseMs * Pow2(streak), cfg.maxBackoffMs)
  }

  function PlanResume(cfg: Config, reader: Reader, run: Run, lines: seq<ParsedLine>, cause: RedriveCause,
                      clock: PlanClock, endFingerprint: Option<string>): Plan
  {
    match ClassifyOutcome(reader, KindOf(run), lines, cause)
    case Park => Stay(Declined)
    case Awaiting => Stay(AwaitingDecision)
    case Terminal => Stay(Ended)
    case Retryable =>
      if run.resumeCount >= cfg.maxBuildResumes then Stay(TurnBudget)
      else
        match DetectLimit(reader, lines, clock.atDetect)
        case Some(AuthError) => Stay(AuthFailure)
        case Some(UsageLimit(resetAt)) =>
          var wait := LimitDelay(cfg, resetAt, clock.atBudget);
          Go(Resume(wait, run.resumeCount + 1, run.noProgressStreak, run.firstStartedAt + wait, true))
        case None =>
          if clock.atBudget - run.firstStartedAt >= cfg.maxWallMs then Stay(WallBudget)
          else
            var streak := NextStreak(run, endFingerprint);
            if streak >= cfg.noProgressLimit then Stay(NoProgress)
            else
              Go(Resume(OrdinaryDelay(cfg, MadeProgress(run, endFingerprint), streak),
                        run.resumeCount + 1, streak, run.firstStartedAt, false))
  }

  /** planResume as the engine runs it, step by step. */
  method DecideResume(cfg: Config, reader: Reader, run: Run, lines: seq<ParsedLine>, cause: RedriveCause,
                      clock: PlanClock, endFingerprint: Option<string>) returns (plan: Plan)
    requires cfg.resumeBaseMs >= 0
    ensures plan == PlanResume(cfg, reader, run, lines, cause, clock, endFingerprint)
  {
    hide ClassifyOutcome, DetectLimit;
    match ClassifyOutcome(reader, KindOf(run), lines, cause)
    case Park => return Stay(Declined);
    case Awaiting => return Stay(AwaitingDecision);
    case Terminal => return Stay(Ended);
    case Retryable =>
    if run.resumeCount >= cfg.maxBuildResumes { return Stay(TurnBudget); }
    var limit := DetectLimit(reader, lines, clock.atDetect);
    if limit.Some? {
      if limit.value.AuthError? { return Stay(AuthFailure); }
      var delayMs := cfg.limitWaitMs;
      if limit.value.resetAt.Some? {
        delayMs := ClampDelay(limit.value.resetAt.value, clock.atBudget, cfg.resumeBaseMs, cfg.limitWaitMs);
      }
      return Go(Resume(delayMs, run.resumeCount + 1, run.noProgressStreak, run.firstStartedAt + delayMs, true));
    }
    if clock.atBudget - run.firstStartedAt >= cfg.maxWallMs { return Stay(WallBudget); }
    var known := run.startFingerprint.Some? && endFingerprint.Some?;
    var madeProgress := known && endFingerprint != run.startFingerprint;
    var noProgress := known && endFingerprint == run.startFingerprint;
    var nextStreak := run.noProgressStreak;
    if madeProgress {
      nextStreak := 0;
    } else if noProgress {
      nextStreak := run.noProgressStreak + 1;
    }
    if nextStreak >= cfg.noProgressLimit { return Stay(NoProgress); }
    var delayMs := cfg.resumeBaseMs;
    if !madeProgress { delayMs := Backoff(cfg.resumeBaseMs, cfg.maxBackoffMs, nextStreak); }
    plan := Go(Resume(delayMs, run.resumeCount + 1, nextStreak, run.firstStartedAt, false));
  }

  /** Every resume is inside every budget: one more turn and never past the cap, a streak below the
      limit, an ordinary wait started before the wall budget was spent, a limit wait between 0 and its
      cap and exactly made up for in the chain's start. */
  lemma PlanWithinBudgets(cfg: Config, reader: Reader, run: Run, lines: seq<ParsedLine>, cause: RedriveCause,
                          clock: PlanClock, endFingerprint: Option<string>)
    requires ValidConfig(cfg) && run.noProgressStreak < cfg.noProgressLimit
    requires PlanResume(cfg, reader, run, lines, cause, clock, endFingerprint).Go?
    ensures var r := PlanResume(cfg, reader, run, lines, cause, clock, endFingerprint).resume;
            && r.nextResumeCount == run.resumeCount + 1 <= cfg.maxBuildResumes
            && r.nextStreak < cfg.noProgressLimit
            && r.delayMs >= 0
            && (r.limited ==> r.delayMs <= cfg.limitWaitMs && r.firstStartedAt == run.firstStartedAt + r.delayMs)
            && (!r.limited ==> r.firstStartedAt == run.firstStartedAt
                               && clock.atBudget < run.firstStartedAt + cfg.maxWallMs
                               && (r.delayMs <= cfg.maxBackoffMs || r.delayMs <= cfg.resumeBaseMs))
  {
    hide ClassifyOutcome, DetectLimit;
    var r := PlanResume(cfg, reader, run, lines, cause, clock, endFingerprint).resume;
    if !r.limited {
      assert cfg.resumeBaseMs * Pow2(r.nextStreak) >= 0;
    }
  }

  /** A finished or deliberately stopped build never resumes. */
  lemma CompletionStays(cfg: Config, reader: Reader, run: Run, lines: seq<ParsedLine>, cause: RedriveCause,
                        clock: PlanClock, endFingerprint: Option<string>)
    requires IsBuildComplete(FinalText(reader, lines)) || cause.kind == UserStop || KindOf(run) != "build"
    ensures PlanResume(cfg, reader, run, lines, cause, clock, endFingerprint).Stay?
  {
    if IsBuildComplete(FinalText(reader, lines)) {
      CompletionNeverRetries(reader, KindOf(run), lines, cause);
    }
  }

  /** Three ends in a row with the same fingerprint as at the start park the chain: from a fresh streak
      the third no-progress turn is refused. */
  lemma {:induction false} NoProgressParks(cfg: Config, reader: Reader, run: Run, lines: seq<ParsedLine>,
                           cause: RedriveCause, clock: PlanClock, endFingerprint: Option<string>)
    requires ValidConfig(cfg) && run.noProgressStreak == cfg.noProgressLimit - 1
    requires run.startFingerprint.Some? && run.startFingerprint == endFingerprint
    requires DetectLimit(reader, lines, clock.atDetect).None?
    ensures PlanResume(cfg, reader, run, lines, cause, clock, endFingerprint).Stay?
  {
    hide ClassifyOutcome, DetectLimit;
  }
}
