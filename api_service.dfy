/**
  The renderer's client for rate limiting and usage tracking
  (`ApiService.ts`). The bridge and the provider call are oracles: their
  answers are parameters, and the calls the service issues are recorded, in
  order, as a trace. Costs are exact reals.
*/
module Api {
  import opened Text
  import opened Wrappers

  // ---------------------------------------------------------------------------
  // Rate limits

  datatype RateLimitResult = RateLimitResult(allowed: bool, currentCount: int, limit: int,
                                             resetTime: string, waitTimeMs: Option<int>)

  /** How the bridge answered `checkRateLimit`: a success reply whose fields may
      be missing, an error reply, or a thrown error. */
  datatype RateReply =
    | RateOk(allowed: Option<bool>, currentCount: Option<int>, limit: Option<int>, resetTime: Option<string>)
    | RateError(error: Option<string>)
    | RateThrew

  const DefaultLimit: int := 60
  const RateLimitedWaitMs: int := 60000
  const NoBridgeMessage := "Electron API not available"

  /** `x || d` for a number: 0 counts as missing. */
  function OrNumber(x: Option<int>, d: int): int {
    if x.Some? && x.value != 0 then x.value else d
  }

  /** `s || d` for a string: "" counts as missing. */
  function OrString(x: Option<string>, d: string): string {
    if x.Some? && x.value != "" then x.value else d
  }

  /** checkRateLimit. `now` stands for `new Date().toISOString()`. Without a
      bridge it throws; a failed check lets the call through. */
  function CheckRateLimit(bridgeAvailable: bool, reply: RateReply, now: string): (r: Result<RateLimitResult, string>)
    ensures !bridgeAvailable <==> r.Failure?
    ensures r.Failure? ==> r.error == NoBridgeMessage
    ensures bridgeAvailable && reply.RateOk? ==>
      var v := r.value;
      && v.allowed == (reply.allowed == Some(true))
      && v.currentCount == reply.currentCount.GetOr(0)
      && (reply.limit.Some? && reply.limit.value != 0 ==> v.limit == reply.limit.value)
      && (reply.limit.None? || reply.limit == Some(0) ==> v.limit == DefaultLimit)
      && (reply.resetTime.Some? && reply.resetTime.value != "" ==> v.resetTime == reply.resetTime.value)
      && (reply.resetTime.None? || reply.resetTime == Some("") ==> v.resetTime == now)
      && v.waitTimeMs == Some(if v.allowed then 0 else RateLimitedWaitMs)
    ensures bridgeAvailable && !reply.RateOk? ==>
      r.value == RateLimitResult(true, 0, DefaultLimit, now, None)
  {
    if !bridgeAvailable then Failure(NoBridgeMessage)
    else match reply
      case RateOk(allowed, count, limit, reset) =>
        var ok := allowed == Some(true);
        Success(RateLimitResult(ok, OrNumber(count, 0), OrNumber(limit, DefaultLimit), OrString(reset, now),
                                Some(if ok then 0 else RateLimitedWaitMs)))
      case _ => Success(RateLimitResult(true, 0, DefaultLimit, now, None))
  }

  /** A reply that says nothing yields a denied result that waits a minute;
      a failed check never makes the caller wait. */
  lemma CheckRateLimitWaitsOnlyWhenDenied(reply: RateReply, now: string)
    ensures WaitForRateLimit(CheckRateLimit(true, reply, now).value).Some? <==>
      reply.RateOk? && reply.allowed != Some(true)
    ensures WaitForRateLimit(CheckRateLimit(true, reply, now).value).Some? ==>
      WaitForRateLimit(CheckRateLimit(true, reply, now).value).value == RateLimitedWaitMs
  {
  }

  /** waitForRateLimit: the delay it waits, if any. No wait when the call is
      allowed or `waitTimeMs` is 0 or absent. */
  function WaitForRateLimit(r: RateLimitResult): (delay: Option<int>)
    ensures delay.None? <==> r.allowed || r.waitTimeMs.None? || r.waitTimeMs == Some(0)
    ensures delay.Some? ==> delay == r.waitTimeMs
  {
    if r.allowed || r.waitTimeMs.None? || r.waitTimeMs.value == 0 then None else r.waitTimeMs
  }

  // ---------------------------------------------------------------------------
  // Costs

  datatype Pricing = Pricing(input: real, output: real)

  /** The price table, per 1000 tokens. */
  function PricingFor(provider: string, model: string): Option<Pricing> {
    if provider == "openai" then
      if model == "gpt-4" then Some(Pricing(0.03, 0.06))
      else if model == "gpt-3.5-turbo" then Some(Pricing(0.001, 0.002))
      else None
    else if provider == "claude" then
      if model == "claude-3-opus" then Some(Pricing(0.015, 0.075))
      else if model == "claude-3-sonnet" then Some(Pricing(0.003, 0.015))
      else if model == "claude-3-haiku" then Some(Pricing(0.00025, 0.00125))
      else None
    else if provider == "gemini" then
      if model == "gemini-pro" then Some(Pricing(0.0005, 0.0015)) else None
    else if provider == "grok" then
      if model == "grok-beta" then Some(Pricing(0.005, 0.015)) else None
    else None
  }

  const KnownProviders: set<string> := {"openai", "claude", "gemini", "grok"}

  /** calculateCost: zero for an unknown provider or model, otherwise the
      priced tokens. */
  function CalculateCost(provider: string, model: string, inputTokens: int, outputTokens: int): (cost: real)
    ensures provider !in KnownProviders ==> cost == 0.0
    ensures PricingFor(provider, model).None? ==> cost == 0.0
    ensures PricingFor(provider, model).Some? ==>
      var p := PricingFor(provider, model).value;
      cost == (inputTokens as real / 1000.0) * p.input + (outputTokens as real / 1000.0) * p.output
  {
    match PricingFor(provider, model)
    case None => 0.0
    case Some(p) => (inputTokens as real / 1000.0) * p.input + (outputTokens as real / 1000.0) * p.output
  }

  /** Costs are never negative for non-negative token counts, and output
      tokens never cost less than input tokens of the same model. */
  lemma CalculateCostNonNegative(provider: string, model: string, inputTokens: nat, outputTokens: nat)
    ensures CalculateCost(provider, model, inputTokens, outputTokens) >= 0.0
    ensures CalculateCost(provider, model, 0, outputTokens) >= CalculateCost(provider, model, outputTokens, 0)
  {
  }

  // ---------------------------------------------------------------------------
  // safeApiCall

  /** The record passed to `trackApiCall`. */
  datatype CallRecord = CallRecord(provider: string, endpoint: string, inputTokens: int, outputTokens: int,
                                   costUsd: real, responseTimeMs: int, success: bool, errorMessage: Option<string>)

  /** The calls the service issues, in order. */
  datatype ServiceCall =
    | CheckRateLimitCall(provider: string)
    | WaitCall(ms: int)
    | IncrementCall(provider: string)
    | ProviderCall
    | TrackCall(record: CallRecord)

  /** What the provider call threw: an `Error` with a message, or anything else. */
  datatype Thrown = Thrown(isError: bool, message: string)

  datatype CallOutcome<T> = Returned(value: T) | Threw(error: Thrown)

  datatype CallOptions = CallOptions(estimatedInputTokens: Option<int>, estimatedOutputTokens: Option<int>,
                                     endpoint: Option<string>)

  /** The oracle answers one invocation sees. */
  datatype CallEnvironment<T> = CallEnvironment(bridgeAvailable: bool, rateReply: RateReply, now: string,
                                                outcome: CallOutcome<T>, startMs: int, endMs: int)

  /** `error instanceof Error ? error.message : 'Unknown error'`. */
  function ErrorMessage(e: Thrown): string {
    if e.isError then e.message else "Unknown error"
  }

  /** The record tracked after the provider call. */
  function TrackedRecord<T>(provider: string, model: string, opts: CallOptions, env: CallEnvironment<T>): (rec: CallRecord)
    ensures rec.provider == provider && rec.endpoint == opts.endpoint.GetOr("chat")
    ensures rec.inputTokens == opts.estimatedInputTokens.GetOr(0)
    ensures rec.responseTimeMs == env.endMs - env.startMs
    ensures rec.success <==> env.outcome.Returned?
    ensures env.outcome.Returned? ==>
      && rec.outputTokens == opts.estimatedOutputTokens.GetOr(0)
      && rec.costUsd == CalculateCost(provider, model, rec.inputTokens, rec.outputTokens)
      && rec.errorMessage == None
    ensures env.outcome.Threw? ==>
      rec.outputTokens == 0 && rec.costUsd == 0.0 && rec.errorMessage == Some(ErrorMessage(env.outcome.error))
  {
    var input := opts.estimatedInputTokens.GetOr(0);
    var output := opts.estimatedOutputTokens.GetOr(0);
    var endpoint := opts.endpoint.GetOr("chat");
    match env.outcome
    case Returned(_) =>
      CallRecord(provider, endpoint, input, output, CalculateCost(provider, model, input, output),
                 env.endMs - env.startMs, true, None)
    case Threw(e) =>
      CallRecord(provider, endpoint, input, 0, 0.0, env.endMs - env.startMs, false, Some(ErrorMessage(e)))
  }

  /** The result of an invocation: the provider's value, or what was thrown. */
  datatype Settled<T> = Resolved(value: T) | Rejected(message: string)

  /** safeApiCall: the calls it issues, in order, and how it settles. */
  function SafeApiCallTrace<T>(provider: string, model: string, opts: CallOptions, env: CallEnvironment<T>): (r: (seq<ServiceCall>, Settled<T>))
    ensures r.0 == [] <==> !env.bridgeAvailable
    ensures r.0 != [] ==> r.0[0] == CheckRateLimitCall(provider) && r.0[|r.0| - 1].TrackCall?
  {
    if !env.bridgeAvailable then ([], Rejected(NoBridgeMessage))
    else
      var rate := CheckRateLimit(true, env.rateReply, env.now).value;
      var waits := if rate.allowed then [] else match WaitForRateLimit(rate)
        case None => []
        case Some(ms) => [WaitCall(ms)];
      var calls := [CheckRateLimitCall(provider)] + waits
        + [IncrementCall(provider), ProviderCall, TrackCall(TrackedRecord(provider, model, opts, env))];
      var settled := match env.outcome
        case Returned(v) => Resolved(v)
        case Threw(e) => Rejected(e.message);
      (calls, settled)
  }

  function CountTracks(calls: seq<ServiceCall>): nat {
    if calls == [] then 0 else (if calls[0].TrackCall? then 1 else 0) + CountTracks(calls[1..])
  }

  lemma {:induction false} CountTracksAppend(a: seq<ServiceCall>, b: seq<ServiceCall>)
    ensures CountTracks(a + b) == CountTracks(a) + CountTracks(b)
  {
    if a == [] {
      assert a + b == b;
    } else {
      assert (a + b)[0] == a[0];
      assert (a + b)[1..] == a[1..] + b;
      CountTracksAppend(a[1..], b);
    }
  }

  /** With a bridge, safeApiCall checks the rate limit first, waits only when
      denied (and then once, without checking again), always increments before
      calling the provider, and tracks exactly once, last. Without a bridge it
      issues nothing and rejects. */
  lemma SafeApiCallOrdering<T>(provider: string, model: string, opts: CallOptions, env: CallEnvironment<T>)
    ensures var (calls, settled) := SafeApiCallTrace(provider, model, opts, env);
      && (!env.bridgeAvailable ==> calls == [] && settled == Rejected(NoBridgeMessage))
      && (env.bridgeAvailable ==>
           var rate := CheckRateLimit(true, env.rateReply, env.now).value;
           var w := if rate.allowed || WaitForRateLimit(rate).None? then 0 else 1;
           && |calls| == 4 + w
           && calls[0] == CheckRateLimitCall(provider)
           && (w == 1 <==> !rate.allowed && WaitForRateLimit(rate).Some?)
           && (w == 1 ==> calls[1] == WaitCall(WaitForRateLimit(rate).value))
           && calls[1 + w] == IncrementCall(provider)
           && calls[2 + w] == ProviderCall
           && calls[3 + w] == TrackCall(TrackedRecord(provider, model, opts, env))
           && CountTracks(calls) == 1
           && (forall i :: 0 <= i < |calls| && calls[i].CheckRateLimitCall? ==> i == 0))
  {
    if env.bridgeAvailable {
      var (calls, _) := SafeApiCallTrace(provider, model, opts, env);
      var rate := CheckRateLimit(true, env.rateReply, env.now).value;
      var w := if rate.allowed || WaitForRateLimit(rate).None? then 0 else 1;
      var tail := [IncrementCall(provider), ProviderCall, TrackCall(TrackedRecord(provider, model, opts, env))];
      assert calls == calls[..1 + w] + tail;
      CountTracksAppend(calls[..1 + w], tail);
      assert CountTracks(tail) == 1 by {
        var last := [tail[2]];
        assert last[1..] == [];
        assert CountTracks(last) == 1;
        assert tail[1..][1..] == last;
        assert CountTracks(tail[1..]) == 1;
        assert tail[2..] == last;
      }
      assert CountTracks(calls[..1 + w]) == 0 by {
        if w == 1 { assert calls[..2][1..] == [calls[1]]; }
      }
    }
  }

  /** The provider's own failure is rethrown unchanged, after a failure record;
      its success is passed through after a success record. */
  lemma SafeApiCallSettles<T>(provider: string, model: string, opts: CallOptions, env: CallEnvironment<T>)
    requires env.bridgeAvailable
    ensures var (calls, settled) := SafeApiCallTrace(provider, model, opts, env);
      && (env.outcome.Returned? ==> settled == Resolved(env.outcome.value) && calls[|calls| - 1].record.success)
      && (env.outcome.Threw? ==> settled == Rejected(env.outcome.error.message) && !calls[|calls| - 1].record.success)
  {
  }

  // ---------------------------------------------------------------------------
  // Usage statistics

  /** One row of the usage statistics. */
  datatype UsageStat = UsageStat(totalCalls: nat, totalCostUsd: real)

  datatype StatsReply = StatsOk(stats: Option<seq<UsageStat>>) | StatsError(error: Option<string>) | StatsThrew

  /** getUsageStats with a bridge: the stats, or none when the bridge fails. */
  function UsageStats(reply: StatsReply): (stats: seq<UsageStat>)
    ensures reply.StatsOk? && reply.stats.Some? ==> stats == reply.stats.value
    ensures !(reply.StatsOk? && reply.stats.Some?) ==> stats == []
  {
    match reply
    case StatsOk(s) => s.GetOr([])
    case _ => []
  }

  function TotalCalls(stats: seq<UsageStat>): nat {
    if stats == [] then 0 else TotalCalls(stats[..|stats| - 1]) + stats[|stats| - 1].totalCalls
  }

  function TotalCost(stats: seq<UsageStat>): real {
    if stats == [] then 0.0 else TotalCost(stats[..|stats| - 1]) + stats[|stats| - 1].totalCostUsd
  }

  datatype Warning =
    | HighDailyCost(cost: real)
    | HighWeeklyCost(cost: real)
    | HighMonthlyUsage(requests: nat)
    | UsageSpike
    | CheckFailed

  /** The warning text; `fixed2` stands for `toFixed(2)`. */
  function WarningText(w: Warning, fixed2: real -> string): (t: string)
    ensures w.HighMonthlyUsage? ==> |t| >= 29 && t[20..|t| - 9] == NatToString(w.requests)
  {
    match w
    case HighDailyCost(c) => "High daily cost: $" + fixed2(c)
    case HighWeeklyCost(c) => "High weekly cost: $" + fixed2(c)
    case HighMonthlyUsage(n) => "High monthly usage: " + NatToString(n) + " requests"
    case UsageSpike => "Usage spike detected - 3x daily average"
    case CheckFailed => "Failed to check usage limits"
  }

  /** The order in which checkUsageLimits pushes its warnings. */
  function WarningRank(w: Warning): nat {
    match w
    case HighDailyCost(_) => 0
    case HighWeeklyCost(_) => 1
    case HighMonthlyUsage(_) => 2
    case UsageSpike => 3
    case CheckFailed => 4
  }

  /** The request count can be read back from a monthly-usage warning. */
  lemma MonthlyWarningStatesCount(n: nat, fixed2: real -> string)
    ensures var t := WarningText(HighMonthlyUsage(n), fixed2);
      |t| >= 29 && DecimalValue(t[20..|t| - 9]) == n
  {
    NatToStringValue(n);
  }

  datatype UsageReport = UsageReport(warnings: seq<Warning>, dailyCost: real, weeklyCost: real, monthlyRequests: nat)

  const MonthlyRequestLimit: nat := 1000

  /** checkUsageLimits over the three replies. Without a bridge the first
      stats request throws, and the report is the single failure warning. */
  function CheckUsageLimits(bridgeAvailable: bool, today: StatsReply, week: StatsReply, month: StatsReply): (r: UsageReport)
    ensures !bridgeAvailable ==> r == UsageReport([CheckFailed], 0.0, 0.0, 0)
    ensures bridgeAvailable ==>
      && r.monthlyRequests == TotalCalls(UsageStats(month))
      && r.dailyCost == TotalCost(UsageStats(today))
      && r.weeklyCost == TotalCost(UsageStats(week))
      && (HighMonthlyUsage(r.monthlyRequests) in r.warnings <==> r.monthlyRequests > MonthlyRequestLimit)
      && (HighDailyCost(r.dailyCost) in r.warnings <==> r.dailyCost > 10.0)
      && (HighWeeklyCost(r.weeklyCost) in r.warnings <==> r.weeklyCost > 50.0)
      && (UsageSpike in r.warnings <==> r.dailyCost > r.weeklyCost / 7.0 * 3.0)
      && CheckFailed !in r.warnings
      && (forall w :: w in r.warnings ==>
            w == HighDailyCost(r.dailyCost) || w == HighWeeklyCost(r.weeklyCost)
            || w == HighMonthlyUsage(r.monthlyRequests) || w == UsageSpike)
    ensures RanksIncrease(r.warnings)
  {
    if !bridgeAvailable then UsageReport([CheckFailed], 0.0, 0.0, 0)
    else
      var daily := TotalCost(UsageStats(today));
      var weekly := TotalCost(UsageStats(week));
      var monthly := TotalCalls(UsageStats(month));
      UsageWarningsThresholds(daily, weekly, monthly);
      UsageReport(UsageWarnings(daily, weekly, monthly), daily, weekly, monthly)
  }

  /** The warnings pushed for the given totals, in the order they are pushed. */
  function UsageWarnings(daily: real, weekly: real, monthly: nat): (ws: seq<Warning>)
    ensures forall w :: w in ws ==>
      w == HighDailyCost(daily) || w == HighWeeklyCost(weekly) || w == HighMonthlyUsage(monthly) || w == UsageSpike
    ensures RanksIncrease(ws)
  {
    var w0: seq<Warning> := if daily > 10.0 then [HighDailyCost(daily)] else [];
    var w1 := Push(w0, weekly > 50.0, HighWeeklyCost(weekly));
    var w2 := Push(w1, monthly > MonthlyRequestLimit, HighMonthlyUsage(monthly));
    Push(w2, daily > weekly / 7.0 * 3.0, UsageSpike)
  }

  /** Each warning is pushed exactly when its threshold is exceeded. */
  lemma UsageWarningsThresholds(daily: real, weekly: real, monthly: nat)
    ensures var ws := UsageWarnings(daily, weekly, monthly);
      && (HighDailyCost(daily) in ws <==> daily > 10.0)
      && (HighWeeklyCost(weekly) in ws <==> weekly > 50.0)
      && (HighMonthlyUsage(monthly) in ws <==> monthly > MonthlyRequestLimit)
      && (UsageSpike in ws <==> daily > weekly / 7.0 * 3.0)
  {
  }

  predicate RanksIncrease(ws: seq<Warning>) {
    forall i, j :: 0 <= i < j < |ws| ==> WarningRank(ws[i]) < WarningRank(ws[j])
  }

  /** `if (cond) warnings.push(w)`, for a `w` ranked after every warning so far. */
  function Push(ws: seq<Warning>, cond: bool, w: Warning): (r: seq<Warning>)
    requires RanksIncrease(ws)
    requires forall i :: 0 <= i < |ws| ==> WarningRank(ws[i]) < WarningRank(w)
    ensures forall x :: x in r <==> x in ws || (cond && x == w)
    ensures RanksIncrease(r)
    ensures forall i :: 0 <= i < |r| ==> WarningRank(r[i]) <= WarningRank(w)
  {
    if cond then ws + [w] else ws
  }

  /** When every stats request fails, the report is empty: zero totals and no warnings. */
  lemma FailedStatsGiveQuietReport(today: StatsReply, week: StatsReply, month: StatsReply)
    requires !today.StatsOk? && !week.StatsOk? && !month.StatsOk?
    ensures CheckUsageLimits(true, today, week, month) == UsageReport([], 0.0, 0.0, 0)
  {
  }

  // ---------------------------------------------------------------------------
  // The service object

  /** The service; `log` records the calls it has issued. */
  class ApiService {
    var log: seq<ServiceCall>

    constructor ()
      ensures log == []
    {
      log := [];
    }

    /** safeApiCall, step by step. */
    method SafeApiCall<T>(provider: string, model: string, opts: CallOptions, env: CallEnvironment<T>)
      returns (settled: Settled<T>)
      modifies this
      ensures log == old(log) + SafeApiCallTrace(provider, model, opts, env).0
      ensures settled == SafeApiCallTrace(provider, model, opts, env).1
    {
      if !env.bridgeAvailable {
        settled := Rejected(NoBridgeMessage);
        return;
      }
      log := log + [CheckRateLimitCall(provider)];
      var rate := CheckRateLimit(true, env.rateReply, env.now).value;
      if !rate.allowed {
        var delay := WaitForRateLimit(rate);
        if delay.Some? {
          log := log + [WaitCall(delay.value)];
        }
      }
      log := log + [IncrementCall(provider)];
      log := log + [ProviderCall];
      log := log + [TrackCall(TrackedRecord(provider, model, opts, env))];
      match env.outcome {
        case Returned(v) => settled := Resolved(v);
        case Threw(e) => settled := Rejected(e.message);
      }
    }
  }

  /** Holds the single shared service (`ApiService.instance`). */
  class ServiceRegistry {
    var instance: ApiService?

    constructor ()
      ensures instance == null
    {
      instance := null;
    }

    /** getInstance: creates the service on the first call only. */
    method GetInstance() returns (s: ApiService)
      modifies this
      ensures old(instance) != null ==> s == old(instance) && instance == old(instance)
      ensures old(instance) == null ==> fresh(s) && s.log == [] && instance == s
    {
      if instance == null {
        instance := new ApiService();
      }
      s := instance;
    }
  }

  /** Two calls of getInstance return the same object. */
  method GetInstanceTwice(registry: ServiceRegistry) returns (a: ApiService, b: ApiService)
    modifies registry
    ensures a == b && registry.instance == a
  {
    a := registry.GetInstance();
    b := registry.GetInstance();
  }
}
