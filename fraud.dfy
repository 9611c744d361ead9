/**
 * The fraud scoring engine (fraud-service): three additive rules give a risk
 * score, the score gives a level and a flag, and every analysis is logged.
 *
 * The velocity rule counts earlier analyses from the same source account whose
 * timestamp lies after the start of a trailing window; the count is taken over
 * the log as it is before the current analysis is saved.  Times are whole
 * seconds supplied by the caller.
 */
module Fraud {
  import opened Outcomes
  import opened Money
  import opened Events
  import opened Seqs

  const HighAmountPoints: int := 50
  const RapidPoints: int := 40
  const RoundPoints: int := 10
  /** BigDecimal.valueOf(10000) rupees, in paise. */
  const RoundUnit: int := 1_000_000
  const SecondsPerMinute: int := 60
  const NormalReason: string := "Normal transaction"
  const ReasonSeparator: string := "; "

  /** The three values injected from configuration; the threshold is in paise. */
  datatype FraudConfig = FraudConfig(highAmountThreshold: int, windowMinutes: int, rapidTransactionCount: int)

  datatype RiskLevel = Low | Medium | High | Critical

  /** The text the log stores as its risk level. */
  function LevelName(l: RiskLevel): (name: string)
    ensures name in {"LOW", "MEDIUM", "HIGH", "CRITICAL"}
  {
    match l
    case Low => "LOW"
    case Medium => "MEDIUM"
    case High => "HIGH"
    case Critical => "CRITICAL"
  }

  /** A fraud_logs document (its generated id left out). */
  datatype FraudLog = FraudLog(
    transactionId: int,
    fromAccount: string,
    toAccount: string,
    amount: int,
    riskScore: int,
    riskLevel: string,
    reason: string,
    flagged: bool,
    timestamp: int)

  // ---------------------------------------------------------------------------
  // The rules

  /** Rule 1, a strict comparison: an amount equal to the threshold does not fire it. */
  predicate IsHighAmount(amount: int, threshold: int)
  {
    amount > threshold
  }

  /** Rule 2. */
  predicate IsRapid(recentCount: int, rapidTransactionCount: int)
  {
    recentCount >= rapidTransactionCount
  }

  /** Rule 3 on the amount's value: a whole multiple of 10000 rupees, at least 10000. */
  predicate IsRoundAmount(amount: int)
  {
    amount % RoundUnit == 0 && amount >= RoundUnit
  }

  function RiskScore(amount: int, threshold: int, recentCount: int, rapidTransactionCount: int): (score: int)
    ensures score in {0, 10, 40, 50, 60, 90, 100}
    ensures 0 <= score <= 100
  {
    (if IsHighAmount(amount, threshold) then HighAmountPoints else 0) +
    (if IsRapid(recentCount, rapidTransactionCount) then RapidPoints else 0) +
    (if IsRoundAmount(amount) then RoundPoints else 0)
  }

  /** How severe a level is, LOW lowest. */
  function Rank(l: RiskLevel): nat
  {
    match l
    case Low => 0
    case Medium => 1
    case High => 2
    case Critical => 3
  }

  /**
   * The level and the flag, set together in each branch of the source's
   * if-chain: a log is flagged exactly when its level is HIGH or CRITICAL.
   */
  function Classify(score: int): (c: (RiskLevel, bool))
    ensures c.1 <==> c.0 in {High, Critical}
  {
    if score >= 75 then (Critical, true)
    else if score >= 50 then (High, true)
    else if score >= 25 then (Medium, false)
    else (Low, false)
  }

  /** A log is flagged exactly when its score reaches 50. */
  lemma FlaggedIffScoreAtLeast50(score: int)
    ensures Classify(score).1 <==> score >= 50
  {
  }

  /** A higher score never gets a lower level. */
  lemma ClassifyMonotone(s1: int, s2: int)
    requires s1 <= s2
    ensures Rank(Classify(s1).0) <= Rank(Classify(s2).0)
  {
  }

  /**
   * Which rules make a transfer suspicious: it is flagged exactly when it is a
   * high amount, or both rapid and round.
   */
  lemma FlaggedIffRules(amount: int, threshold: int, recentCount: int, rapidCount: int)
    ensures Classify(RiskScore(amount, threshold, recentCount, rapidCount)).1 <==>
      IsHighAmount(amount, threshold) || (IsRapid(recentCount, rapidCount) && IsRoundAmount(amount))
  {
  }

  /** The level each combination of fired rules gets. */
  lemma LevelByRules(amount: int, threshold: int, recentCount: int, rapidCount: int)
    ensures var level := Classify(RiskScore(amount, threshold, recentCount, rapidCount)).0;
      var high, rapid, round := IsHighAmount(amount, threshold), IsRapid(recentCount, rapidCount), IsRoundAmount(amount);
      && (level == Critical <==> high && rapid)
      && (level == High <==> (high && !rapid) || (!high && rapid && round))
      && (level == Medium <==> !high && rapid && !round)
      && (level == Low <==> !high && !rapid)
  {
  }

  /**
   * Crossing the threshold adds exactly 50 when nothing else changes: an amount at
   * the threshold scores like one below it, and one above scores 50 more.
   */
  lemma HighAmountCrossing(below: int, above: int, threshold: int, recentCount: int, rapidCount: int)
    requires below <= threshold < above
    requires IsRoundAmount(below) == IsRoundAmount(above)
    ensures RiskScore(above, threshold, recentCount, rapidCount) == RiskScore(below, threshold, recentCount, rapidCount) + 50
  {
  }

  /** More recent analyses never lower the score. */
  lemma ScoreMonotoneInRecentCount(amount: int, threshold: int, c1: int, c2: int, rapidCount: int)
    requires c1 <= c2
    ensures RiskScore(amount, threshold, c1, rapidCount) <= RiskScore(amount, threshold, c2, rapidCount)
  {
  }

  // ---------------------------------------------------------------------------
  // The reason text

  function HighAmountReason(amount: int): string
  {
    "High amount transaction: ₹" + FormatAmount(amount)
  }

  function RapidReason(recentCount: int, windowMinutes: int): string
  {
    "Rapid transactions: " + IntToString(recentCount) + " in last " + IntToString(windowMinutes) + " minutes"
  }

  function RoundReason(amount: int): string
  {
    "Round amount: ₹" + FormatAmount(amount)
  }

  /** String.join. */
  function Join(parts: seq<string>, separator: string): (s: string)
    ensures parts != [] && parts[0] != [] ==> s != [] && s[0] == parts[0][0]
    decreases |parts|
  {
    if parts == [] then ""
    else if |parts| == 1 then parts[0]
    else parts[0] + separator + Join(parts[1..], separator)
  }

  /** The text stored as the reason: the fired rules' messages, or "Normal transaction". */
  function ReasonText(reasons: seq<string>): string
  {
    Join(if reasons == [] then [NormalReason] else reasons, ReasonSeparator)
  }

  // ---------------------------------------------------------------------------
  // One analysis

  /** The condition countByFromAccountAndTimestampAfter counts: the account's analyses strictly after the window start. */
  function InWindow(account: string, windowStart: int): FraudLog -> bool
  {
    (l: FraudLog) => l.fromAccount == account && l.timestamp > windowStart
  }

  /**
   * countByFromAccountAndTimestampAfter over the log, counting from the most
   * recent analysis back: the number of stored analyses that meet `InWindow`.
   */
  function RecentCount(logs: seq<FraudLog>, account: string, windowStart: int): (n: nat)
    ensures n == |Filter(logs, InWindow(account, windowStart))|
    ensures n <= |logs|
    decreases |logs|
  {
    if logs == [] then 0
    else
      var earlier, last := logs[..|logs| - 1], logs[|logs| - 1];
      assert logs == earlier + [last];
      FilterAppend(earlier, [last], InWindow(account, windowStart));
      FilterSingleton(last, InWindow(account, windowStart));
      RecentCount(earlier, account, windowStart)
        + (if last.fromAccount == account && last.timestamp > windowStart then 1 else 0)
  }

  function WindowStart(config: FraudConfig, now: int): int
  {
    now - config.windowMinutes * SecondsPerMinute
  }

  /** The messages of the rules that fire, in the order the rules are applied. */
  function FiredReasons(amount: int, config: FraudConfig, recent: int): seq<string>
  {
    (if IsHighAmount(amount, config.highAmountThreshold) then [HighAmountReason(amount)] else [])
    + (if IsRapid(recent, config.rapidTransactionCount) then [RapidReason(recent, config.windowMinutes)] else [])
    + (if IsRoundAmount(amount) then [RoundReason(amount)] else [])
  }

  /**
   * The log analyzeTransaction builds, given the log as it was before: it copies
   * the transfer, is stamped with the time of the analysis, and is flagged
   * exactly when the transfer is a high amount, or rapid and round, counting
   * only the analyses saved before it.
   */
  function Assess(logs: seq<FraudLog>, config: FraudConfig, transactionId: int, fromAccount: string,
                  toAccount: string, amount: int, now: int): (log: FraudLog)
    ensures log.transactionId == transactionId && log.fromAccount == fromAccount && log.toAccount == toAccount
    ensures log.amount == amount && log.timestamp == now
    ensures var recent := RecentCount(logs, fromAccount, WindowStart(config, now));
      && log.riskScore == RiskScore(amount, config.highAmountThreshold, recent, config.rapidTransactionCount)
      && (log.flagged <==>
            IsHighAmount(amount, config.highAmountThreshold)
            || (IsRapid(recent, config.rapidTransactionCount) && IsRoundAmount(amount)))
    ensures log.flagged <==> log.riskScore >= 50
    ensures log.riskLevel == LevelName(Classify(log.riskScore).0)
  {
    var recent := RecentCount(logs, fromAccount, WindowStart(config, now));
    var score := RiskScore(amount, config.highAmountThreshold, recent, config.rapidTransactionCount);
    FraudLog(transactionId, fromAccount, toAccount, amount, score, LevelName(Classify(score).0),
             ReasonText(FiredReasons(amount, config, recent)), Classify(score).1, now)
  }

  /**
   * The log reads "Normal transaction" exactly when no rule fired, that is when
   * the score is 0; a flagged log always names a rule.
   */
  lemma NormalReasonIffZeroScore(logs: seq<FraudLog>, config: FraudConfig, id: int, from: string, to: string, amount: int, now: int)
    ensures var log := Assess(logs, config, id, from, to, amount, now);
      (log.reason == NormalReason <==> log.riskScore == 0)
  {
    var log := Assess(logs, config, id, from, to, amount, now);
    var recent := RecentCount(logs, from, WindowStart(config, now));
    var reasons := FiredReasons(amount, config, recent);
    if reasons != [] {
      assert reasons[0][0] in {'H', 'R'};
      assert log.reason[0] == reasons[0][0];
    }
  }

  /**
   * The velocity count never exceeds the number of the account's logs, and it
   * is that number when the window reaches back past every stored analysis.
   */
  lemma RecentCountWithinAccountLogs(logs: seq<FraudLog>, account: string, windowStart: int)
    ensures RecentCount(logs, account, windowStart) <= |LogsByAccount(logs, account)|
    ensures (forall l :: l in logs ==> l.timestamp > windowStart) ==>
      RecentCount(logs, account, windowStart) == |LogsByAccount(logs, account)|
  {
    FilterStricter(logs, InWindow(account, windowStart), FromAccount(account));
    if forall l :: l in logs ==> l.timestamp > windowStart {
      FilterSameOn(logs, InWindow(account, windowStart), FromAccount(account));
    }
  }

  predicate IsFlagged(l: FraudLog)
  {
    l.flagged
  }

  /** The condition findByFromAccount selects on. */
  function FromAccount(account: string): FraudLog -> bool
  {
    (l: FraudLog) => l.fromAccount == account
  }

  /** findByFlagged(true): every flagged log, once per stored log; the model lists them in insertion order. */
  function FlaggedLogs(logs: seq<FraudLog>): (r: seq<FraudLog>)
    ensures forall l :: l in r <==> l in logs && l.flagged
    ensures forall l {:trigger multiset(r)[l]} :: multiset(r)[l] == if l.flagged then multiset(logs)[l] else 0
  {
    Filter(logs, IsFlagged)
  }

  /** findByFromAccount: every log of the account, once per stored log; the model lists them in insertion order. */
  function LogsByAccount(logs: seq<FraudLog>, account: string): (r: seq<FraudLog>)
    ensures forall l :: l in r <==> l in logs && l.fromAccount == account
    ensures forall l {:trigger multiset(r)[l]} :: multiset(r)[l] == if l.fromAccount == account then multiset(logs)[l] else 0
  {
    Filter(logs, FromAccount(account))
  }

  /**
   * In the model's insertion order, a saved analysis is listed last among the
   * flagged logs exactly when it is flagged, and last among its account's logs;
   * the earlier lists are kept as they were, and other accounts' lists do not
   * change.
   */
  lemma QueriesAfterSave(logs: seq<FraudLog>, log: FraudLog, account: string)
    ensures FlaggedLogs(logs + [log]) == FlaggedLogs(logs) + (if log.flagged then [log] else [])
    ensures LogsByAccount(logs + [log], account)
      == LogsByAccount(logs, account) + (if log.fromAccount == account then [log] else [])
  {
    FilterAppend(logs, [log], IsFlagged);
    FilterSingleton(log, IsFlagged);
    FilterAppend(logs, [log], FromAccount(account));
    FilterSingleton(log, FromAccount(account));
  }

  // ---------------------------------------------------------------------------
  // The round-amount rule as the source writes it

  const Zero: Decimal := Decimal(0, 0)

  /**
   * BigDecimal.remainder by a whole number: the remainder of the value, with the
   * sign of the dividend, held at the dividend's scale.
   */
  function RemainderBy(d: Decimal, divisor: nat): Decimal
    requires divisor > 0
  {
    var unit := divisor * Pow10(d.scale);
    var r := if d.unscaled >= 0 then d.unscaled % unit else -((-d.unscaled) % unit);
    Decimal(r, d.scale)
  }

  /**
   * amount.remainder(10000).equals(BigDecimal.ZERO) && amount.compareTo(10000) >= 0.
   * BigDecimal.equals compares the scale as well as the value.
   */
  predicate RoundAmountAsWritten(d: Decimal)
  {
    RemainderBy(d, 10000) == Zero && AtLeastPaise(d, RoundUnit)
  }

  /** As written, the rule never fires for an amount with fractional digits, however round its value. */
  lemma RoundAmountAsWrittenMissesScaledAmounts(d: Decimal)
    requires d.scale > 0
    ensures !RoundAmountAsWritten(d)
  {
  }

  /** 20000.00 is a multiple of 10000 rupees, yet the rule as written does not fire for it. */
  lemma RoundAmountAsWrittenCounterexample()
    ensures IsRoundAmount(ToPaise(Decimal(2_000_000, 2)))
    ensures !RoundAmountAsWritten(Decimal(2_000_000, 2))
  {
  }

  lemma ScaledModulo(u: int)
    ensures (u * 100) % RoundUnit == 0 <==> u % 10000 == 0
  {
    var q, r := u / 10000, u % 10000;
    assert u == q * 10000 + r && 0 <= r < 10000;
    assert u * 100 == q * RoundUnit + r * 100;
    assert 0 <= r * 100 < RoundUnit;
    assert (u * 100) % RoundUnit == r * 100;
  }

  /**
   * The corrected rule looks only at the value: it agrees with the rule as
   * written on whole-rupee amounts, and trailing zeros do not change it.
   */
  lemma RoundAmountCorrected(d: Decimal, extra: nat)
    requires d.scale + extra <= 2
    ensures d.scale == 0 ==> (IsRoundAmount(ToPaise(d)) <==> RoundAmountAsWritten(d))
    ensures IsRoundAmount(ToPaise(Widen(d, extra))) <==> IsRoundAmount(ToPaise(d))
  {
    WidenKeepsPaise(d, extra);
    if d.scale == 0 {
      ScaledModulo(d.unscaled);
      if d.unscaled < 0 {
        assert !AtLeastPaise(d, RoundUnit);
      }
    }
  }

  // ---------------------------------------------------------------------------
  // The service

  class FraudDetectionService {
    const config: FraudConfig
    /** The fraud_logs collection, in insertion order. */
    var logs: seq<FraudLog>

    constructor (config: FraudConfig)
      ensures this.config == config && logs == []
    {
      this.config := config;
      logs := [];
    }

    /**
     * analyzeTransaction: applies the three rules in order, accumulating the
     * score and the reasons, classifies the score, and saves exactly one log,
     * flagged or not.  The velocity count is read before the save.  The
     * round-amount rule is applied to the amount's value (`IsRoundAmount`),
     * not with the scale-sensitive comparison the source writes
     * (`RoundAmountAsWritten`).
     */
    method AnalyzeTransaction(transactionId: int, fromAccount: string, toAccount: string, amount: int, now: int)
      returns (saved: FraudLog)
      modifies this
      ensures saved == Assess(old(logs), config, transactionId, fromAccount, toAccount, amount, now)
      ensures logs == old(logs) + [saved]
    {
      var reasons: seq<string> := [];
      var riskScore := 0;

      if amount > config.highAmountThreshold {
        reasons := reasons + [HighAmountReason(amount)];
        riskScore := riskScore + HighAmountPoints;
      }
      ghost var afterHigh := reasons;

      var windowStart := now - config.windowMinutes * SecondsPerMinute;
      var recentTransactionCount := RecentCount(logs, fromAccount, windowStart);
      if recentTransactionCount >= config.rapidTransactionCount {
        reasons := reasons + [RapidReason(recentTransactionCount, config.windowMinutes)];
        riskScore := riskScore + RapidPoints;
      }
      ghost var afterRapid := reasons;

      if amount % RoundUnit == 0 && amount >= RoundUnit {
        reasons := reasons + [RoundReason(amount)];
        riskScore := riskScore + RoundPoints;
      }
      assert reasons == afterRapid + (if IsRoundAmount(amount) then [RoundReason(amount)] else []);
      assert afterRapid == afterHigh + (if IsRapid(recentTransactionCount, config.rapidTransactionCount)
                                        then [RapidReason(recentTransactionCount, config.windowMinutes)] else []);
      assert reasons == FiredReasons(amount, config, recentTransactionCount);
      assert riskScore == RiskScore(amount, config.highAmountThreshold, recentTransactionCount, config.rapidTransactionCount);

      var riskLevel: string;
      var flagged: bool;
      if riskScore >= 75 {
        riskLevel, flagged := "CRITICAL", true;
      } else if riskScore >= 50 {
        riskLevel, flagged := "HIGH", true;
      } else if riskScore >= 25 {
        riskLevel, flagged := "MEDIUM", false;
      } else {
        riskLevel, flagged := "LOW", false;
      }

      assert riskLevel == LevelName(Classify(riskScore).0) && flagged == Classify(riskScore).1;
      var reason := Join(if reasons == [] then [NormalReason] else reasons, ReasonSeparator);
      assert reason == ReasonText(FiredReasons(amount, config, recentTransactionCount));
      assert windowStart == WindowStart(config, now);
      saved := FraudLog(transactionId, fromAccount, toAccount, amount, riskScore, riskLevel, reason, flagged, now);
      logs := logs + [saved];
    }
  }
}
