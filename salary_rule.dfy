/** The daily salary rule shared by every screen, with its constants as
    parameters: base pay per conversation, a late penalty per started block of
    BLOCK_MINUTES above the response-time threshold, and a penalty per unreplied
    chat; the final pay never drops below zero. */
module SalaryRule {
  import opened Values
  import opened Arith
  import opened SalaryConfig

  /** Every copy of the rule divides the excess by a hard-coded 5 minutes. */
  const BLOCK_MINUTES: real := 5.0

  datatype Daily = Daily(base: real, combined: real, penalty: real, final: real)

  /** Started blocks of BLOCK_MINUTES by which `combined` exceeds `threshold`;
      none unless the excess is strictly positive. */
  function LateBlocks(combined: real, threshold: real): (n: int)
    ensures combined <= threshold ==> n == 0
    ensures combined > threshold ==>
      n >= 1 && (n - 1) as real * BLOCK_MINUTES < combined - threshold <= n as real * BLOCK_MINUTES
  {
    if combined > threshold then Ceil((combined - threshold) / BLOCK_MINUTES) else 0
  }

  /** The rule on numbers that have already been coerced. */
  function DailyPay(cfg: Config, conv: real, first: real, resp: real, unreplied: real): (d: Daily)
    ensures d.final >= 0.0
    ensures d.final >= d.base - d.penalty
    ensures d.final == 0.0 || d.final == d.base - d.penalty
  {
    var base := conv * cfg.payPerConversation;
    var combined := (first + resp) / 2.0;
    var late := LateBlocks(combined, cfg.responseTimeThreshold) as real * cfg.lateResponsePenalty;
    var penalty := late + unreplied * cfg.unrepliedPenalty;
    Daily(base, combined, penalty, Max(base - penalty, 0.0))
  }

  /** The rule on raw field values, each coerced with `Number(x) || 0`. */
  function Canonical(cfg: Config, conversations: Value, avgFirst: Value, avgResp: Value, unreplied: Value): Daily
  {
    DailyPay(cfg, Coerce(conversations), Coerce(avgFirst), Coerce(avgResp), Coerce(unreplied))
  }

  /** The rule's four derived quantities, each in terms of the inputs. */
  lemma DailyPayMeaning(cfg: Config, conv: real, first: real, resp: real, unreplied: real)
    ensures var d := DailyPay(cfg, conv, first, resp, unreplied);
      && d.base == conv * cfg.payPerConversation
      && d.combined * 2.0 == first + resp
      && d.penalty == LateBlocks(d.combined, cfg.responseTimeThreshold) as real * cfg.lateResponsePenalty
                      + unreplied * cfg.unrepliedPenalty
      && (d.base >= d.penalty ==> d.final == d.base - d.penalty)
      && (d.base < d.penalty ==> d.final == 0.0)
  {
  }

  /** Absent or non-numeric inputs count as 0. */
  lemma AbsentInputsAreZero(cfg: Config, v: Value)
    requires ToNumber(v).None? || v == Undefined || v == Null
    ensures Canonical(cfg, v, v, v, v) == DailyPay(cfg, 0.0, 0.0, 0.0, 0.0)
    ensures Canonical(cfg, v, v, v, v).base == 0.0
  {
  }

  /** With no unreplied chats and a positive late penalty, nothing is charged
      exactly when the combined time is at most the threshold (a strict `>`). */
  lemma NoPenaltyIffWithinThreshold(cfg: Config, conv: real, first: real, resp: real)
    requires cfg.lateResponsePenalty > 0.0
    ensures DailyPay(cfg, conv, first, resp, 0.0).penalty == 0.0
            <==> (first + resp) / 2.0 <= cfg.responseTimeThreshold
  {
    var combined := (first + resp) / 2.0;
    var n := LateBlocks(combined, cfg.responseTimeThreshold);
    if combined > cfg.responseTimeThreshold {
      assert n >= 1;
      assert n as real * cfg.lateResponsePenalty >= cfg.lateResponsePenalty;
    }
  }

  /** The block count is the least number of blocks that covers the excess:
      any excess, however small, costs one whole block. */
  lemma LateBlocksLeast(combined: real, threshold: real, k: int)
    requires combined > threshold
    requires k >= 0 && combined - threshold <= k as real * BLOCK_MINUTES
    ensures 1 <= LateBlocks(combined, threshold) <= k
  {
  }

  /** More combined minutes never cost fewer blocks. */
  lemma LateBlocksMonotone(c1: real, c2: real, threshold: real)
    requires c1 <= c2
    ensures LateBlocks(c1, threshold) <= LateBlocks(c2, threshold)
  {
    if c1 > threshold {
      var n2 := LateBlocks(c2, threshold);
      CeilLeast((c1 - threshold) / BLOCK_MINUTES, n2);
    }
  }

  /** A higher per-chat penalty never raises the final pay when the chat count is not negative. */
  lemma FinalAntitoneInUnrepliedRate(cfg: Config, rate: real, conv: real, first: real, resp: real, unreplied: real)
    requires unreplied >= 0.0 && rate <= cfg.unrepliedPenalty
    ensures DailyPay(cfg, conv, first, resp, unreplied).final
            <= DailyPay(cfg.(unrepliedPenalty := rate), conv, first, resp, unreplied).final
  {
    assert unreplied * rate <= unreplied * cfg.unrepliedPenalty;
  }

  /** At the threshold nothing is late; one hundredth above costs one block. */
  lemma ThresholdBoundary(threshold: real)
    ensures LateBlocks(threshold, threshold) == 0
    ensures LateBlocks(threshold + 0.01, threshold) == 1
  {
  }

  /** The worked examples of the rule under the shipped configuration. */
  lemma Scenarios()
    ensures DailyPay(SALARY_CONFIG, 1000.0, 5.0, 5.0, 0.0) == Daily(20000.0, 5.0, 0.0, 20000.0)
    ensures DailyPay(SALARY_CONFIG, 1000.0, 7.0, 9.0, 2.0) == Daily(20000.0, 8.0, 3000.0, 17000.0)
    ensures DailyPay(SALARY_CONFIG, 0.0, 0.0, 0.0, 3.0) == Daily(0.0, 0.0, 1500.0, 0.0)
  {
    assert LateBlocks(8.0, 5.0) == 1;
  }
}
