/** The daily record card (components/RecordCard.jsx): the combined time,
    penalty, final salary and speed badge it derives from a stored record, and
    its edit form. */
module RecordCard {
  import opened Values
  import opened Arith
  import opened Records
  import opened SalaryConfig
  import SalaryRule

  /** The combined time the card shows: the stored value when it is defined,
      else the mean of the two averages with missing ones as 0; rounded to
      hundredths either way. */
  function CardCombined(r: DailyRecord): real
  {
    if r.combinedAvgResponseTime != Undefined then Round2(Coerce(r.combinedAvgResponseTime))
    else Round2((Coerce(r.avgFirstResponse) + Coerce(r.avgResponseTime)) / 2.0)
  }

  function CardBase(r: DailyRecord): real
  {
    Coerce(r.conversations) * 20.0
  }

  /** `Math.ceil(Math.max(combined - 5, 0) / 5) * 2000 + unreplied * 500`, on the rounded combined time. */
  function CardPenalty(r: DailyRecord): real
  {
    Ceil(Max(CardCombined(r) - 5.0, 0.0) / 5.0) as real * 2000.0 + Coerce(r.unrepliedChats) * 500.0
  }

  function CardFinal(r: DailyRecord): (f: real)
    ensures f >= 0.0
    ensures f >= CardBase(r) - CardPenalty(r)
  {
    Max(CardBase(r) - CardPenalty(r), 0.0)
  }

  /** The badge: "Fast" when the rounded combined time is at most 5 minutes. */
  predicate Fast(r: DailyRecord)
  {
    CardCombined(r) <= 5.0
  }

  /** The card's penalty is the shared rule's penalty taken on the rounded combined time. */
  lemma CardPenaltyIsRuleOnRounded(r: DailyRecord)
    ensures CardPenalty(r)
            == SalaryRule.LateBlocks(CardCombined(r), SALARY_CONFIG.responseTimeThreshold) as real * SALARY_CONFIG.lateResponsePenalty
               + Coerce(r.unrepliedChats) * SALARY_CONFIG.unrepliedPenalty
  {
    var c := CardCombined(r);
    if c <= 5.0 {
      assert Ceil(Max(c - 5.0, 0.0) / 5.0) == 0;
    }
  }

  /** A card is badged fast exactly when it carries no late penalty. */
  lemma FastIffNoLatePenalty(r: DailyRecord)
    ensures Fast(r) <==> CardPenalty(r) == Coerce(r.unrepliedChats) * 500.0
  {
    CardPenaltyIsRuleOnRounded(r);
    var n := SalaryRule.LateBlocks(CardCombined(r), 5.0);
    if !Fast(r) {
      assert n >= 1;
    }
  }

  /** The combined time the penalty is evidently meant to use: the unrounded one. */
  function RawCombined(r: DailyRecord): real
  {
    if r.combinedAvgResponseTime != Undefined then Coerce(r.combinedAvgResponseTime)
    else (Coerce(r.avgFirstResponse) + Coerce(r.avgResponseTime)) / 2.0
  }

  /** The penalty taken on the unrounded combined time, as every other copy of the rule does. */
  function IntendedPenalty(r: DailyRecord): real
  {
    SalaryRule.LateBlocks(RawCombined(r), 5.0) as real * 2000.0 + Coerce(r.unrepliedChats) * 500.0
  }

  function IntendedFinal(r: DailyRecord): real
  {
    Max(CardBase(r) - IntendedPenalty(r), 0.0)
  }

  /** Without a stored combined time, the intended card is the shared rule. */
  lemma IntendedIsRule(r: DailyRecord)
    requires r.combinedAvgResponseTime == Undefined
    ensures var d := SalaryRule.Canonical(SALARY_CONFIG, r.conversations, r.avgFirstResponse, r.avgResponseTime, r.unrepliedChats);
      IntendedPenalty(r) == d.penalty && IntendedFinal(r) == d.final && CardBase(r) == d.base
  {
  }

  /** Rounding first never adds a block and removes at most one: the card
      charges at most the intended penalty, and at least that less 2000. */
  lemma CardPenaltyBounds(r: DailyRecord)
    ensures IntendedPenalty(r) - 2000.0 <= CardPenalty(r) <= IntendedPenalty(r)
    ensures CardFinal(r) >= IntendedFinal(r)
  {
    CardPenaltyIsRuleOnRounded(r);
    var x := RawCombined(r);
    var c := CardCombined(r);
    assert c == Round2(x);
    var n := SalaryRule.LateBlocks(x, 5.0);
    var m := SalaryRule.LateBlocks(c, 5.0);
    if n == 0 {
      assert x <= 5.0;
      Round2Exact(500);
      Round2Monotone(x, 5.0);
      assert m == 0;
    } else {
      assert x <= 5.0 + n as real * 5.0;
      Round2Exact(500 + 500 * n);
      assert (500 + 500 * n) as real / 100.0 == 5.0 + n as real * 5.0;
      Round2Monotone(x, 5.0 + n as real * 5.0);
      if c > 5.0 {
        SalaryRule.LateBlocksLeast(c, 5.0, n);
      }
      assert m <= n;
      if n >= 2 {
        assert c > 5.0 + (n - 2) as real * 5.0;
        assert m >= n - 1;
      }
    }
  }

  /** The waived block: 5.008 and 5 minutes average 5.004, shown as 5.00, so
      the card charges nothing where the rule charges 2000. */
  lemma CardWaivesBlock()
    ensures var r := DailyRecord(Num(1000.0), Num(5.008), Num(5.0), Num(0.0), Undefined);
      && CardCombined(r) == 5.0 && Fast(r)
      && CardPenalty(r) == 0.0 && CardFinal(r) == 20000.0
      && IntendedPenalty(r) == 2000.0 && IntendedFinal(r) == 18000.0
      && SalaryRule.Canonical(SALARY_CONFIG, r.conversations, r.avgFirstResponse, r.avgResponseTime, r.unrepliedChats).final == 18000.0
  {
    assert (5.004 * 100.0 + 0.5).Floor == 500;
    assert Ceil(0.004 / 5.0) == 1;
    assert Ceil(0.0 / 5.0) == 0;
  }

  /** When the combined time is already a whole number of hundredths the card
      and the intended penalty agree. */
  lemma CardExactAgrees(r: DailyRecord, k: int)
    requires RawCombined(r) == k as real / 100.0
    ensures CardPenalty(r) == IntendedPenalty(r)
    ensures CardFinal(r) == IntendedFinal(r)
  {
    Round2Exact(k);
    CardPenaltyIsRuleOnRounded(r);
  }

  /** The four editable metrics. */
  datatype FormField = Conversations | AvgFirstResponse | AvgResponseTime | UnrepliedChats

  /** The card's edit form. */
  class EditForm {
    var conversations: Value
    var avgFirstResponse: Value
    var avgResponseTime: Value
    var unrepliedChats: Value

    /** The form starts with the record's four metrics. */
    constructor (record: DailyRecord)
      ensures conversations == record.conversations
      ensures avgFirstResponse == record.avgFirstResponse
      ensures avgResponseTime == record.avgResponseTime
      ensures unrepliedChats == record.unrepliedChats
    {
      conversations := record.conversations;
      avgFirstResponse := record.avgFirstResponse;
      avgResponseTime := record.avgResponseTime;
      unrepliedChats := record.unrepliedChats;
    }

    function Get(f: FormField): Value
      reads this
    {
      match f
      case Conversations => conversations
      case AvgFirstResponse => avgFirstResponse
      case AvgResponseTime => avgResponseTime
      case UnrepliedChats => unrepliedChats
    }

    /** `handleInput(field, value)`: the typed text replaces that field alone. */
    method HandleInput(f: FormField, text: string)
      modifies this
      ensures Get(f) == Text(text)
      ensures forall g :: g != f ==> Get(g) == old(Get(g))
    {
      match f
      case Conversations => conversations := Text(text);
      case AvgFirstResponse => avgFirstResponse := Text(text);
      case AvgResponseTime => avgResponseTime := Text(text);
      case UnrepliedChats => unrepliedChats := Text(text);
    }
  }
}
