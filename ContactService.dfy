/**
 * The computational parts of the contact service: the insight heuristics of
 * `getContactInsights` (engagement level, next best action, churn risk,
 * health score), the per-status deal counts of `getContact360`, the bucket
 * filters of `getContactTimeline`, and the SET-clause builder of
 * `updateContact`. Query rows are inputs; "days since the last activity" is
 * an input because it depends on the clock.
 */
module ContactService {
  import opened Wrappers
  import opened Json

  // ------------------------------------------------------------ row filters

  /** `row[key] === value` for a string `value`. */
  predicate FieldIs(row: Json, key: string, value: string) {
    StrictEquals(GetField(row, key), Str(value))
  }

  /** `rows.filter(r => r[key] === value)`. */
  function Where(rows: seq<Json>, key: string, value: string): (r: seq<Json>)
    ensures |r| <= |rows|
    ensures forall i :: 0 <= i < |r| ==> FieldIs(r[i], key, value)
    ensures multiset(r) <= multiset(rows)
    decreases |rows|
  {
    if rows == [] then []
    else
      var init := Where(rows[..|rows| - 1], key, value);
      assert rows == rows[..|rows| - 1] + [rows[|rows| - 1]];
      if FieldIs(rows[|rows| - 1], key, value) then init + [rows[|rows| - 1]] else init
  }

  /** Every row the filter keeps satisfies it, and every row that satisfies it is kept. */
  lemma {:induction false} WhereMembers(rows: seq<Json>, key: string, value: string)
    ensures forall x :: x in Where(rows, key, value) <==> x in rows && FieldIs(x, key, value)
    decreases |rows|
  {
    if rows != [] {
      var init := rows[..|rows| - 1];
      WhereMembers(init, key, value);
      assert rows == init + [rows[|rows| - 1]];
    }
  }

  // ------------------------------------------------------- Contact 360 counts

  /** `won_deals_count` and `open_deals_count`: the deals whose `status` is the given one. */
  function StatusCount(deals: seq<Json>, status: string): (n: nat)
    ensures n <= |deals|
  {
    |Where(deals, "status", status)|
  }

  /** No deal is counted both as won and as open. */
  lemma {:induction false} WonAndOpenAtMostDeals(deals: seq<Json>)
    ensures StatusCount(deals, "won") + StatusCount(deals, "open") <= |deals|
    decreases |deals|
  {
    if deals != [] {
      var init := deals[..|deals| - 1];
      WonAndOpenAtMostDeals(init);
      assert !(FieldIs(deals[|deals| - 1], "status", "won") && FieldIs(deals[|deals| - 1], "status", "open"));
    }
  }

  // ---------------------------------------------------------------- timeline

  /** The five lists `getContactTimeline` returns. */
  datatype Timeline = Timeline(
    activities: seq<Json>, deals: seq<Json>, emails: seq<Json>, calls: seq<Json>, notes: seq<Json>)

  /** Three buckets by `source`, two by `type`. */
  function BuildTimeline(rows: seq<Json>): (t: Timeline)
    ensures multiset(t.activities) + multiset(t.deals) + multiset(t.emails) <= multiset(rows)
  {
    WhereDisjoint(rows, "source", "activity", "deal", "email");
    Timeline(
      Where(rows, "source", "activity"),
      Where(rows, "source", "deal"),
      Where(rows, "source", "email"),
      Where(rows, "type", "call"),
      Where(rows, "type", "note"))
  }

  /** The filter over a list is the filter over all but its last row, plus that row when it passes. */
  lemma WhereLast(rows: seq<Json>, key: string, value: string)
    requires rows != []
    ensures var last := rows[|rows| - 1];
      multiset(Where(rows, key, value))
        == multiset(Where(rows[..|rows| - 1], key, value)) + (if FieldIs(last, key, value) then multiset{last} else multiset{})
  {
  }

  /** A field holds at most one string. */
  lemma FieldIsExclusive(row: Json, key: string, a: string, b: string)
    requires a != b
    ensures !(FieldIs(row, key, a) && FieldIs(row, key, b))
  {
  }

  /** The filter keeps every copy of a passing row and no copy of any other. */
  lemma {:induction false} WhereCount(rows: seq<Json>, key: string, value: string)
    ensures forall x :: multiset(Where(rows, key, value))[x] == if FieldIs(x, key, value) then multiset(rows)[x] else 0
    decreases |rows|
  {
    if rows != [] {
      var init := rows[..|rows| - 1];
      var last := rows[|rows| - 1];
      assert rows == init + [last];
      var all, kept := multiset(rows), multiset(Where(rows, key, value));
      assert all == multiset(init) + multiset{last};
      WhereCount(init, key, value);
      WhereLast(rows, key, value);
      forall x
        ensures kept[x] == if FieldIs(x, key, value) then all[x] else 0
      {
        var pass := FieldIs(x, key, value);
        assert multiset(Where(init, key, value))[x] == if pass then multiset(init)[x] else 0;
        if x == last {
          assert all[x] == multiset(init)[x] + 1;
        } else {
          assert all[x] == multiset(init)[x];
        }
      }
    }
  }

  /** Filters on three different values of one key never share a row. */
  lemma WhereDisjoint(rows: seq<Json>, key: string, a: string, b: string, c: string)
    requires a != b && a != c && b != c
    ensures multiset(Where(rows, key, a)) + multiset(Where(rows, key, b)) + multiset(Where(rows, key, c))
      <= multiset(rows)
  {
    WhereCount(rows, key, a);
    WhereCount(rows, key, b);
    WhereCount(rows, key, c);
    var sum := multiset(Where(rows, key, a)) + multiset(Where(rows, key, b)) + multiset(Where(rows, key, c));
    forall x
      ensures sum[x] <= multiset(rows)[x]
    {
      FieldIsExclusive(x, key, a, b);
      FieldIsExclusive(x, key, a, c);
      FieldIsExclusive(x, key, b, c);
    }
  }

  /** When every row carries one of three different values, the three filters partition the rows. */
  lemma WherePartition(rows: seq<Json>, key: string, a: string, b: string, c: string)
    requires a != b && a != c && b != c
    requires forall i :: 0 <= i < |rows| ==> FieldIs(rows[i], key, a) || FieldIs(rows[i], key, b) || FieldIs(rows[i], key, c)
    ensures multiset(Where(rows, key, a)) + multiset(Where(rows, key, b)) + multiset(Where(rows, key, c))
      == multiset(rows)
  {
    WhereCount(rows, key, a);
    WhereCount(rows, key, b);
    WhereCount(rows, key, c);
    var sum := multiset(Where(rows, key, a)) + multiset(Where(rows, key, b)) + multiset(Where(rows, key, c));
    forall x
      ensures sum[x] == multiset(rows)[x]
    {
      FieldIsExclusive(x, key, a, b);
      FieldIsExclusive(x, key, a, c);
      FieldIsExclusive(x, key, b, c);
      if x in rows {
        var i :| 0 <= i < |rows| && rows[i] == x;
      }
    }
  }

  /** A row of the timeline query's union: its `source` is one of the three branch tags. */
  predicate TaggedRow(row: Json) {
    FieldIs(row, "source", "activity") || FieldIs(row, "source", "deal") || FieldIs(row, "source", "email")
  }

  /** When every row carries one of the three tags, the source buckets partition the rows. */
  lemma TimelinePartition(rows: seq<Json>)
    requires forall i :: 0 <= i < |rows| ==> TaggedRow(rows[i])
    ensures var t := BuildTimeline(rows);
      multiset(t.activities) + multiset(t.deals) + multiset(t.emails) == multiset(rows)
  {
    WherePartition(rows, "source", "activity", "deal", "email");
  }

  /**
   * A row as the union query produces it: the e-mail branch writes the type
   * `email` and the deal branch the type `deal_stage_change`.
   */
  predicate QueryShaped(row: Json) {
    FieldIs(row, "source", "activity")
    || (FieldIs(row, "source", "email") && FieldIs(row, "type", "email"))
    || (FieldIs(row, "source", "deal") && FieldIs(row, "type", "deal_stage_change"))
  }

  /** A filter whose condition implies another's keeps a sub-list of it. */
  lemma {:induction false} WhereImplies(rows: seq<Json>, k1: string, v1: string, k2: string, v2: string)
    requires forall i :: 0 <= i < |rows| ==> FieldIs(rows[i], k1, v1) ==> FieldIs(rows[i], k2, v2)
    ensures multiset(Where(rows, k1, v1)) <= multiset(Where(rows, k2, v2))
    decreases |rows|
  {
    if rows != [] {
      var init := rows[..|rows| - 1];
      WhereImplies(init, k1, v1, k2, v2);
    }
  }

  /** On rows of that shape, calls and notes are sub-lists of the activities. */
  lemma CallsAndNotesAreActivities(rows: seq<Json>)
    requires forall i :: 0 <= i < |rows| ==> QueryShaped(rows[i])
    ensures multiset(BuildTimeline(rows).calls) <= multiset(BuildTimeline(rows).activities)
    ensures multiset(BuildTimeline(rows).notes) <= multiset(BuildTimeline(rows).activities)
  {
    forall i | 0 <= i < |rows|
      ensures FieldIs(rows[i], "type", "call") ==> FieldIs(rows[i], "source", "activity")
      ensures FieldIs(rows[i], "type", "note") ==> FieldIs(rows[i], "source", "activity")
    {
      assert QueryShaped(rows[i]);
    }
    WhereImplies(rows, "type", "call", "source", "activity");
    WhereImplies(rows, "type", "note", "source", "activity");
  }

  /** Calls may also be activities: the type buckets overlap the source buckets. */
  lemma CallIsAlsoActivity(row: Json)
    requires FieldIs(row, "source", "activity") && FieldIs(row, "type", "call")
    ensures BuildTimeline([row]).activities == [row] && BuildTimeline([row]).calls == [row]
  {
    assert [row][..0] == [];
  }

  // -------------------------------------------------------------- engagement

  datatype Level = Low | Medium | High

  /** The level's rank, for comparisons. */
  function Rank(l: Level): nat {
    match l case Low => 0 case Medium => 1 case High => 2
  }

  /** The thresholds of `calculateEngagementLevel` on the total number of engagements. */
  function LevelOf(total: int): (l: Level)
    ensures l == High <==> total > 20
    ensures l == Medium <==> 10 < total <= 20
    ensures l == Low <==> total <= 10
  {
    if total > 20 then High else if total > 10 then Medium else Low
  }

  /** More engagements never lower the level. */
  lemma LevelMonotone(t1: int, t2: int)
    requires t1 <= t2
    ensures Rank(LevelOf(t1)) <= Rank(LevelOf(t2))
  {
  }

  /** A count column read as a number, a missing or unreadable one as 0. */
  function CountValue(v: Json): int {
    match ToNumber(v) case Some(n) => n case None => 0
  }

  /** The number of e-mails, calls and meetings in the engagement metrics row. */
  function EngagementTotal(metrics: Json): int {
    CountValue(GetField(metrics, "email_count")) + CountValue(GetField(metrics, "call_count"))
      + CountValue(GetField(metrics, "meeting_count"))
  }

  /** A count column that is missing, or holds the number `n`. */
  predicate NumericOrMissing(v: Json, n: nat) {
    (v.Undefined? && n == 0) || v == Num(n)
  }

  /** A count column that is missing, or holds `n` as a number or as its decimal string (as a driver delivers a `bigint`). */
  predicate CountReads(v: Json, n: nat) {
    NumericOrMissing(v, n) || v == Str(IntToString(n))
  }

  /** Whatever form a count column takes, it is read as the count it stands for. */
  lemma CountValueReads(v: Json, n: nat)
    requires CountReads(v, n)
    ensures CountValue(v) == n
  {
    if v.Str? {
      StringToNumberOfIntToString(n);
    }
  }

  /**
   * The engagement level as intended: the three counts added as numbers,
   * a missing count as 0, whether the counts arrive as numbers or as strings.
   */
  function EngagementLevel(metrics: Json): (l: Level)
    ensures forall e: nat, c: nat, m: nat ::
              (CountReads(GetField(metrics, "email_count"), e) && CountReads(GetField(metrics, "call_count"), c)
               && CountReads(GetField(metrics, "meeting_count"), m))
              ==> l == LevelOf(e + c + m)
  {
    forall e: nat, c: nat, m: nat | CountReads(GetField(metrics, "email_count"), e) && CountReads(GetField(metrics, "call_count"), c)
      && CountReads(GetField(metrics, "meeting_count"), m)
      ensures EngagementTotal(metrics) == e + c + m
    {
      CountValueReads(GetField(metrics, "email_count"), e);
      CountValueReads(GetField(metrics, "call_count"), c);
      CountValueReads(GetField(metrics, "meeting_count"), m);
    }
    LevelOf(EngagementTotal(metrics))
  }

  /**
   * A JavaScript primitive as an operand or result of `+`: a number (`None`
   * for NaN), a string, or one of `undefined`, `null`, `true`, `false`.
   */
  datatype Primitive = Number(value: Option<int>) | Text(text: string) | Other(v: Json)

  /** `ToPrimitive` then the operand of `+`: strings and objects become text. */
  function ToPrimitive(v: Json): (p: Primitive)
    ensures p.Other? ==> v.Undefined? || v.Null? || v.Bool?
  {
    if v.Str? || IsObject(v) then Text(ToStr(v)) else if v.Num? then Number(Some(v.n)) else Other(v)
  }

  /** The operand as `String()` prints it. */
  function PrimitiveText(p: Primitive): string {
    match p
    case Text(s) => s
    case Number(None) => "NaN"
    case Number(Some(n)) => IntToString(n)
    case Other(v) => ToStr(v)
  }

  /** The operand as `Number()` reads it. */
  function PrimitiveNumber(p: Primitive): Option<int> {
    match p
    case Text(s) => StringToNumber(s)
    case Number(v) => v
    case Other(v) => ToNumber(v)
  }

  /** JavaScript's binary `+`: concatenation as soon as one side is a string. */
  function Plus(a: Primitive, b: Primitive): (r: Primitive)
    ensures a.Text? || b.Text? ==> r == Text(PrimitiveText(a) + PrimitiveText(b))
    ensures a.Number? && b.Number? && a.value.Some? && b.value.Some? ==> r == Number(Some(a.value.value + b.value.value))
    ensures a.Other? && a.v.Bool? && b.Text? ==> r == Text((if a.v.b then "true" else "false") + b.text)
  {
    if a.Text? || b.Text? then Text(PrimitiveText(a) + PrimitiveText(b))
    else
      var x, y := PrimitiveNumber(a), PrimitiveNumber(b);
      if x.Some? && y.Some? then Number(Some(x.value + y.value)) else Number(None)
  }

  /** JavaScript's `p > n` for a number `n`: the text side is read as a number, NaN compares false. */
  predicate GreaterThan(p: Primitive, n: int) {
    var x := PrimitiveNumber(p);
    x.Some? && x.value > n
  }

  /** `(v || 0)`. */
  function OrZero(v: Json): Json {
    if Truthy(v) then v else Num(0)
  }

  /**
   * `calculateEngagementLevel` as written: the three columns are combined
   * with `+` after `|| 0`, then compared with 20 and 10.
   */
  function EngagementLevelAsWritten(metrics: Json): (l: Level)
    requires metrics.Obj?
    ensures (!Truthy(GetField(metrics, "email_count")) && !Truthy(GetField(metrics, "call_count"))
             && !Truthy(GetField(metrics, "meeting_count"))) ==> l == Low
  {
    var e := ToPrimitive(OrZero(GetField(metrics, "email_count")));
    var c := ToPrimitive(OrZero(GetField(metrics, "call_count")));
    var m := ToPrimitive(OrZero(GetField(metrics, "meeting_count")));
    var total := Plus(Plus(e, c), m);
    if GreaterThan(total, 20) then High else if GreaterThan(total, 10) then Medium else Low
  }

  /** A count delivered as a number, or missing, is the numeric operand `n` of `+` after `|| 0`. */
  lemma NumericCountOperand(v: Json, n: nat)
    requires NumericOrMissing(v, n)
    ensures ToPrimitive(OrZero(v)) == Number(Some(n))
  {
  }

  /**
   * The `|| 0` of `calculateEngagementLevel`: with every count missing or a
   * number, in any combination, a missing count adds 0 and the code as written
   * computes the intended level.
   */
  lemma MissingCountsAreZero(metrics: Json, e: nat, c: nat, m: nat)
    requires metrics.Obj?
    requires NumericOrMissing(GetField(metrics, "email_count"), e) && NumericOrMissing(GetField(metrics, "call_count"), c)
    requires NumericOrMissing(GetField(metrics, "meeting_count"), m)
    ensures EngagementLevelAsWritten(metrics) == EngagementLevel(metrics) == LevelOf(e + c + m)
  {
    NumericCountOperand(GetField(metrics, "email_count"), e);
    NumericCountOperand(GetField(metrics, "call_count"), c);
    NumericCountOperand(GetField(metrics, "meeting_count"), m);
    assert Plus(Plus(Number(Some(e)), Number(Some(c))), Number(Some(m))) == Number(Some(e + c + m));
  }

  /** When the driver delivers the counts as numbers, the code computes the intended level. */
  lemma AsWrittenAgreesOnNumbers(e: nat, c: nat, m: nat)
    ensures var metrics := Obj(map["email_count" := Num(e), "call_count" := Num(c), "meeting_count" := Num(m)]);
      EngagementLevelAsWritten(metrics) == EngagementLevel(metrics) == LevelOf(e + c + m)
  {
    var metrics := Obj(map["email_count" := Num(e), "call_count" := Num(c), "meeting_count" := Num(m)]);
    assert GetField(metrics, "email_count") == Num(e);
    assert GetField(metrics, "call_count") == Num(c);
    assert GetField(metrics, "meeting_count") == Num(m);
    MissingCountsAreZero(metrics, e, c, m);
  }

  /**
   * PostgreSQL's `COUNT` is a `bigint`, which node-postgres delivers as a
   * decimal string; one e-mail and nothing else then adds up to the text
   * "100", which reads as 100 engagements and the level `high`.
   */
  lemma CountsAsStringsConcatenate()
    ensures var metrics := Obj(map["email_count" := Str("1"), "call_count" := Str("0"), "meeting_count" := Str("0")]);
      EngagementLevelAsWritten(metrics) == High && EngagementLevel(metrics) == Low
  {
    var metrics := Obj(map["email_count" := Str("1"), "call_count" := Str("0"), "meeting_count" := Str("0")]);
    assert IntToString(1) == "1" by { assert DigitChar(1) == '1'; }
    assert IntToString(0) == "0" by { assert DigitChar(0) == '0'; }
    assert IntToString(100) == "100" by {
      assert DigitChar(0) == '0' && DigitChar(1) == '1';
      assert NatToString(10) == NatToString(1) + [DigitChar(0)];
      assert NatToString(100) == NatToString(10) + [DigitChar(0)];
    }
    assert GetField(metrics, "email_count") == Str("1");
    assert GetField(metrics, "call_count") == Str("0");
    assert GetField(metrics, "meeting_count") == Str("0");
    assert ToPrimitive(OrZero(Str("1"))) == Text("1");
    assert ToPrimitive(OrZero(Str("0"))) == Text("0");
    assert Plus(Plus(Text("1"), Text("0")), Text("0")) == Text("100");
    assert StringToNumber("100") == Some(100) by {
      StringToNumberOfIntToString(100);
    }
    assert GreaterThan(Text("100"), 20);
    assert CountValue(Str("1")) == 1 by {
      StringToNumberOfIntToString(1);
    }
    assert CountValue(Str("0")) == 0 by {
      StringToNumberOfIntToString(0);
    }
  }

  // ------------------------------------------------------- activity recency

  /** `calculateChurnRisk`; `days` is `None` when there is no last activity date. */
  function ChurnRisk(days: Option<int>): (r: nat)
    ensures r in {20, 50, 70, 80, 90}
    ensures r == 80 <==> days.None?
    ensures days.Some? ==> (r == 90 <==> days.value > 90)
    ensures days.Some? ==> (r == 70 <==> 60 < days.value <= 90)
    ensures days.Some? ==> (r == 50 <==> 30 < days.value <= 60)
    ensures days.Some? ==> (r == 20 <==> days.value <= 30)
  {
    match days
    case None => 80
    case Some(d) => if d > 90 then 90 else if d > 60 then 70 else if d > 30 then 50 else 20
  }

  /** A longer silence never lowers the risk. */
  lemma ChurnRiskMonotone(d1: int, d2: int)
    requires d1 <= d2
    ensures ChurnRisk(Some(d1)) <= ChurnRisk(Some(d2))
  {
  }

  datatype NextStep = InitialOutreach | ReEngagementEmail | FollowUpCall | DealProgression | NurtureCampaign

  /** The label the service returns. */
  function StepLabel(s: NextStep): string {
    match s
    case InitialOutreach => "Initial Outreach"
    case ReEngagementEmail => "Re-engagement Email"
    case FollowUpCall => "Follow-up Call"
    case DealProgression => "Deal Progression"
    case NurtureCampaign => "Nurture Campaign"
  }

  /** `predictNextAction`: the first rule that applies wins. */
  function NextAction(days: Option<int>, openDeals: int): (s: NextStep)
    ensures s == InitialOutreach <==> days.None?
    ensures s == ReEngagementEmail <==> days.Some? && days.value > 30
    ensures s == FollowUpCall <==> days.Some? && 14 < days.value <= 30
    ensures s == DealProgression <==> days.Some? && days.value <= 14 && openDeals > 0
    ensures s == NurtureCampaign <==> days.Some? && days.value <= 14 && openDeals <= 0
  {
    match days
    case None => InitialOutreach
    case Some(d) =>
      if d > 30 then ReEngagementEmail
      else if d > 14 then FollowUpCall
      else if openDeals > 0 then DealProgression
      else NurtureCampaign
  }

  /** The two heuristics agree: a re-engagement e-mail is proposed exactly when the churn risk is 50 or more. */
  lemma NextActionFollowsChurn(days: Option<int>, openDeals: int)
    ensures NextAction(days, openDeals) == ReEngagementEmail <==> days.Some? && ChurnRisk(days) >= 50
    ensures NextAction(days, openDeals) == InitialOutreach <==> ChurnRisk(days) == 80
    ensures NextAction(days, openDeals) in {FollowUpCall, DealProgression, NurtureCampaign} ==> ChurnRisk(days) == 20
  {
  }

  /** The contact 360 view as far as the insights use it. */
  datatype Contact360 = Contact360(metrics: Json, daysSinceLastActivity: Option<int>, deals: seq<Json>)

  function EngagementBonus(l: Level): nat {
    match l case High => 30 case Medium => 15 case Low => 0
  }

  /** The health score before `Math.max(0, Math.min(100, …))`, from the level, the deal counts and the days since the last activity. */
  function RawHealthScore(level: Level, openDeals: nat, wonDeals: nat, days: Option<int>): int {
    50 + EngagementBonus(level)
      + (if openDeals > 0 then 20 else 0)
      + (if wonDeals > 0 then 10 else 0)
      - ChurnRisk(days) / 5
  }

  function Clamp(lo: int, hi: int, x: int): int
    requires lo <= hi
  {
    if x < lo then lo else if x > hi then hi else x
  }

  /** The raw score lies in [32, 106]: the lower clamp never binds, the upper one can. */
  lemma RawHealthScoreRange(level: Level, openDeals: nat, wonDeals: nat, days: Option<int>)
    ensures 32 <= RawHealthScore(level, openDeals, wonDeals, days) <= 106
  {
  }

  /** `calculateHealthScore`, which updates a running score step by step. */
  method CalculateHealthScore(c: Contact360) returns (score: int)
    ensures score == Clamp(0, 100, RawHealthScore(EngagementLevel(c.metrics), StatusCount(c.deals, "open"),
                                                  StatusCount(c.deals, "won"), c.daysSinceLastActivity))
    ensures 32 <= score <= 100
  {
    score := 50;
    var level := EngagementLevel(c.metrics);
    if level == High {
      score := score + 30;
    } else if level == Medium {
      score := score + 15;
    }
    if StatusCount(c.deals, "open") > 0 {
      score := score + 20;
    }
    if StatusCount(c.deals, "won") > 0 {
      score := score + 10;
    }
    var churn := ChurnRisk(c.daysSinceLastActivity);
    score := score - churn / 5;
    assert score == RawHealthScore(level, StatusCount(c.deals, "open"), StatusCount(c.deals, "won"), c.daysSinceLastActivity);
    if score > 100 {
      score := 100;
    }
    if score < 0 {
      score := 0;
    }
  }

  /**
   * The source's score is computed with the level as written: for counts
   * "1", "0", "0", no deals and activity today it is 50 + 30 - 4 = 76, where the
   * intended level gives 50 - 4 = 46.
   */
  lemma HealthScoreWithStringCounts()
    ensures var metrics := Obj(map["email_count" := Str("1"), "call_count" := Str("0"), "meeting_count" := Str("0")]);
      && Clamp(0, 100, RawHealthScore(EngagementLevelAsWritten(metrics), 0, 0, Some(0))) == 76
      && Clamp(0, 100, RawHealthScore(EngagementLevel(metrics), 0, 0, Some(0))) == 46
  {
    var metrics := Obj(map["email_count" := Str("1"), "call_count" := Str("0"), "meeting_count" := Str("0")]);
    CountsAsStringsConcatenate();
    assert EngagementLevelAsWritten(metrics) == High && EngagementLevel(metrics) == Low;
    assert ChurnRisk(Some(0)) == 20;
    assert RawHealthScore(High, 0, 0, Some(0)) == 76 && RawHealthScore(Low, 0, 0, Some(0)) == 46;
  }

  /** With counts that are numbers or missing, the level as written gives the same health score as the intended one. */
  lemma HealthScoreAsWrittenAgrees(metrics: Json, e: nat, c: nat, m: nat, openDeals: nat, wonDeals: nat, days: Option<int>)
    requires metrics.Obj?
    requires NumericOrMissing(GetField(metrics, "email_count"), e) && NumericOrMissing(GetField(metrics, "call_count"), c)
    requires NumericOrMissing(GetField(metrics, "meeting_count"), m)
    ensures RawHealthScore(EngagementLevelAsWritten(metrics), openDeals, wonDeals, days)
         == RawHealthScore(EngagementLevel(metrics), openDeals, wonDeals, days)
  {
    MissingCountsAreZero(metrics, e, c, m);
  }

  /** Holding everything else fixed, a higher engagement level never lowers the health score. */
  lemma HealthScoreMonotoneInEngagement(l1: Level, l2: Level, openDeals: nat, wonDeals: nat, days: Option<int>)
    requires Rank(l1) <= Rank(l2)
    ensures Clamp(0, 100, RawHealthScore(l1, openDeals, wonDeals, days)) <= Clamp(0, 100, RawHealthScore(l2, openDeals, wonDeals, days))
  {
  }

  /** The best case reaches the cap: high engagement, open and won deals, activity within 30 days. */
  lemma HealthScoreCapBinds(openDeals: nat, wonDeals: nat, days: int)
    requires openDeals > 0 && wonDeals > 0 && days <= 30
    ensures RawHealthScore(High, openDeals, wonDeals, Some(days)) == 106
    ensures Clamp(0, 100, RawHealthScore(High, openDeals, wonDeals, Some(days))) == 100
  {
  }

  // ---------------------------------------------------------- update builder

  /** A bound parameter: the value itself, or its `JSON.stringify` text (left abstract). */
  datatype Param = Value(v: Json) | JsonText(of: Json)

  /** What `updateContact` sends: the SET clauses, the parameters, and the placeholders of the WHERE clause. */
  datatype UpdateQuery = UpdateQuery(setClauses: seq<string>, values: seq<Param>, idPlaceholder: nat, orgPlaceholder: nat)

  const NoFieldsMessage := "No fields to update"

  /** An entry that becomes a SET clause: defined, and neither `id` nor `organization_id`. */
  predicate Assignable(entry: (string, Json)) {
    !entry.1.Undefined? && entry.0 != "id" && entry.0 != "organization_id"
  }

  /** `typeof value === 'object' && !Array.isArray(value)`, which includes `null`. */
  predicate CastsToJsonb(v: Json) {
    v.Obj? || v.Null?
  }

  /** The entries that become SET clauses, in order. */
  function Assigned(updates: seq<(string, Json)>): (r: seq<(string, Json)>)
    ensures |r| <= |updates|
    ensures forall i :: 0 <= i < |r| ==> Assignable(r[i])
    decreases |updates|
  {
    if updates == [] then []
    else Assigned(updates[..|updates| - 1]) + (if Assignable(updates[|updates| - 1]) then [updates[|updates| - 1]] else [])
  }

  /** The SET clauses are exactly the assignable entries. */
  lemma {:induction false} AssignedMembers(updates: seq<(string, Json)>)
    ensures forall e :: e in Assigned(updates) <==> e in updates && Assignable(e)
    decreases |updates|
  {
    if updates != [] {
      var init := updates[..|updates| - 1];
      AssignedMembers(init);
      assert updates == init + [updates[|updates| - 1]];
    }
  }

  /** `key = $n`, with `::jsonb` for an object or `null` value. */
  function SetClause(key: string, n: nat, value: Json): string {
    key + " = $" + NatToString(n) + (if CastsToJsonb(value) then "::jsonb" else "")
  }

  function Parameter(value: Json): Param {
    if CastsToJsonb(value) then JsonText(value) else Value(value)
  }

  /** `null` is bound as JSON text with a `::jsonb` cast, like an object. */
  lemma NullIsCastToJsonb(key: string, n: nat)
    ensures SetClause(key, n, Null) == key + " = $" + NatToString(n) + "::jsonb"
    ensures Parameter(Null) == JsonText(Null)
  {
  }

  /** The SET-clause builder of `updateContact`, over the entries of `updates` in order. */
  method BuildUpdate(updates: seq<(string, Json)>, contactId: string, organizationId: string)
    returns (r: Result<UpdateQuery, string>)
    ensures r.Failure? <==> Assigned(updates) == []
    ensures r.Failure? ==> r.error == NoFieldsMessage
    ensures r.Success? ==>
      var fields := Assigned(updates);
      var k := |fields|;
      |r.value.setClauses| == k && |r.value.values| == k + 2
      && (forall i :: 0 <= i < k ==> r.value.setClauses[i] == SetClause(fields[i].0, i + 1, fields[i].1))
      && (forall i :: 0 <= i < k ==> r.value.values[i] == Parameter(fields[i].1))
      && r.value.values[k] == Value(Str(contactId)) && r.value.values[k + 1] == Value(Str(organizationId))
      && r.value.idPlaceholder == k + 1 && r.value.orgPlaceholder == k + 2
  {
    var setClauses: seq<string> := [];
    var values: seq<Param> := [];
    var paramCount := 0;
    for i := 0 to |updates|
      invariant paramCount == |Assigned(updates[..i])| == |setClauses| == |values|
      invariant forall j :: 0 <= j < paramCount ==>
        setClauses[j] == SetClause(Assigned(updates[..i])[j].0, j + 1, Assigned(updates[..i])[j].1)
      invariant forall j :: 0 <= j < paramCount ==> values[j] == Parameter(Assigned(updates[..i])[j].1)
    {
      assert updates[..i + 1][..i] == updates[..i];
      var (key, value) := updates[i];
      if !value.Undefined? && key != "id" && key != "organization_id" {
        paramCount := paramCount + 1;
        if CastsToJsonb(value) {
          setClauses := setClauses + [key + " = $" + NatToString(paramCount) + "::jsonb"];
          values := values + [JsonText(value)];
        } else {
          setClauses := setClauses + [key + " = $" + NatToString(paramCount)];
          values := values + [Value(value)];
        }
      }
    }
    assert updates[..|updates|] == updates;
    if |setClauses| == 0 {
      return Failure(NoFieldsMessage);
    }
    paramCount := paramCount + 1;
    values := values + [Value(Str(contactId))];
    paramCount := paramCount + 1;
    values := values + [Value(Str(organizationId))];
    r := Success(UpdateQuery(setClauses, values, paramCount - 1, paramCount));
  }

  /** An update that only names the identifying columns is refused. */
  lemma IdentifiersAloneAreRefused(id: Json, org: Json)
    ensures Assigned([("id", id), ("organization_id", org)]) == []
  {
    assert [("id", id), ("organization_id", org)][..1] == [("id", id)];
    assert [("id", id)][..0] == [];
  }
}
