/** The formatting and validation helpers: SQL placeholders, the achiever
    rate and its colour class, the standard-score value and the ordered
    validation of a submitted score. */
module Utils {
  import opened Base
  import opened Builtins

  // ----- create_placeholder -----

  /** `create_placeholder(key)`: one `?` per element of `key`, joined by commas. */
  function CreatePlaceholder<T>(key: seq<T>): string
  {
    Join(seq(|key|, _ => "?"), ",")
  }

  /** The placeholder text is `?,?,...,?` with exactly `|key|` marks: `""` for
      no keys, and it depends on nothing but `|key|`. */
  lemma PlaceholderShape<T>(key: seq<T>)
    ensures var r := CreatePlaceholder(key);
      && |r| == (if |key| == 0 then 0 else 2 * |key| - 1)
      && (forall i :: 0 <= i < |r| ==> r[i] == if i % 2 == 0 then '?' else ',')
      && CountChar(r, '?') == |key|
  {
    QuestionMarks(|key|);
  }

  lemma {:induction false} QuestionMarks(n: nat)
    ensures var r := Join(seq(n, _ => "?"), ",");
      && |r| == (if n == 0 then 0 else 2 * n - 1)
      && (forall i :: 0 <= i < |r| ==> r[i] == if i % 2 == 0 then '?' else ',')
      && CountChar(r, '?') == n
  {
    var marks := seq(n, _ => "?");
    if n >= 2 {
      QuestionMarks(n - 1);
      assert marks[1..] == seq(n - 1, _ => "?");
      var rest := Join(marks[1..], ",");
      var r := Join(marks, ",");
      assert r == "?," + rest;
      CountCharConcat("?,", rest, '?');
      forall i | 2 <= i < |r| ensures r[i] == if i % 2 == 0 then '?' else ',' {
        assert r[i] == rest[i - 2];
      }
    }
  }

  /** The placeholder text has one `?` per key. */
  lemma PlaceholderMarks<T>(key: seq<T>)
    ensures CountChar(CreatePlaceholder(key), '?') == |key|
  {
    QuestionMarks(|key|);
  }

  /** Placeholders for two lists of one length are the same text. */
  lemma PlaceholderDependsOnLength<A, B>(a: seq<A>, b: seq<B>)
    requires |a| == |b|
    ensures CreatePlaceholder(a) == CreatePlaceholder(b)
  {
  }

  // ----- calculate_achiever_rate -----

  const RateZero := "achiever_rate_zero"
  const RateVeryRare := "achiever_rate_very_rare"
  const RateRare := "achiever_rate_rare"
  const RateCommon := "achiever_rate_common"

  /** An achiever rate, the float `round(achiever / total * 100, 3)` in
      thousandths of a percent, and its CSS class. */
  datatype AchieverRate = AchieverRate(percent: Rounded, cssClass: string)

  /** The colour class of a rounded rate: zero, up to 0.10 %, up to 1.00 %, above. */
  function RateClass(milli: int): string
  {
    if milli == 0 then RateZero
    else if milli <= 100 then RateVeryRare
    else if milli <= 1000 then RateRare
    else RateCommon
  }

  /** `calculate_achiever_rate(achiever_count, total_count)`. */
  function CalculateAchieverRate(achiever: int, total: int): (r: AchieverRate)
    ensures total == 0 ==> r == AchieverRate(Rounded(0, false), RateZero)
    ensures total > 0 ==> -total <= 2 * (achiever * 100000 - r.percent.milli * total) < total
    ensures total != 0 ==> (r.percent.negative <==> achiever < 0 < total || total < 0 < achiever)
    ensures r.cssClass == RateClass(r.percent.milli)
  {
    var percent := if total == 0 then Rounded(0, false) else Round3(achiever * 100000, total);
    AchieverRate(percent, RateClass(percent.milli))
  }

  /** The four buckets, each with its inclusive upper bound. */
  lemma RateClassBuckets(milli: int)
    ensures RateClass(milli) == RateZero <==> milli == 0
    ensures RateClass(milli) == RateVeryRare <==> milli != 0 && milli <= 100
    ensures RateClass(milli) == RateRare <==> 100 < milli <= 1000
    ensures RateClass(milli) == RateCommon <==> milli > 1000
  {
  }

  /** A count within the total gives a rate within 0..100 %. */
  lemma RateWithinPercent(achiever: int, total: int)
    requires total > 0 && 0 <= achiever <= total
    ensures 0 <= CalculateAchieverRate(achiever, total).percent.milli <= 100000
  {
    var q := CalculateAchieverRate(achiever, total).percent.milli;
    assert -total <= 2 * (achiever * 100000 - q * total) < total;
    MulMonotone(100000, achiever, total);
    if q > 100000 {
      MulMonotone(total, 100001, q);
      assert false;
    }
    if q < 0 {
      MulMonotone(total, q, -1);
      assert false;
    }
  }

  /** The order of the buckets, from `zero` to `common`. */
  function BucketRank(cssClass: string): nat
  {
    if cssClass == RateZero then 0
    else if cssClass == RateVeryRare then 1
    else if cssClass == RateRare then 2
    else 3
  }

  /** For one total, more achievers never give a smaller rate or a lower bucket. */
  lemma RateMonotone(a1: int, a2: int, total: int)
    requires total > 0 && 0 <= a1 <= a2
    ensures CalculateAchieverRate(a1, total).percent.milli <= CalculateAchieverRate(a2, total).percent.milli
    ensures BucketRank(CalculateAchieverRate(a1, total).cssClass)
         <= BucketRank(CalculateAchieverRate(a2, total).cssClass)
  {
    MulMonotone(200000, a1, a2);
    DivMonotone(2 * (a1 * 100000) + total, 2 * (a2 * 100000) + total, 2 * total);
    DivMonotone(0, 2 * (a1 * 100000) + total, 2 * total);
  }

  /** One achiever in a thousand is 0.100 %, the top of `very_rare`. */
  lemma OneInAThousand()
    ensures CalculateAchieverRate(1, 1000) == AchieverRate(Rounded(100, false), RateVeryRare)
    ensures FloatText(Rounded(100, false)) == "0.1"
  {
  }

  // ----- calculate_deviation -----

  /** `calculate_deviation(score, avg_score, sd_score)`:
      `(score - avg) / sd * 10 + 50`, rounded to three decimals. */
  function CalculateDeviation(score: Value, avg: Value, sd: Value): (r: Result<Rounded>)
    ensures r.Ok? <==> Int(score).Ok? && Int(avg).Ok? && Int(sd).Ok? && Int(sd).value != 0
    ensures r.Ok? && Int(sd).value > 0 ==>
      var gap := (Int(score).value - Int(avg).value) * 10000 + 50000 * Int(sd).value;
      && -Int(sd).value <= 2 * (gap - r.value.milli * Int(sd).value) < Int(sd).value
      && (r.value.negative <==> gap < 0)
  {
    match (Int(score), Int(avg), Int(sd))
    case (Ok(s), Ok(a), Ok(d)) =>
      if d == 0 then Err(ZeroDivisionError)
      else Ok(Round3((s - a) * 10000 + 50000 * d, d))
    case (Err(e), _, _) => Err(e)
    case (_, Err(e), _) => Err(e)
    case (_, _, Err(e)) => Err(e)
  }

  /** 6,000,000 against a mean of 5,000,000 and a deviation of 500,000 is 70.0. */
  lemma DeviationExample()
    ensures CalculateDeviation(Text("6000000"), Integer(5000000), Integer(500000)) == Ok(Rounded(70000, false))
    ensures FloatText(Rounded(70000, false)) == "70.0"
  {
    SixMillion();
    assert RoundDiv(1000000 * 10000 + 50000 * 500000, 500000) == 70000;
    Seventy();
  }

  lemma SixMillion()
    ensures ParseInt("6000000") == Some(6000000)
  {
    ParseIntToString(6000000);
    assert IntToString(6000000) == "6000000";
  }

  lemma Seventy()
    ensures FloatText(Rounded(70000, false)) == "70.0"
  {
    assert NatToString(70) == "70";
  }

  // ----- score validation -----

  const NotNumericMessage := "<h3>スコアは数値で入力してください。</h3>\n"
  const OutOfRangeMessage := "<h3>スコアは0～10,000,000の範囲で入力してください。</h3>\n"
  const NoDataMessage := "<h3>スコアデータがないため計算できません。</h3>\n"

  /** A validation outcome: whether the input passed, and the message shown if not. */
  datatype Verdict = Verdict(valid: bool, message: string)

  /** A score the calculator takes: an integer from 0 to 10,000,000. */
  predicate ScoreAccepted(score: string)
  {
    ParseInt(score).Some? && 0 <= ParseInt(score).value <= 10000000
  }

  /** `_validate_ss_score(ss_score)`. */
  function ValidateSsScore(score: string): (v: Verdict)
    ensures v.valid <==> ScoreAccepted(score)
    ensures v.valid ==> v.message == ""
    ensures ParseInt(score).None? ==> v == Verdict(false, NotNumericMessage)
    ensures ParseInt(score).Some? && !ScoreAccepted(score) ==> v == Verdict(false, OutOfRangeMessage)
  {
    match ParseInt(score)
    case None => Verdict(false, NotNumericMessage)
    case Some(n) =>
      if n < 0 || n > 10000000 then Verdict(false, OutOfRangeMessage)
      else Verdict(true, "")
  }

  /** `_validate_sd_score(sd_score)`; `int()` of the stored value may raise. */
  function ValidateSdScore(sd: Value): (r: Result<Verdict>)
    ensures r.Err? <==> Int(sd).Err?
    ensures r.Ok? ==> (r.value.valid <==> Int(sd).value != 0)
    ensures r.Ok? && !r.value.valid ==> r.value.message == NoDataMessage
    ensures r.Ok? && r.value.valid ==> r.value.message == ""
  {
    match Int(sd)
    case Err(e) => Err(e)
    case Ok(n) => if n == 0 then Ok(Verdict(false, NoDataMessage)) else Ok(Verdict(true, ""))
  }

  /** `validate_score(ss_score, sd_score)`: the score first, then the deviation. */
  function ValidateScore(score: string, sd: Value): Result<Verdict>
  {
    var v := ValidateSsScore(score);
    if !v.valid then Ok(Verdict(false, v.message))
    else ValidateSdScore(sd)
  }

  /** A rejected score decides the verdict whatever the stored deviation is,
      even one `int()` cannot read. */
  lemma ScoreCheckedFirst(score: string, sd: Value)
    requires !ScoreAccepted(score)
    ensures ValidateScore(score, sd) == Ok(ValidateSsScore(score))
    ensures ValidateScore(score, sd).value.message in {NotNumericMessage, OutOfRangeMessage}
  {
  }

  /** The verdict passes exactly when the score is accepted and the stored
      deviation reads as a non-zero integer; a zero deviation means no data. */
  lemma ValidateScoreAccepts(score: string, sd: Value)
    ensures ValidateScore(score, sd) == Ok(Verdict(true, ""))
        <==> ScoreAccepted(score) && Int(sd).Ok? && Int(sd).value != 0
    ensures ScoreAccepted(score) && Int(sd) == Ok(0) ==>
      ValidateScore(score, sd) == Ok(Verdict(false, NoDataMessage))
  {
  }

  /** The three boundary examples: no data, out of range, not a number. */
  lemma ValidationExamples()
    ensures ValidateScore("0", Integer(0)) == Ok(Verdict(false, NoDataMessage))
    ensures ValidateScore("-1", Integer(0)) == Ok(Verdict(false, OutOfRangeMessage))
    ensures ValidateScore("abc", Integer(0)) == Ok(Verdict(false, NotNumericMessage))
  {
  }
}
