/** Per-iteration pass rates of a benchmark report: buckets, mean and sample variance. */
module Aggregates {
  import opened Options
  import opened Decimals

  datatype Score = Score(scorer: string, pass: bool)

  datatype Result = Result(caseId: string, abstention: bool, scores: seq<Score>)

  datatype Bucket = Bucket(total: nat, passed: nat)

  datatype Summary = Summary(passRates: seq<real>, mean: real, variance: real, abstentionRate: Option<real>)

  // ---------------------------------------------------------------- the iteration of a case id

  const SUFFIX := "-iter-"

  predicate AllDigits(s: string) {
    forall i | 0 <= i < |s| :: IsDigit(s[i])
  }

  /** Where the trailing digits start. */
  function DigitsFrom(s: string): (k: nat)
    ensures k <= |s| && AllDigits(s[k..]) && (k > 0 ==> !IsDigit(s[k - 1]))
  {
    if s != "" && IsDigit(s[|s| - 1]) then
      assert s[..|s| - 1][DigitsFrom(s[..|s| - 1])..] + [s[|s| - 1]] == s[DigitsFrom(s[..|s| - 1])..];
      DigitsFrom(s[..|s| - 1])
    else |s|
  }

  /** The number in a final `-iter-<digits>`, else zero. */
  function Iteration(s: string): nat {
    var k := DigitsFrom(s);
    if k < |s| && |SUFFIX| <= k && s[k - |SUFFIX|..k] == SUFFIX then Value(s[k..]) else 0
  }

  lemma DigitsFromIs(p: string, d: string)
    requires AllDigits(d) && p != "" && !IsDigit(p[|p| - 1])
    ensures DigitsFrom(p + d) == |p|
  {
    var s := p + d;
    var k := DigitsFrom(s);
    assert s[|p| - 1] == p[|p| - 1];
    assert forall i | k <= i < |s| :: s[i] == s[k..][i - k] && IsDigit(s[i]);
    assert forall i | |p| <= i < |s| :: s[i] == d[i - |p|];
  }

  /** The suffix appended for a repeated case is read back as its iteration. */
  lemma IterationReads(base: string, n: nat)
    ensures Iteration(base + SUFFIX + Decimal(n)) == n
  {
    var p := base + SUFFIX;
    DigitsFromIs(p, Decimal(n));
    var s := p + Decimal(n);
    assert s[|p| - |SUFFIX|..|p|] == SUFFIX && s[|p|..] == Decimal(n);
    DecimalReads(n);
  }

  ghost predicate Suffixed(s: string, base: string, d: string) {
    s == base + SUFFIX + d && d != "" && AllDigits(d)
  }

  /** A positive iteration is read exactly from ids that end in the suffix and its digits. */
  lemma IterationExactly(s: string, n: nat)
    requires n > 0
    ensures Iteration(s) == n <==> exists base, d :: Suffixed(s, base, d) && Value(d) == n
  {
    if Iteration(s) == n {
      var k := DigitsFrom(s);
      var base, d := s[..k - |SUFFIX|], s[k..];
      assert s == base + s[k - |SUFFIX|..k] + d;
      assert Suffixed(s, base, d) && Value(d) == n;
    }
    if base, d :| Suffixed(s, base, d) && Value(d) == n {
      var p := base + SUFFIX;
      DigitsFromIs(p, d);
      assert s[|p| - |SUFFIX|..|p|] == SUFFIX && s[|p|..] == d;
    }
  }

  // ---------------------------------------------------------------- counting

  function CountIf(rs: seq<Result>, p: Result -> bool): nat {
    if rs == [] then 0 else CountIf(rs[..|rs| - 1], p) + if p(rs[|rs| - 1]) then 1 else 0
  }

  predicate PassedAll(r: Result) {
    forall i | 0 <= i < |r.scores| :: r.scores[i].pass
  }

  /** Whether the first abstention score passed. */
  predicate AbstainedFrom(scores: seq<Score>) {
    scores != [] && if scores[0].scorer == "abstention" then scores[0].pass else AbstainedFrom(scores[1..])
  }

  function In(it: nat): Result -> bool { (r: Result) => Iteration(r.caseId) == it }
  function PassedIn(it: nat): Result -> bool { (r: Result) => Iteration(r.caseId) == it && PassedAll(r) }
  function Passing(): Result -> bool { (r: Result) => PassedAll(r) }
  function Abstention(): Result -> bool { (r: Result) => r.abstention }
  function Abstained(): Result -> bool { (r: Result) => r.abstention && AbstainedFrom(r.scores) }

  function Total(rs: seq<Result>, it: nat): nat { CountIf(rs, In(it)) }
  function Passed(rs: seq<Result>, it: nat): nat { CountIf(rs, PassedIn(it)) }

  function Iterations(rs: seq<Result>): set<nat> {
    set r | r in rs :: Iteration(r.caseId)
  }

  lemma {:induction false} CountWithin(rs: seq<Result>, p: Result -> bool, q: Result -> bool)
    requires forall r :: p(r) ==> q(r)
    ensures CountIf(rs, p) <= CountIf(rs, q) <= |rs|
  {
    if rs != [] {
      CountWithin(rs[..|rs| - 1], p, q);
    }
  }

  lemma {:induction false} CountSome(rs: seq<Result>, p: Result -> bool, r: Result)
    requires r in rs && p(r)
    ensures CountIf(rs, p) > 0
  {
    var n := |rs| - 1;
    assert rs == rs[..n] + [rs[n]];
    if !p(rs[n]) {
      CountSome(rs[..n], p, r);
    }
  }

  // ---------------------------------------------------------------- ascending keys

  predicate IsLeast(ks: set<nat>, m: nat) {
    m in ks && forall x | x in ks :: m <= x
  }

  lemma {:induction false} LeastExists(ks: set<nat>) returns (m: nat)
    requires ks != {}
    ensures IsLeast(ks, m)
  {
    m :| m in ks;
    var rest := ks - {m};
    assert ks == rest + {m};
    if rest != {} {
      var r := LeastExists(rest);
      m := if r < m then r else m;
    }
  }

  /** The keys in increasing order. */
  function Ascending(ks: set<nat>): seq<nat>
    decreases |ks|
  {
    if ks == {} then [] else
      assert exists m :: IsLeast(ks, m) by { var m := LeastExists(ks); }
      var m :| IsLeast(ks, m);
      [m] + Ascending(ks - {m})
  }

  ghost predicate Ascends(s: seq<nat>) {
    forall i, j | 0 <= i < j < |s| :: s[i] < s[j]
  }

  ghost predicate Lists(s: seq<nat>, ks: set<nat>) {
    (forall i | 0 <= i < |s| :: s[i] in ks) && (forall k | k in ks :: k in s)
  }

  lemma LeastFirst(ks: set<nat>, m: nat, rest: seq<nat>)
    requires IsLeast(ks, m) && Ascends(rest) && Lists(rest, ks - {m})
    ensures Ascends([m] + rest) && Lists([m] + rest, ks)
  {
    var r := [m] + rest;
    assert forall i | 0 < i < |r| :: r[i] == rest[i - 1];
    forall k | k in ks
      ensures k in r
    {
      assert k != m ==> k in rest;
    }
  }

  lemma {:induction false} AscendingFacts(ks: set<nat>)
    ensures Ascends(Ascending(ks)) && Lists(Ascending(ks), ks) && |Ascending(ks)| == |ks|
    decreases |ks|
  {
    if ks != {} {
      var m := Ascending(ks)[0];
      assert IsLeast(ks, m) && Ascending(ks) == [m] + Ascending(ks - {m});
      AscendingFacts(ks - {m});
      LeastFirst(ks, m, Ascending(ks - {m}));
    }
  }

  // ---------------------------------------------------------------- sums over rates

  function Sum(s: seq<real>): real {
    if s == [] then 0.0 else Sum(s[..|s| - 1]) + s[|s| - 1]
  }

  function Times(x: real, y: real): real { x * y }

  function Square(x: real): real { Times(x, x) }

  /** Sum of squared distances from `m`. */
  function Spread(s: seq<real>, m: real): (r: real)
    ensures r >= 0.0
  {
    if s == [] then 0.0 else
      SquarePositive(s[|s| - 1] - m);
      Spread(s[..|s| - 1], m) + Square(s[|s| - 1] - m)
  }

  lemma SquarePositive(x: real)
    ensures Square(x) >= 0.0 && (x != 0.0 ==> Square(x) > 0.0)
    ensures x == 0.0 ==> Square(x) == 0.0
  {
    if x < 0.0 {
      Product(-x, -x);
      Negated(x);
    } else if x > 0.0 {
      Product(x, x);
    }
  }

  lemma Product(x: real, y: real)
    requires x > 0.0 && y > 0.0
    ensures Times(x, y) > 0.0
  {
  }

  lemma Negated(x: real)
    ensures Times(-x, -x) == Times(x, x)
  {
  }

  function Mean(s: seq<real>): real {
    if s == [] then 0.0 else Sum(s) / |s| as real
  }

  function Variance(s: seq<real>): real {
    if |s| <= 1 then 0.0 else Spread(s, Mean(s)) / (|s| - 1) as real
  }

  function Rate(b: Bucket): real {
    if b.total > 0 then b.passed as real / b.total as real else 0.0
  }

  function Rates(rs: seq<Result>, ks: seq<nat>): seq<real> {
    seq(|ks|, i requires 0 <= i < |ks| => Rate(Bucket(Total(rs, ks[i]), Passed(rs, ks[i]))))
  }

  /** What the aggregates mean, by counting. */
  function Summarised(rs: seq<Result>): Summary {
    var rates := Rates(rs, Ascending(Iterations(rs)));
    var a := CountIf(rs, Abstention());
    Summary(rates, Mean(rates), Variance(rates),
            if a > 0 then Some(CountIf(rs, Abstained()) as real / a as real) else None)
  }

  // ---------------------------------------------------------------- what the counts and rates are

  lemma {:induction false} CountExactly(rs: seq<Result>, p: Result -> bool)
    ensures CountIf(rs, p) == |set i | 0 <= i < |rs| && p(rs[i])|
  {
    if rs != [] {
      var n := |rs| - 1;
      CountExactly(rs[..n], p);
      var front := set i | 0 <= i < n && p(rs[..n][i]);
      assert (set i | 0 <= i < |rs| && p(rs[i])) == front + if p(rs[n]) then {n} else {};
    }
  }

  /** A case abstained exactly when its first abstention score passed. */
  lemma {:induction false} AbstainedExactly(scores: seq<Score>)
    ensures AbstainedFrom(scores) <==>
            exists k | 0 <= k < |scores| ::
              scores[k].scorer == "abstention" && scores[k].pass &&
              forall j | 0 <= j < k :: scores[j].scorer != "abstention"
  {
    if scores != [] {
      var rest := scores[1..];
      AbstainedExactly(rest);
      if scores[0].scorer != "abstention" {
        if AbstainedFrom(rest) {
          var k :| 0 <= k < |rest| && rest[k].scorer == "abstention" && rest[k].pass &&
                   forall j | 0 <= j < k :: rest[j].scorer != "abstention";
          assert scores[k + 1] == rest[k];
          assert forall j | 0 <= j < k + 1 :: j > 0 ==> scores[j] == rest[j - 1];
        }
        if k :| 0 <= k < |scores| && scores[k].scorer == "abstention" && scores[k].pass &&
                forall j | 0 <= j < k :: scores[j].scorer != "abstention" {
          assert rest[k - 1] == scores[k];
          assert forall j | 0 <= j < k - 1 :: rest[j] == scores[j + 1];
        }
      }
    }
  }

  /** Every reported rate is a quotient of counts: passes over cases for each iteration in ascending order,
      passed abstentions over abstention cases; and the mean that of the rates. */
  lemma SummaryExactly(rs: seq<Result>)
    ensures var a := Summarised(rs);
            var ks := Ascending(Iterations(rs));
            && |a.passRates| == |ks|
            && (forall i | 0 <= i < |ks| && Total(rs, ks[i]) > 0 ::
                  Times(Total(rs, ks[i]) as real, a.passRates[i]) == Passed(rs, ks[i]) as real)
            && (a.passRates != [] ==> Times(|a.passRates| as real, a.mean) == Sum(a.passRates))
            && (a.abstentionRate.Some? <==> CountIf(rs, Abstention()) > 0)
            && (a.abstentionRate.Some? ==>
                  Times(CountIf(rs, Abstention()) as real, a.abstentionRate.value) == CountIf(rs, Abstained()) as real)
  {
    var a := Summarised(rs);
    var ks := Ascending(Iterations(rs));
    forall i | 0 <= i < |ks| && Total(rs, ks[i]) > 0
      ensures Times(Total(rs, ks[i]) as real, a.passRates[i]) == Passed(rs, ks[i]) as real
    {
      Undivided(Passed(rs, ks[i]) as real, Total(rs, ks[i]));
    }
    if a.passRates != [] {
      MeanTimes(a.passRates);
    }
    if a.abstentionRate.Some? {
      Undivided(CountIf(rs, Abstained()) as real, CountIf(rs, Abstention()));
    }
  }

  // ---------------------------------------------------------------- the computation

  lemma CountSnoc(rs: seq<Result>, i: nat, p: Result -> bool)
    requires i < |rs|
    ensures CountIf(rs[..i + 1], p) == CountIf(rs[..i], p) + if p(rs[i]) then 1 else 0
  {
    assert rs[..i + 1][..i] == rs[..i];
  }

  /** Buckets hold exactly the counts of the results seen. */
  ghost predicate Tallied(buckets: map<nat, Bucket>, rs: seq<Result>) {
    buckets.Keys == Iterations(rs) && forall k | k in buckets :: buckets[k] == Bucket(Total(rs, k), Passed(rs, k))
  }

  lemma {:induction false} CountNone(rs: seq<Result>, k: nat)
    requires k !in Iterations(rs)
    ensures Total(rs, k) == 0 && Passed(rs, k) == 0
  {
    if rs != [] {
      var n := |rs| - 1;
      assert rs == rs[..n] + [rs[n]];
      assert rs[n] in rs && Iteration(rs[n].caseId) in Iterations(rs);
      forall r | r in rs[..n]
        ensures Iteration(r.caseId) in Iterations(rs)
      {
        assert r in rs;
      }
      CountNone(rs[..n], k);
    }
  }

  lemma IterationsSnoc(rs: seq<Result>, i: nat)
    requires i < |rs|
    ensures Iterations(rs[..i + 1]) == Iterations(rs[..i]) + {Iteration(rs[i].caseId)}
  {
    assert rs[..i + 1] == rs[..i] + [rs[i]];
  }

  lemma CountsSnoc(rs: seq<Result>, i: nat, k: nat)
    requires i < |rs|
    ensures var it := Iteration(rs[i].caseId);
            && Total(rs[..i + 1], k) == Total(rs[..i], k) + (if k == it then 1 else 0)
            && Passed(rs[..i + 1], k) == Passed(rs[..i], k) + (if k == it && PassedAll(rs[i]) then 1 else 0)
  {
    CountSnoc(rs, i, In(k));
    CountSnoc(rs, i, PassedIn(k));
  }

  function Counted(b: Bucket, pass: bool): Bucket {
    Bucket(b.total + 1, b.passed + if pass then 1 else 0)
  }

  lemma TallyAt(buckets: map<nat, Bucket>, rs: seq<Result>, i: nat, it: nat, b: Bucket, k: nat)
    requires i < |rs| && Tallied(buckets, rs[..i]) && it == Iteration(rs[i].caseId)
    requires b == if it in buckets then buckets[it] else Bucket(0, 0)
    ensures k == it ==> Counted(b, PassedAll(rs[i])) == Bucket(Total(rs[..i + 1], k), Passed(rs[..i + 1], k))
    ensures k != it && k in buckets ==> buckets[k] == Bucket(Total(rs[..i + 1], k), Passed(rs[..i + 1], k))
  {
    CountsSnoc(rs, i, k);
    if k !in buckets {
      CountNone(rs[..i], k);
    }
  }

  lemma TallyOne(buckets: map<nat, Bucket>, rs: seq<Result>, i: nat, it: nat, b: Bucket)
    requires i < |rs| && Tallied(buckets, rs[..i]) && it == Iteration(rs[i].caseId)
    requires b == if it in buckets then buckets[it] else Bucket(0, 0)
    ensures Tallied(buckets[it := Counted(b, PassedAll(rs[i]))], rs[..i + 1])
  {
    IterationsSnoc(rs, i);
    forall k: nat
      ensures k == it ==> Counted(b, PassedAll(rs[i])) == Bucket(Total(rs[..i + 1], k), Passed(rs[..i + 1], k))
      ensures k != it && k in buckets ==> buckets[k] == Bucket(Total(rs[..i + 1], k), Passed(rs[..i + 1], k))
    {
      TallyAt(buckets, rs, i, it, b, k);
    }
  }

  method Tally(results: seq<Result>)
    returns (byIteration: map<nat, Bucket>, abstentionTotal: nat, abstentionPassed: nat)
    ensures Tallied(byIteration, results)
    ensures abstentionTotal == CountIf(results, Abstention()) && abstentionPassed == CountIf(results, Abstained())
  {
    byIteration := map[];
    abstentionTotal, abstentionPassed := 0, 0;
    for i := 0 to |results|
      invariant Tallied(byIteration, results[..i])
      invariant abstentionTotal == CountIf(results[..i], Abstention())
      invariant abstentionPassed == CountIf(results[..i], Abstained())
    {
      CountSnoc(results, i, Abstention());
      CountSnoc(results, i, Abstained());
      var result := results[i];
      var iteration := Iteration(result.caseId);
      var bucket := if iteration in byIteration then byIteration[iteration] else Bucket(0, 0);
      TallyOne(byIteration, results, i, iteration, bucket);
      bucket := Counted(bucket, PassedAll(result));
      byIteration := byIteration[iteration := bucket];
      if result.abstention {
        abstentionTotal := abstentionTotal + 1;
        if AbstainedFrom(result.scores) {
          abstentionPassed := abstentionPassed + 1;
        }
      }
    }
    assert results[..|results|] == results;
  }

  function RatesOf(buckets: map<nat, Bucket>, ks: seq<nat>): seq<real>
    requires forall i | 0 <= i < |ks| :: ks[i] in buckets
  {
    seq(|ks|, i requires 0 <= i < |ks| => Rate(buckets[ks[i]]))
  }

  lemma RatesAgree(buckets: map<nat, Bucket>, rs: seq<Result>, ks: seq<nat>)
    requires Tallied(buckets, rs) && forall i | 0 <= i < |ks| :: ks[i] in buckets
    ensures RatesOf(buckets, ks) == Rates(rs, ks)
  {
  }

  method ComputeBenchAggregates(results: seq<Result>) returns (a: Summary)
    ensures a == Summarised(results)
  {
    var byIteration, abstentionTotal, abstentionPassed := Tally(results);
    var keys := Ascending(byIteration.Keys);
    AscendingFacts(byIteration.Keys);
    var passRates := RatesOf(byIteration, keys);
    RatesAgree(byIteration, results, keys);
    var rate := if abstentionTotal > 0 then Some(abstentionPassed as real / abstentionTotal as real) else None;
    a := Summary(passRates, Mean(passRates), Variance(passRates), rate);
  }

  // ---------------------------------------------------------------- totals and rates

  function SumTotals(rs: seq<Result>, ks: seq<nat>): nat {
    if ks == [] then 0 else SumTotals(rs, ks[..|ks| - 1]) + Total(rs, ks[|ks| - 1])
  }

  function SumPassed(rs: seq<Result>, ks: seq<nat>): nat {
    if ks == [] then 0 else SumPassed(rs, ks[..|ks| - 1]) + Passed(rs, ks[|ks| - 1])
  }

  lemma {:induction false} SumsSnoc(rs: seq<Result>, i: nat, ks: seq<nat>)
    requires i < |rs| && Ascends(ks)
    ensures var it := Iteration(rs[i].caseId);
            && SumTotals(rs[..i + 1], ks) == SumTotals(rs[..i], ks) + (if it in ks then 1 else 0)
            && SumPassed(rs[..i + 1], ks) == SumPassed(rs[..i], ks) + (if it in ks && PassedAll(rs[i]) then 1 else 0)
    decreases |ks|
  {
    if ks != [] {
      var n := |ks| - 1;
      SumsSnoc(rs, i, ks[..n]);
      CountSnoc(rs, i, In(ks[n]));
      CountSnoc(rs, i, PassedIn(ks[n]));
      assert ks == ks[..n] + [ks[n]];
      assert ks[n] !in ks[..n];
    }
  }

  lemma {:induction false} SumsCover(rs: seq<Result>, i: nat, ks: seq<nat>)
    requires i <= |rs| && Ascends(ks) && forall r | r in rs :: Iteration(r.caseId) in ks
    ensures SumTotals(rs[..i], ks) == i && SumPassed(rs[..i], ks) == CountIf(rs[..i], Passing())
    decreases i
  {
    if i > 0 {
      SumsCover(rs, i - 1, ks);
      SumsSnoc(rs, i - 1, ks);
      CountSnoc(rs, i - 1, Passing());
      assert rs[i - 1] in rs;
    } else {
      SumsEmpty(ks);
      assert rs[..0] == [];
    }
  }

  lemma {:induction false} SumsEmpty(ks: seq<nat>)
    ensures SumTotals([], ks) == 0 && SumPassed([], ks) == 0
  {
    if ks != [] {
      SumsEmpty(ks[..|ks| - 1]);
    }
  }

  /** Bucket totals sum to the number of results, and bucket passes to the number of passing results. */
  lemma TotalsSum(rs: seq<Result>)
    ensures SumTotals(rs, Ascending(Iterations(rs))) == |rs|
    ensures SumPassed(rs, Ascending(Iterations(rs))) == CountIf(rs, Passing())
  {
    var ks := Ascending(Iterations(rs));
    AscendingFacts(Iterations(rs));
    forall r | r in rs
      ensures Iteration(r.caseId) in ks
    {
      assert Iteration(r.caseId) in Iterations(rs);
    }
    SumsCover(rs, |rs|, ks);
    assert rs[..|rs|] == rs;
  }

  lemma Ratio(p: nat, t: nat)
    requires p <= t && t > 0
    ensures 0.0 <= p as real / t as real <= 1.0
  {
  }

  /** Every pass rate, and the abstention rate when there is one, lies between 0 and 1. */
  lemma RatesInUnit(rs: seq<Result>)
    ensures forall i | 0 <= i < |Summarised(rs).passRates| :: 0.0 <= Summarised(rs).passRates[i] <= 1.0
    ensures Summarised(rs).abstentionRate.Some? ==> 0.0 <= Summarised(rs).abstentionRate.value <= 1.0
    ensures Summarised(rs).abstentionRate.None? <==> CountIf(rs, Abstention()) == 0
  {
    var ks := Ascending(Iterations(rs));
    forall i | 0 <= i < |ks|
      ensures 0.0 <= Summarised(rs).passRates[i] <= 1.0
    {
      CountWithin(rs, PassedIn(ks[i]), In(ks[i]));
      if Total(rs, ks[i]) > 0 { Ratio(Passed(rs, ks[i]), Total(rs, ks[i])); }
    }
    CountWithin(rs, Abstained(), Abstention());
    if CountIf(rs, Abstention()) > 0 { Ratio(CountIf(rs, Abstained()), CountIf(rs, Abstention())); }
  }

  // ---------------------------------------------------------------- mean and variance

  lemma {:induction false} SumBetween(s: seq<real>, lo: real, hi: real)
    requires forall i | 0 <= i < |s| :: lo <= s[i] <= hi
    ensures lo * |s| as real <= Sum(s) <= hi * |s| as real
  {
    if s != [] {
      SumBetween(s[..|s| - 1], lo, hi);
    }
  }

  lemma Divide(x: real, n: nat, lo: real, hi: real)
    requires n > 0 && lo * n as real <= x <= hi * n as real
    ensures lo <= x / n as real <= hi
  {
    var q := x / n as real;
    assert q * n as real == x;
    if q < lo { Scale(lo - q, n); }
    if q > hi { Scale(q - hi, n); }
  }

  lemma Scale(d: real, n: nat)
    requires d > 0.0 && n > 0
    ensures d * n as real > 0.0
  {
  }

  lemma {:induction false} Extremes(s: seq<real>) returns (i: nat, j: nat)
    requires s != []
    ensures i < |s| && j < |s| && forall k | 0 <= k < |s| :: s[i] <= s[k] <= s[j]
  {
    var n := |s| - 1;
    i, j := n, n;
    if n > 0 {
      i, j := Extremes(s[..n]);
      i := if s[n] < s[i] then n else i;
      j := if s[n] > s[j] then n else j;
    }
  }

  /** The mean lies between the least and the greatest rate. */
  lemma MeanBetween(s: seq<real>) returns (i: nat, j: nat)
    requires s != []
    ensures i < |s| && j < |s| && (forall k | 0 <= k < |s| :: s[i] <= s[k] <= s[j]) && s[i] <= Mean(s) <= s[j]
  {
    i, j := Extremes(s);
    SumBetween(s, s[i], s[j]);
    Divide(Sum(s), |s|, s[i], s[j]);
  }

  ghost predicate AllEqual(s: seq<real>, m: real) {
    forall i | 0 <= i < |s| :: s[i] == m
  }

  lemma {:induction false} SpreadZero(s: seq<real>, m: real)
    ensures Spread(s, m) == 0.0 <==> AllEqual(s, m)
  {
    if s != [] {
      var n := |s| - 1;
      SpreadZero(s[..n], m);
      SquarePositive(s[n] - m);
      assert s == s[..n] + [s[n]];
      assert AllEqual(s, m) <==> AllEqual(s[..n], m) && s[n] == m;
    }
  }

  /** The sample variance is zero exactly when all rates are equal. */
  lemma VarianceZero(s: seq<real>)
    ensures Variance(s) >= 0.0
    ensures Variance(s) == 0.0 <==> forall i, j | 0 <= i < |s| && 0 <= j < |s| :: s[i] == s[j]
  {
    if |s| > 1 {
      var m := Mean(s);
      SpreadZero(s, m);
      QuotientZero(Spread(s, m), |s| - 1);
      if forall i, j | 0 <= i < |s| && 0 <= j < |s| :: s[i] == s[j] {
        SumBetween(s, s[0], s[0]);
        Divide(Sum(s), |s|, s[0], s[0]);
        assert AllEqual(s, m);
      }
    }
  }

  function SumSquares(s: seq<real>): real {
    if s == [] then 0.0 else SumSquares(s[..|s| - 1]) + Square(s[|s| - 1])
  }

  lemma SquareOfDistance(x: real, m: real)
    ensures Square(x - m) == Square(x) - 2.0 * Times(m, x) + Square(m)
  {
  }

  lemma AddTimes(m: real, a: real, x: real)
    ensures Times(m, a + x) == Times(m, a) + Times(m, x)
  {
  }

  lemma {:induction false} SpreadExpands(s: seq<real>, m: real)
    ensures Spread(s, m) == SumSquares(s) - 2.0 * Times(m, Sum(s)) + Times(|s| as real, Square(m))
  {
    if s == [] {
      assert Times(m, 0.0) == 0.0 && Times(0.0, Square(m)) == 0.0;
    } else {
      var n := |s| - 1;
      SpreadExpands(s[..n], m);
      SquareOfDistance(s[n], m);
      AddTimes(m, Sum(s[..n]), s[n]);
      AddTimes(Square(m), n as real, 1.0);
      Swap(Square(m), n as real);
      Swap(Square(m), |s| as real);
      assert Times(Square(m), 1.0) == Square(m);
    }
  }

  lemma Swap(x: real, y: real)
    ensures Times(x, y) == Times(y, x)
  {
  }

  lemma MeanTimes(s: seq<real>)
    requires s != []
    ensures Times(|s| as real, Mean(s)) == Sum(s)
  {
  }

  lemma Undivided(x: real, n: nat)
    requires n > 0
    ensures Times(n as real, x / n as real) == x
  {
  }

  lemma MeanSquared(m: real, n: real, sum: real)
    requires Times(n, m) == sum
    ensures Times(m, sum) == Times(n, Square(m))
  {
  }

  /** With two rates or more, one less than their number times the variance is the sum of their squares
      less their number times the squared mean; else it is zero. */
  lemma VarianceExactly(s: seq<real>)
    ensures |s| <= 1 ==> Variance(s) == 0.0
    ensures |s| > 1 ==>
              Times((|s| - 1) as real, Variance(s)) == SumSquares(s) - Times(|s| as real, Square(Mean(s)))
  {
    if |s| > 1 {
      var m := Mean(s);
      SpreadExpands(s, m);
      MeanTimes(s);
      MeanSquared(m, |s| as real, Sum(s));
      Undivided(Spread(s, m), |s| - 1);
    }
  }

  lemma QuotientZero(x: real, n: nat)
    requires n > 0 && x >= 0.0
    ensures x / n as real >= 0.0 && (x / n as real == 0.0 <==> x == 0.0)
  {
    assert (x / n as real) * n as real == x;
  }

  lemma AddFractions(a: nat, b: nat, m: nat)
    requires m > 0
    ensures a as real / m as real + b as real / m as real == (a + b) as real / m as real
  {
  }

  lemma {:induction false} SumOfRates(rs: seq<Result>, ks: seq<nat>, m: nat)
    requires m > 0 && forall i | 0 <= i < |ks| :: Total(rs, ks[i]) == m
    ensures Sum(Rates(rs, ks)) == SumPassed(rs, ks) as real / m as real
    decreases |ks|
  {
    if ks != [] {
      var n := |ks| - 1;
      SumOfRates(rs, ks[..n], m);
      assert Rates(rs, ks)[..n] == Rates(rs, ks[..n]);
      assert Rates(rs, ks)[n] == Passed(rs, ks[n]) as real / m as real;
      AddFractions(SumPassed(rs, ks[..n]), Passed(rs, ks[n]), m);
    }
  }

  lemma OneMore(n: nat, m: nat)
    ensures (n + 1) * m == n * m + m
  {
  }

  lemma {:induction false} SumOfTotals(rs: seq<Result>, ks: seq<nat>, m: nat)
    requires forall i | 0 <= i < |ks| :: Total(rs, ks[i]) == m
    ensures SumTotals(rs, ks) == |ks| * m
    decreases |ks|
  {
    if ks != [] {
      var n := |ks| - 1;
      SumOfTotals(rs, ks[..n], m);
      assert Total(rs, ks[n]) == m;
      OneMore(n, m);
    }
  }

  lemma MeanOfRates(rs: seq<Result>, ks: seq<nat>, m: nat)
    requires m > 0 && ks != [] && forall i | 0 <= i < |ks| :: Total(rs, ks[i]) == m
    ensures SumTotals(rs, ks) > 0 && Mean(Rates(rs, ks)) == SumPassed(rs, ks) as real / SumTotals(rs, ks) as real
  {
    SumOfTotals(rs, ks, m);
    SumOfRates(rs, ks, m);
    Fractions(SumPassed(rs, ks), m, |ks|);
  }

  /** With iterations of equal size the mean of the rates is the overall pass rate. */
  lemma EqualSizesMean(rs: seq<Result>, m: nat)
    requires rs != [] && forall k | k in Iterations(rs) :: Total(rs, k) == m
    ensures Summarised(rs).mean == CountIf(rs, Passing()) as real / |rs| as real
  {
    var ks := Ascending(Iterations(rs));
    AscendingFacts(Iterations(rs));
    var it := Iteration(rs[0].caseId);
    assert rs[0] in rs && it in Iterations(rs);
    CountSome(rs, In(it), rs[0]);
    MeanOfRates(rs, ks, m);
    TotalsSum(rs);
  }

  lemma Fractions(p: nat, m: nat, n: nat)
    requires m > 0 && n > 0
    ensures n * m > 0 && (p as real / m as real) / n as real == p as real / (n * m) as real
  {
    var x, y, z := p as real, m as real, n as real;
    assert n * m > 0;
    assert (n * m) as real == z * y;
    var q := (x / y) / z;
    assert q * z == x / y;
    assert (q * z) * y == x;
    assert q * (z * y) == x;
  }

  /** One rate per iteration number read from the ids, so a report is a single sample exactly when
      all its ids read the same number. */
  lemma OneRatePerIteration(rs: seq<Result>)
    ensures |Summarised(rs).passRates| == |Iterations(rs)|
  {
    AscendingFacts(Iterations(rs));
  }

  // ---------------------------------------------------------------- order does not matter

  lemma {:induction false} CountDrop(rs: seq<Result>, k: nat, p: Result -> bool)
    requires k < |rs|
    ensures CountIf(rs, p) == CountIf(rs[..k] + rs[k + 1..], p) + if p(rs[k]) then 1 else 0
  {
    var n := |rs| - 1;
    if k < n {
      CountDrop(rs[..n], k, p);
      assert (rs[..k] + rs[k + 1..])[..n - 1] == rs[..n][..k] + rs[..n][k + 1..];
    } else {
      assert rs[..k] + rs[k + 1..] == rs[..n];
    }
  }

  lemma WithoutOne(b: seq<Result>, k: nat)
    requires k < |b|
    ensures multiset(b) == multiset(b[..k] + b[k + 1..]) + multiset{b[k]}
  {
    assert b == b[..k] + [b[k]] + b[k + 1..];
  }

  lemma DropLast(a: seq<Result>, b: seq<Result>, k: nat)
    requires a != [] && multiset(a) == multiset(b) && k < |b| && b[k] == a[|a| - 1]
    ensures multiset(a[..|a| - 1]) == multiset(b[..k] + b[k + 1..])
  {
    var n := |a| - 1;
    WithoutOne(b, k);
    WithoutOne(a, n);
    assert a[..n] + a[n + 1..] == a[..n];
    SameRest(multiset(a[..n]), multiset(b[..k] + b[k + 1..]), a[n]);
  }

  lemma SameRest<T>(a: multiset<T>, b: multiset<T>, x: T)
    requires a + multiset{x} == b + multiset{x}
    ensures a == b
  {
    assert a == (a + multiset{x}) - multiset{x};
    assert b == (b + multiset{x}) - multiset{x};
  }

  lemma {:induction false} CountPermuted(a: seq<Result>, b: seq<Result>, p: Result -> bool)
    requires multiset(a) == multiset(b)
    ensures CountIf(a, p) == CountIf(b, p)
    decreases |a|
  {
    assert |a| == |multiset(a)| == |b|;
    if a != [] {
      var n := |a| - 1;
      assert a[n] in multiset(b);
      var k :| 0 <= k < |b| && b[k] == a[n];
      DropLast(a, b, k);
      CountPermuted(a[..n], b[..k] + b[k + 1..], p);
      CountDrop(b, k, p);
    }
  }

  /** Every output is the same for any order of the results. */
  lemma OrderDoesNotMatter(a: seq<Result>, b: seq<Result>)
    requires multiset(a) == multiset(b)
    ensures Summarised(a) == Summarised(b)
  {
    assert forall r :: r in a <==> r in multiset(a);
    assert forall r :: r in b <==> r in multiset(b);
    assert Iterations(a) == Iterations(b);
    var ks := Ascending(Iterations(a));
    forall i | 0 <= i < |ks|
      ensures Rates(a, ks)[i] == Rates(b, ks)[i]
    {
      CountPermuted(a, b, In(ks[i]));
      CountPermuted(a, b, PassedIn(ks[i]));
    }
    assert Rates(a, ks) == Rates(b, ks);
    CountPermuted(a, b, Abstention());
    CountPermuted(a, b, Abstained());
  }
}
