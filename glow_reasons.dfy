/** The explanation attached to a glow prediction: a list of clauses, each
    added when its trigger holds, rendered as one line of text with a
    sentinel for the case where no clause fires. */
module GlowReasons {
  import opened Rounding

  /** One clause of the explanation; the cloud clauses carry the reading
      they report. */
  datatype Clause =
    | HighCloud(percent: real)   // "高云 N%"
    | MidCloud(percent: real)    // "中云 N%"
    | LowCloud(percent: real)    // "低云 N%"
    | FewLowCloud                // "低云少"
    | ModerateHumidity           // "湿度适中"

  /** Position of a clause kind in the fixed order in which clauses are added. */
  function Rank(c: Clause): nat {
    match c
    case HighCloud(_) => 0
    case MidCloud(_) => 1
    case LowCloud(_) => 2
    case FewLowCloud => 3
    case ModerateHumidity => 4
  }

  /** Clause ranks strictly increase along the list. */
  predicate InClauseOrder(cs: seq<Clause>) {
    forall i, j :: 0 <= i < j < |cs| ==> Rank(cs[i]) < Rank(cs[j])
  }

  /** Whether `c` is the clause its trigger produces for these readings. */
  predicate Fires(c: Clause, cloudLow: real, cloudMid: real, cloudHigh: real, humidity: real) {
    match c
    case HighCloud(p) => p == cloudHigh && cloudHigh > 30.0
    case MidCloud(p) => p == cloudMid && cloudMid > 30.0
    case LowCloud(p) => p == cloudLow && cloudLow > 30.0
    case FewLowCloud => cloudLow < 15.0
    case ModerateHumidity => 60.0 <= humidity <= 80.0
  }

  /** `if b: reasons.append(c)`. */
  function AppendIf(cs: seq<Clause>, b: bool, c: Clause): (r: seq<Clause>)
    ensures forall x :: x in r <==> x in cs || (b && x == c)
    ensures |r| <= |cs| + 1
  {
    if b then cs + [c] else cs
  }

  /** `list.append`: the old list is kept as it was, and `c` goes at the end
      exactly when `b` holds. */
  lemma AppendIfAppends(cs: seq<Clause>, b: bool, c: Clause)
    ensures var r := AppendIf(cs, b, c);
            && |r| == |cs| + (if b then 1 else 0)
            && r[..|cs|] == cs
            && (b ==> r[|cs|] == c)
  {
  }

  /** The clauses that fire for the given readings: a clause is in the list
      exactly when its trigger holds. */
  function Reasons(cloudLow: real, cloudMid: real, cloudHigh: real, humidity: real): (cs: seq<Clause>)
    ensures forall c :: c in cs <==> Fires(c, cloudLow, cloudMid, cloudHigh, humidity)
  {
    var r0 := AppendIf([], cloudHigh > 30.0, HighCloud(cloudHigh));
    var r1 := AppendIf(r0, cloudMid > 30.0, MidCloud(cloudMid));
    var r2 := AppendIf(r1, cloudLow > 30.0, LowCloud(cloudLow));
    var r3 := AppendIf(r2, cloudLow < 15.0, FewLowCloud);
    AppendIf(r3, 60.0 <= humidity <= 80.0, ModerateHumidity)
  }

  /** Appending a clause that ranks above every clause already present keeps
      a list in clause order, and raises its top rank to that clause's. */
  lemma {:induction false} AppendInOrder(cs: seq<Clause>, b: bool, c: Clause)
    requires InClauseOrder(cs)
    requires forall x :: x in cs ==> Rank(x) < Rank(c)
    ensures InClauseOrder(AppendIf(cs, b, c))
    ensures forall x :: x in AppendIf(cs, b, c) ==> Rank(x) <= Rank(c)
  {
    if b {
      var r := cs + [c];
      forall i, j | 0 <= i < j < |r| ensures Rank(r[i]) < Rank(r[j]) {
        if j == |cs| {
          assert r[i] in cs;
        }
      }
    }
  }

  /** The clauses always come in the fixed order high, mid, many low, few
      low, humidity. */
  lemma {:induction false} ReasonsInClauseOrder(cloudLow: real, cloudMid: real, cloudHigh: real, humidity: real)
    ensures InClauseOrder(Reasons(cloudLow, cloudMid, cloudHigh, humidity))
  {
    AppendInOrder([], cloudHigh > 30.0, HighCloud(cloudHigh));
    var r0 := AppendIf([], cloudHigh > 30.0, HighCloud(cloudHigh));
    AppendInOrder(r0, cloudMid > 30.0, MidCloud(cloudMid));
    var r1 := AppendIf(r0, cloudMid > 30.0, MidCloud(cloudMid));
    AppendInOrder(r1, cloudLow > 30.0, LowCloud(cloudLow));
    var r2 := AppendIf(r1, cloudLow > 30.0, LowCloud(cloudLow));
    AppendInOrder(r2, cloudLow < 15.0, FewLowCloud);
    var r3 := AppendIf(r2, cloudLow < 15.0, FewLowCloud);
    AppendInOrder(r3, 60.0 <= humidity <= 80.0, ModerateHumidity);
  }

  /** The explanation is empty exactly when no trigger holds. */
  lemma ReasonsEmptyIffNoTrigger(cloudLow: real, cloudMid: real, cloudHigh: real, humidity: real)
    ensures Reasons(cloudLow, cloudMid, cloudHigh, humidity) == [] <==>
              cloudHigh <= 30.0 && cloudMid <= 30.0 && 15.0 <= cloudLow <= 30.0 && !(60.0 <= humidity <= 80.0)
  {
    var cs := Reasons(cloudLow, cloudMid, cloudHigh, humidity);
    if cs != [] {
      assert Fires(cs[0], cloudLow, cloudMid, cloudHigh, humidity);
    }
    if cloudHigh > 30.0 {
      assert HighCloud(cloudHigh) in cs;
    } else if cloudMid > 30.0 {
      assert MidCloud(cloudMid) in cs;
    } else if cloudLow > 30.0 {
      assert LowCloud(cloudLow) in cs;
    } else if cloudLow < 15.0 {
      assert FewLowCloud in cs;
    } else if 60.0 <= humidity <= 80.0 {
      assert ModerateHumidity in cs;
    }
  }

  /** At most one clause per trigger, and the two low-cloud triggers exclude
      each other, so there are never more than four clauses. */
  lemma ReasonsAtMostFour(cloudLow: real, cloudMid: real, cloudHigh: real, humidity: real)
    ensures |Reasons(cloudLow, cloudMid, cloudHigh, humidity)| <= 4
  {
  }

  /** The "many low clouds" and "few low clouds" clauses never appear together. */
  lemma LowCloudClausesExclusive(cloudLow: real, cloudMid: real, cloudHigh: real, humidity: real)
    ensures var cs := Reasons(cloudLow, cloudMid, cloudHigh, humidity);
            !(exists p :: LowCloud(p) in cs) || FewLowCloud !in cs
  {
    var cs := Reasons(cloudLow, cloudMid, cloudHigh, humidity);
    if exists p :: LowCloud(p) in cs {
      var p :| LowCloud(p) in cs;
      assert Fires(LowCloud(p), cloudLow, cloudMid, cloudHigh, humidity);
    }
  }

  /** The same list, built the way the predictor builds it: start empty and
      append each clause whose trigger holds. */
  method CollectReasons(cloudLow: real, cloudMid: real, cloudHigh: real, humidity: real)
    returns (reasons: seq<Clause>)
    ensures reasons == Reasons(cloudLow, cloudMid, cloudHigh, humidity)
  {
    reasons := [];
    if cloudHigh > 30.0 {
      reasons := reasons + [HighCloud(cloudHigh)];
    }
    if cloudMid > 30.0 {
      reasons := reasons + [MidCloud(cloudMid)];
    }
    if cloudLow > 30.0 {
      reasons := reasons + [LowCloud(cloudLow)];
    }
    if cloudLow < 15.0 {
      reasons := reasons + [FewLowCloud];
    }
    if 60.0 <= humidity <= 80.0 {
      reasons := reasons + [ModerateHumidity];
    }
  }

  // ---------------------------------------------------------------------
  // Rendering

  /** The text shown when no clause fires. */
  const AVERAGE_CONDITIONS: string := "条件一般"

  /** The separator between clauses (a full-width comma). */
  const SEPARATOR: string := "，"

  function DigitChar(d: nat): (c: char)
    requires d < 10
    ensures '0' <= c <= '9' && c as int - '0' as int == d
  {
    ('0' as int + d) as char
  }

  /** The number a string of decimal digits denotes. */
  function DigitsValue(s: string): int {
    if s == [] then 0 else DigitsValue(s[..|s| - 1]) * 10 + (s[|s| - 1] as int - '0' as int)
  }

  /** Decimal digits of a natural number, without leading zeros. */
  function NatText(n: nat): (s: string)
    ensures |s| >= 1
    ensures forall i :: 0 <= i < |s| ==> '0' <= s[i] <= '9'
    ensures n >= 1 ==> s[0] != '0'
    ensures |s| > 1 ==> s[0] != '0'
  {
    if n < 10 then [DigitChar(n)] else NatText(n / 10) + [DigitChar(n % 10)]
  }

  /** The digits of NatText(n) denote n. */
  lemma {:induction false} NatTextValue(n: nat)
    ensures DigitsValue(NatText(n)) == n
  {
    var s := NatText(n);
    if n >= 10 {
      NatTextValue(n / 10);
      assert s[..|s| - 1] == NatText(n / 10);
    } else {
      assert s[..|s| - 1] == [];
    }
  }

  /** A reading formatted with no decimals (`{x:.0f}`): the digits of the
      reading rounded half-to-even, after a minus sign when the reading is
      negative (a negative value keeps its sign even when it rounds to 0). */
  function WholeText(x: real): (s: string)
    ensures |s| >= 1
    ensures x >= 0.0 ==> DigitsValue(s) == RoundHalfEven(x) && '0' <= s[0] <= '9'
    ensures x < 0.0 ==> s[0] == '-' && DigitsValue(s[1..]) == RoundHalfEven(-x)
    ensures var d := if x < 0.0 then s[1..] else s;
            && |d| >= 1
            && (forall i :: 0 <= i < |d| ==> '0' <= d[i] <= '9')
            && (|d| > 1 ==> d[0] != '0')
  {
    if x < 0.0 then
      NatTextValue(RoundHalfEven(-x));
      assert ("-" + NatText(RoundHalfEven(-x)))[1..] == NatText(RoundHalfEven(-x));
      "-" + NatText(RoundHalfEven(-x))
    else
      NatTextValue(RoundHalfEven(x));
      NatText(RoundHalfEven(x))
  }

  function ClauseText(c: Clause): (s: string)
    ensures |s| >= 1 && s[0] != AVERAGE_CONDITIONS[0]
  {
    match c
    case HighCloud(p) => "高云 " + WholeText(p) + "%"
    case MidCloud(p) => "中云 " + WholeText(p) + "%"
    case LowCloud(p) => "低云 " + WholeText(p) + "%"
    case FewLowCloud => "低云少"
    case ModerateHumidity => "湿度适中"
  }

  function ClauseTexts(cs: seq<Clause>): (ts: seq<string>)
    ensures |ts| == |cs|
  {
    if cs == [] then [] else [ClauseText(cs[0])] + ClauseTexts(cs[1..])
  }

  /** Python's `sep.join(parts)`. */
  function Join(parts: seq<string>, sep: string): (s: string)
    ensures parts != [] && parts[0] != [] ==> s != [] && s[0] == parts[0][0]
  {
    if parts == [] then ""
    else if |parts| == 1 then parts[0]
    else parts[0] + sep + Join(parts[1..], sep)
  }

  /** The explanation text: the clauses joined by the separator, or the
      sentinel when there are none. */
  function ReasonText(cs: seq<Clause>): (s: string)
    ensures s == AVERAGE_CONDITIONS <==> cs == []
  {
    if cs == [] then AVERAGE_CONDITIONS
    else Join(ClauseTexts(cs), SEPARATOR)
  }
}
