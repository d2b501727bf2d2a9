/** What a run of the inference engine guarantees, proved about its specification. */
module InferenceProperties {
  import opened Wrappers
  import opened InferenceRules

  predicate Distinct<T(==)>(s: seq<T>) {
    forall i, j :: 0 <= i < j < |s| ==> s[i] != s[j]
  }

  // ---------------------------------------------------------------- the agenda

  lemma {:induction false} FilterSound(rs: seq<RuleId>, f: Facts)
    ensures forall r :: r in Filter(rs, f) <==> r in rs && Matches(r, f)
  {
    if rs != [] {
      FilterSound(rs[..|rs| - 1], f);
      assert rs == rs[..|rs| - 1] + [rs[|rs| - 1]];
    }
  }

  lemma {:induction false} FilterDistinct(rs: seq<RuleId>, f: Facts)
    requires Distinct(rs)
    ensures Distinct(Filter(rs, f))
  {
    if rs != [] {
      var init := rs[..|rs| - 1];
      FilterDistinct(init, f);
      FilterSound(init, f);
    }
  }

  /** The catalogue lists every rule. */
  lemma AllRulesComplete(r: RuleId)
    ensures r in AllRules
  {
    match r
    case RF001 => assert AllRules[0] == r;
    case RF002 => assert AllRules[1] == r;
    case RF003 => assert AllRules[2] == r;
    case RF004 => assert AllRules[3] == r;
    case RF005 => assert AllRules[4] == r;
    case RF006 => assert AllRules[5] == r;
    case RO001 => assert AllRules[6] == r;
    case RO002 => assert AllRules[7] == r;
    case RO003 => assert AllRules[8] == r;
    case RO004 => assert AllRules[9] == r;
    case RO005 => assert AllRules[10] == r;
    case RL001 => assert AllRules[11] == r;
    case RL002 => assert AllRules[12] == r;
    case RL003 => assert AllRules[13] == r;
    case RR001 => assert AllRules[14] == r;
    case RR002 => assert AllRules[15] == r;
    case RR003 => assert AllRules[16] == r;
  }

  /** A rule is on the agenda exactly when its pattern matches, and at most once. */
  lemma ActivationsExact(f: Facts)
    ensures forall r :: r in Activations(f) <==> Matches(r, f)
    ensures Distinct(Activations(f))
  {
    FilterSound(AllRules, f);
    FilterDistinct(AllRules, f);
    forall r ensures r in AllRules {
      AllRulesComplete(r);
    }
  }

  // ------------------------------------------------- what a sequence of firings records

  function Explains(rs: seq<RuleId>, f: Facts): seq<Explanation> {
    if rs == [] then []
    else
      var last := rs[|rs| - 1];
      Explains(rs[..|rs| - 1], f) + [ExplanationOf(last, f)]
  }

  /** The explanation a firing of `r` records. */
  function ExplanationOf(r: RuleId, f: Facts): Explanation {
    Explanation(Label(r), Reason(r, Cited(r, f)), Impact(r))
  }

  function RuleImpacts(rs: seq<RuleId>): int {
    if rs == [] then 0 else RuleImpacts(rs[..|rs| - 1]) + Impact(rs[|rs| - 1])
  }

  function AlertsOf(rs: seq<RuleId>): seq<Alert> {
    if rs == [] then [] else AlertsOf(rs[..|rs| - 1]) + ToSeq(AlertOf(rs[|rs| - 1]))
  }

  function FactorsOf(rs: seq<RuleId>): seq<string> {
    if rs == [] then [] else FactorsOf(rs[..|rs| - 1]) + ToSeq(FactorOf(rs[|rs| - 1]))
  }

  /** The `Conclusion` facts the rules of `rs` declare. */
  function DeclaredBy(rs: seq<RuleId>): set<Conclusion> {
    if rs == [] then {} else DeclaredBy(rs[..|rs| - 1]) + Declares(rs[|rs| - 1])
  }

  /** A conclusion is declared exactly when some rule of `rs` has it. */
  lemma {:induction false} DeclaredByMembers(rs: seq<RuleId>, c: Conclusion)
    ensures c in DeclaredBy(rs) <==> exists r :: r in rs && ConclusionOf(r) == Some(c)
  {
    if rs != [] {
      var init, last := rs[..|rs| - 1], rs[|rs| - 1];
      DeclaredByMembers(init, c);
      assert rs == init + [last];
    }
  }

  // Firing `rs` appends to every list, subtracts every impact and declares every
  // conclusion, one field at a time.

  lemma {:induction false} FireAllExplains(s: State, rs: seq<RuleId>, f: Facts)
    ensures FireAll(s, rs, f).explicaciones == s.explicaciones + Explains(rs, f)
  {
    if rs != [] {
      FireAllExplains(s, rs[..|rs| - 1], f);
    }
  }

  lemma {:induction false} FireAllScore(s: State, rs: seq<RuleId>, f: Facts)
    ensures FireAll(s, rs, f).puntuacionTotal == s.puntuacionTotal - RuleImpacts(rs)
  {
    if rs != [] {
      FireAllScore(s, rs[..|rs| - 1], f);
    }
  }

  lemma {:induction false} FireAllAlerts(s: State, rs: seq<RuleId>, f: Facts)
    ensures FireAll(s, rs, f).alertas == s.alertas + AlertsOf(rs)
  {
    if rs != [] {
      FireAllAlerts(s, rs[..|rs| - 1], f);
    }
  }

  lemma {:induction false} FireAllFactors(s: State, rs: seq<RuleId>, f: Facts)
    ensures FireAll(s, rs, f).factoresCriticos == s.factoresCriticos + FactorsOf(rs)
  {
    if rs != [] {
      FireAllFactors(s, rs[..|rs| - 1], f);
    }
  }

  lemma {:induction false} FireAllConclusions(s: State, rs: seq<RuleId>, f: Facts)
    ensures FireAll(s, rs, f).conclusiones == s.conclusiones + DeclaredBy(rs)
  {
    if rs != [] {
      FireAllConclusions(s, rs[..|rs| - 1], f);
    }
  }

  /** Rules never touch the verdict. */
  lemma {:induction false} FireAllVerdict(s: State, rs: seq<RuleId>, f: Facts)
    ensures FireAll(s, rs, f).riesgoFinal == s.riesgoFinal
    ensures FireAll(s, rs, f).recomendacion == s.recomendacion
  {
    if rs != [] {
      FireAllVerdict(s, rs[..|rs| - 1], f);
    }
  }

  lemma {:induction false} ExplainsShape(rs: seq<RuleId>, f: Facts)
    ensures |Explains(rs, f)| == |rs|
    ensures forall i :: 0 <= i < |rs| ==>
      Explains(rs, f)[i] == ExplanationOf(rs[i], f)
  {
    if rs != [] {
      var init, last := rs[..|rs| - 1], rs[|rs| - 1];
      ExplainsShape(init, f);
      var es := Explains(rs, f);
      forall i | 0 <= i < |rs|
        ensures es[i] == ExplanationOf(rs[i], f)
      {
        if i < |rs| - 1 {
          assert es[i] == Explains(init, f)[i] && rs[i] == init[i];
        }
      }
    }
  }

  lemma {:induction false} RuleImpactsIsSum(rs: seq<RuleId>, f: Facts)
    ensures RuleImpacts(rs) == SumImpacts(Explains(rs, f))
    ensures RuleImpacts(rs) >= 0
  {
    if rs != [] {
      RuleImpactsIsSum(rs[..|rs| - 1], f);
      var es := Explains(rs, f);
      assert es[..|es| - 1] == Explains(rs[..|rs| - 1], f);
    }
  }

  /** Non-negative recorded impacts never add up to a negative total. */
  lemma {:induction false} SumImpactsNonNegative(es: seq<Explanation>)
    requires forall i :: 0 <= i < |es| ==> es[i].impacto >= 0
    ensures SumImpacts(es) >= 0
  {
    if es != [] {
      var init := es[..|es| - 1];
      assert forall i :: 0 <= i < |init| ==> init[i] == es[i];
      SumImpactsNonNegative(init);
    }
  }

  // ---------------------------------------------------------------- labels

  /** The rule a label names, read from the code "Rx-00n" that opens it. */
  function RuleOfLabel(regla: string): Option<RuleId> {
    if |regla| < 6 || regla[0] != 'R' || regla[2] != '-' || regla[3] != '0' || regla[4] != '0' then None
    else
      match (regla[1], regla[5])
      case ('F', '1') => Some(RF001) case ('F', '2') => Some(RF002) case ('F', '3') => Some(RF003)
      case ('F', '4') => Some(RF004) case ('F', '5') => Some(RF005) case ('F', '6') => Some(RF006)
      case ('O', '1') => Some(RO001) case ('O', '2') => Some(RO002) case ('O', '3') => Some(RO003)
      case ('O', '4') => Some(RO004) case ('O', '5') => Some(RO005)
      case ('L', '1') => Some(RL001) case ('L', '2') => Some(RL002) case ('L', '3') => Some(RL003)
      case ('R', '1') => Some(RR001) case ('R', '2') => Some(RR002) case ('R', '3') => Some(RR003)
      case _ => None
  }

  /** Every label opens with the code of its own rule, so no two rules share a label. */
  lemma LabelNamesRule(r: RuleId)
    ensures RuleOfLabel(Label(r)) == Some(r)
  {
    match r
    case RF001 => case RF002 => case RF003 => case RF004 => case RF005 => case RF006 =>
    case RO001 => case RO002 => case RO003 => case RO004 => case RO005 =>
    case RL001 => case RL002 => case RL003 =>
    case RR001 => case RR002 => case RR003 =>
  }

  lemma LabelInjective(r1: RuleId, r2: RuleId)
    requires Label(r1) == Label(r2)
    ensures r1 == r2
  {
    LabelNamesRule(r1);
    LabelNamesRule(r2);
  }

  // ---------------------------------------------------------------- order of firing

  /** Where the last element of `xs` sits in its permutation `ys`, and what is left around it. */
  lemma MatchLast<T>(xs: seq<T>, ys: seq<T>) returns (k: nat)
    requires xs != [] && multiset(xs) == multiset(ys)
    ensures k < |ys| && ys[k] == xs[|xs| - 1]
    ensures ys == ys[..k] + [ys[k]] + ys[k + 1..]
    ensures multiset(ys[..k] + ys[k + 1..]) == multiset(xs[..|xs| - 1])
  {
    var x := xs[|xs| - 1];
    assert xs == xs[..|xs| - 1] + [x];
    assert x in multiset(ys);
    k :| 0 <= k < |ys| && ys[k] == x;
    assert ys == ys[..k] + [x] + ys[k + 1..];
    assert multiset(ys) == multiset(ys[..k]) + multiset{x} + multiset(ys[k + 1..]);
    assert multiset(xs) == multiset(xs[..|xs| - 1]) + multiset{x};
    assert multiset(xs[..|xs| - 1]) == multiset(xs) - multiset{x};
    assert multiset(ys[..k] + ys[k + 1..]) == multiset(ys[..k]) + multiset(ys[k + 1..]) == multiset(ys) - multiset{x};
  }

  lemma {:induction false} RuleImpactsAppend(xs: seq<RuleId>, ys: seq<RuleId>)
    ensures RuleImpacts(xs + ys) == RuleImpacts(xs) + RuleImpacts(ys)
  {
    if ys == [] {
      assert xs + ys == xs;
    } else {
      var init := ys[..|ys| - 1];
      RuleImpactsAppend(xs, init);
      assert (xs + ys)[..|xs + ys| - 1] == xs + init;
      assert (xs + ys)[|xs + ys| - 1] == ys[|ys| - 1];
    }
  }

  /** The total impact of a set of firings does not depend on their order. */
  lemma {:induction false} RuleImpactsPermutation(xs: seq<RuleId>, ys: seq<RuleId>)
    requires multiset(xs) == multiset(ys)
    ensures RuleImpacts(xs) == RuleImpacts(ys)
    decreases |xs|
  {
    if xs == [] {
      assert |ys| == |multiset(ys)| == 0;
    } else {
      var init, x := xs[..|xs| - 1], xs[|xs| - 1];
      assert xs == init + [x];
      var k := MatchLast(xs, ys);
      var rest := ys[..k] + ys[k + 1..];
      RuleImpactsPermutation(init, rest);
      RuleImpactsAppend(init, [x]);
      RuleImpactsAppend(ys[..k] + [x], ys[k + 1..]);
      RuleImpactsAppend(ys[..k], [x]);
      RuleImpactsAppend(ys[..k], ys[k + 1..]);
    }
  }

  lemma {:induction false} ExplainsAppend(xs: seq<RuleId>, ys: seq<RuleId>, f: Facts)
    ensures Explains(xs + ys, f) == Explains(xs, f) + Explains(ys, f)
  {
    if ys == [] {
      assert xs + ys == xs;
    } else {
      var init := ys[..|ys| - 1];
      ExplainsAppend(xs, init, f);
      assert (xs + ys)[..|xs + ys| - 1] == xs + init;
      assert (xs + ys)[|xs + ys| - 1] == ys[|ys| - 1];
    }
  }

  /** The explanations of a set of firings, as a multiset, do not depend on their order. */
  lemma {:induction false} ExplainsPermutation(xs: seq<RuleId>, ys: seq<RuleId>, f: Facts)
    requires multiset(xs) == multiset(ys)
    ensures multiset(Explains(xs, f)) == multiset(Explains(ys, f))
    decreases |xs|
  {
    if xs == [] {
      assert |ys| == |multiset(ys)| == 0;
    } else {
      var init, x := xs[..|xs| - 1], xs[|xs| - 1];
      assert xs == init + [x];
      var k := MatchLast(xs, ys);
      var rest := ys[..k] + ys[k + 1..];
      ExplainsPermutation(init, rest, f);
      ExplainsAppend(init, [x], f);
      ExplainsAppend(ys[..k] + [x], ys[k + 1..], f);
      ExplainsAppend(ys[..k], [x], f);
      ExplainsAppend(ys[..k], ys[k + 1..], f);
    }
  }

  lemma {:induction false} AlertsAppend(xs: seq<RuleId>, ys: seq<RuleId>)
    ensures AlertsOf(xs + ys) == AlertsOf(xs) + AlertsOf(ys)
  {
    if ys == [] {
      assert xs + ys == xs;
    } else {
      var init := ys[..|ys| - 1];
      AlertsAppend(xs, init);
      assert (xs + ys)[..|xs + ys| - 1] == xs + init;
      assert (xs + ys)[|xs + ys| - 1] == ys[|ys| - 1];
    }
  }

  /** The alerts of a set of firings, as a multiset, do not depend on their order. */
  lemma {:induction false} AlertsPermutation(xs: seq<RuleId>, ys: seq<RuleId>)
    requires multiset(xs) == multiset(ys)
    ensures multiset(AlertsOf(xs)) == multiset(AlertsOf(ys))
    decreases |xs|
  {
    if xs == [] {
      assert |ys| == |multiset(ys)| == 0;
    } else {
      var init, x := xs[..|xs| - 1], xs[|xs| - 1];
      assert xs == init + [x];
      var k := MatchLast(xs, ys);
      var rest := ys[..k] + ys[k + 1..];
      AlertsPermutation(init, rest);
      AlertsAppend(init, [x]);
      AlertsAppend(ys[..k] + [x], ys[k + 1..]);
      AlertsAppend(ys[..k], [x]);
      AlertsAppend(ys[..k], ys[k + 1..]);
    }
  }

  lemma {:induction false} FactorsAppend(xs: seq<RuleId>, ys: seq<RuleId>)
    ensures FactorsOf(xs + ys) == FactorsOf(xs) + FactorsOf(ys)
  {
    if ys == [] {
      assert xs + ys == xs;
    } else {
      var init := ys[..|ys| - 1];
      FactorsAppend(xs, init);
      assert (xs + ys)[..|xs + ys| - 1] == xs + init;
      assert (xs + ys)[|xs + ys| - 1] == ys[|ys| - 1];
    }
  }

  /** The critical factors of a set of firings, as a multiset, do not depend on their order. */
  lemma {:induction false} FactorsPermutation(xs: seq<RuleId>, ys: seq<RuleId>)
    requires multiset(xs) == multiset(ys)
    ensures multiset(FactorsOf(xs)) == multiset(FactorsOf(ys))
    decreases |xs|
  {
    if xs == [] {
      assert |ys| == |multiset(ys)| == 0;
    } else {
      var init, x := xs[..|xs| - 1], xs[|xs| - 1];
      assert xs == init + [x];
      var k := MatchLast(xs, ys);
      var rest := ys[..k] + ys[k + 1..];
      FactorsPermutation(init, rest);
      FactorsAppend(init, [x]);
      FactorsAppend(ys[..k] + [x], ys[k + 1..]);
      FactorsAppend(ys[..k], [x]);
      FactorsAppend(ys[..k], ys[k + 1..]);
    }
  }

  /** The conclusions declared by a set of firings do not depend on their order. */
  lemma DeclaredByPermutation(xs: seq<RuleId>, ys: seq<RuleId>)
    requires multiset(xs) == multiset(ys)
    ensures DeclaredBy(xs) == DeclaredBy(ys)
  {
    forall c ensures c in DeclaredBy(xs) <==> c in DeclaredBy(ys) {
      DeclaredByMembers(xs, c);
      DeclaredByMembers(ys, c);
      assert forall r :: r in xs <==> r in multiset(xs);
      assert forall r :: r in ys <==> r in multiset(ys);
    }
  }
}
