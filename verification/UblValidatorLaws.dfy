/** Laws of the validator over whole documents. */
module UblValidatorLaws {
  import opened Options
  import opened Lists
  import opened UblValidator

  // ----- order does not matter

  /** The same document with its lists in another order. */
  predicate Reordering(a: Doc, b: Doc) {
    && b == a.(vatBreakdown := b.vatBreakdown, lines := b.lines,
               allowanceCharges := b.allowanceCharges, filenames := b.filenames)
    && (a.vatBreakdown.Some? <==> b.vatBreakdown.Some?)
    && multiset(Taxes(a)) == multiset(Taxes(b))
    && multiset(a.lines) == multiset(b.lines)
    && multiset(a.allowanceCharges) == multiset(b.allowanceCharges)
    && multiset(a.filenames) == multiset(b.filenames)
  }

  lemma SumsReordered(a: Doc, b: Doc)
    requires Reordering(a, b)
    ensures VatSum(Taxes(a)) == VatSum(Taxes(b)) && LineSum(a.lines) == LineSum(b.lines)
    ensures AllowanceSum(a.allowanceCharges) == AllowanceSum(b.allowanceCharges)
    ensures ChargeSum(a.allowanceCharges) == ChargeSum(b.allowanceCharges)
    ensures |Taxes(a)| == |Taxes(b)| && |a.lines| == |b.lines|
  {
    Reordered((v: Tax) => v.taxAmount, ExemptionIssues, Taxes(a), Taxes(b));
    Reordered((l: DocLine) => l.lineExtensionAmount, (l: DocLine) => [l], a.lines, b.lines);
    Reordered((x: Allowance) => if x.chargeIndicator then 0.0 else x.amount, AllowanceIssues, a.allowanceCharges, b.allowanceCharges);
    Reordered((x: Allowance) => if x.chargeIndicator then x.amount else 0.0, AllowanceIssues, a.allowanceCharges, b.allowanceCharges);
  }

  lemma SameRuns<T>(f: T -> seq<Issue>, xs: seq<T>, ys: seq<T>)
    requires multiset(xs) == multiset(ys)
    ensures multiset(FlatMap(f, xs)) == multiset(FlatMap(f, ys))
  {
    Reordered(_ => 0.0, f, xs, ys);
  }

  /** The cross-sum rules see the lists through their sums alone. */
  lemma FailsReordered(a: Doc, b: Doc)
    requires Reordering(a, b)
    ensures (R029Fails(a) <==> R029Fails(b)) && (R030Fails(a) <==> R030Fails(b)) && (R031Fails(a) <==> R031Fails(b))
    ensures R033Fails(a) <==> R033Fails(b)
  {
    hide VatSum, LineSum, Apart;
    SumsReordered(a, b);
  }

  lemma EarlyReordered(codes: Codes, a: Doc, b: Doc)
    requires Reordering(a, b)
    ensures multiset(EarlyIssues(codes, a)) == multiset(EarlyIssues(codes, b))
  {
    hide VatRules, LineRules, Others, FlatMap, R029Fails, R030Fails, R031Fails, R033Fails, Check;
    FailsReordered(a, b);
    SameRuns(VatRules(codes), Taxes(a), Taxes(b));
    SameRuns(LineRules(codes), a.lines, b.lines);
  }

  lemma MiddleReordered(codes: Codes, a: Doc, b: Doc)
    requires Reordering(a, b)
    ensures multiset(MiddleIssues(codes, a)) == multiset(MiddleIssues(codes, b))
  {
    hide ExemptionIssues, BaseIssues, RateIssues, Others, SignPhase, Check, FlatMap;
    SameRuns(RateIssues, Taxes(a), Taxes(b));
    SameRuns(ExemptionIssues, Taxes(a), Taxes(b));
    SameRuns(BaseIssues, Taxes(a), Taxes(b));
    ExistsReordered((v: Tax) => v.category in codes.needsVatId, Taxes(a), Taxes(b));
    assert SellerIdMissing(codes, a) <==> SellerIdMissing(codes, b);
    assert SignPhase(a) == SignPhase(b) by {
      SignSame(a, b);
    }
  }

  lemma SignSame(a: Doc, b: Doc)
    requires a.monetaryTotal == b.monetaryTotal
    ensures SignPhase(a) == SignPhase(b)
  {
  }

  lemma LateReordered(codes: Codes, a: Doc, b: Doc)
    requires Reordering(a, b)
    ensures multiset(LateIssues(codes, a)) == multiset(LateIssues(codes, b))
  {
    hide AllowanceIssues, Others, Check, FlatMap, Map, HasDuplicate, AllowanceSum, ChargeSum, Abs;
    SumsReordered(a, b);
    SameRuns(AllowanceIssues, a.allowanceCharges, b.allowanceCharges);
    ExistsReordered((x: Allowance) => x.amount > 0.0, a.allowanceCharges, b.allowanceCharges);
    ExistsReordered((v: Tax) => v.category == "K", Taxes(a), Taxes(b));
    MapReordered(codes.lower, a.filenames, b.filenames);
    DuplicateReordered(Map(codes.lower, a.filenames), Map(codes.lower, b.filenames));
    assert DeliveryMissing(a) <==> DeliveryMissing(b);
    assert R032Fails(a) <==> R032Fails(b);
    assert R020Fails(a) <==> R020Fails(b);
  }

  /** A repeated name is one that occurs at least twice. */
  lemma DuplicateCount(names: seq<string>)
    ensures HasDuplicate(names) <==> exists x :: x != "" && multiset(names)[x] >= 2
  {
    if HasDuplicate(names) {
      var i, j :| 0 <= i < j < |names| && names[i] == names[j] && names[i] != "";
      RepeatedCounts(names, i, j);
    }
    if x :| x != "" && multiset(names)[x] >= 2 {
      CountedRepeats(names, x);
    }
  }

  lemma RepeatedCounts(names: seq<string>, i: nat, j: nat)
    requires i < j < |names| && names[i] == names[j]
    ensures multiset(names)[names[i]] >= 2
  {
    WithoutMultiset(names, j);
    assert Without(names, j)[i] == names[i];
    assert names[i] in multiset(Without(names, j));
  }

  lemma CountedRepeats(names: seq<string>, x: string)
    requires multiset(names)[x] >= 2
    ensures exists i, j :: 0 <= i < j < |names| && names[i] == names[j] == x
  {
    assert x in multiset(names);
    var j :| 0 <= j < |names| && names[j] == x;
    WithoutMultiset(names, j);
    assert x in multiset(Without(names, j));
    var i :| 0 <= i < |names| - 1 && Without(names, j)[i] == x;
    var k := if i < j then i else i + 1;
    assert names[k] == x && k != j;
  }

  lemma DuplicateReordered(xs: seq<string>, ys: seq<string>)
    requires multiset(xs) == multiset(ys)
    ensures HasDuplicate(xs) <==> HasDuplicate(ys)
  {
    DuplicateCount(xs);
    DuplicateCount(ys);
  }

  /** Reordering lines, subtotals, allowances or attachments changes neither the verdict nor what is reported. */
  lemma OrderIrrelevant(codes: Codes, a: Doc, b: Doc)
    requires Reordering(a, b)
    ensures multiset(AllIssues(codes, a)) == multiset(AllIssues(codes, b))
    ensures Valid(codes, a) <==> Valid(codes, b)
  {
    hide EarlyIssues, MiddleIssues, LateIssues, Reordering;
    EarlyReordered(codes, a, b);
    MiddleReordered(codes, a, b);
    LateReordered(codes, a, b);
    ExistsReordered((i: Issue) => i.severity == Fatal, AllIssues(codes, a), AllIssues(codes, b));
  }

  // ----- the duplicate file name rule

  predicate Never(issues: seq<Issue>, rule: Rule) {
    forall i <- issues :: i.rule != rule
  }

  lemma {:induction false} NeverFlat<T>(f: T -> seq<Issue>, items: seq<T>, rule: Rule)
    requires forall x <- items :: Never(f(x), rule)
    ensures Never(FlatMap(f, items), rule)
  {
    if items != [] {
      NeverFlat(f, items[..|items| - 1], rule);
    }
  }

  lemma NeverTotals(doc: Doc)
    ensures Never(TotalPhase(doc), DER022) && Never(SignPhase(doc), DER022)
  {
    hide R029Fails, R030Fails, R031Fails;
  }

  lemma NeverTax(codes: Codes, v: Tax)
    ensures Never(VatRules(codes)(v), DER022) && Never(ExemptionIssues(v), DER022) && Never(BaseIssues(v), DER022)
    ensures Never(RateIssues(v), DER022)
  {
  }

  lemma NeverLine(codes: Codes, l: DocLine)
    ensures Never(LineRules(codes)(l), DER022)
  {
  }

  lemma NeverAllowance(a: Allowance)
    ensures Never(AllowanceIssues(a), DER022)
  {
  }

  lemma NeverRuns(codes: Codes, doc: Doc)
    ensures Never(FlatMap(VatRules(codes), Taxes(doc)), DER022) && Never(FlatMap(LineRules(codes), doc.lines), DER022)
    ensures Never(FlatMap(ExemptionIssues, Taxes(doc)), DER022) && Never(FlatMap(BaseIssues, Taxes(doc)), DER022)
    ensures Never(FlatMap(RateIssues, Taxes(doc)), DER022)
    ensures Never(FlatMap(AllowanceIssues, doc.allowanceCharges), DER022)
  {
    hide FlatMap, VatRules, LineRules, ExemptionIssues, BaseIssues, RateIssues, AllowanceIssues, Never;
    forall v | v in Taxes(doc)
      ensures Never(VatRules(codes)(v), DER022) && Never(ExemptionIssues(v), DER022) && Never(BaseIssues(v), DER022)
        && Never(RateIssues(v), DER022)
    {
      NeverTax(codes, v);
    }
    forall l | l in doc.lines ensures Never(LineRules(codes)(l), DER022) {
      NeverLine(codes, l);
    }
    forall a | a in doc.allowanceCharges ensures Never(AllowanceIssues(a), DER022) {
      NeverAllowance(a);
    }
    NeverFlat(VatRules(codes), Taxes(doc), DER022);
    NeverFlat(LineRules(codes), doc.lines, DER022);
    NeverFlat(ExemptionIssues, Taxes(doc), DER022);
    NeverFlat(BaseIssues, Taxes(doc), DER022);
    NeverFlat(RateIssues, Taxes(doc), DER022);
    NeverFlat(AllowanceIssues, doc.allowanceCharges, DER022);
  }

  lemma NeverBefore(codes: Codes, doc: Doc)
    ensures Never(EarlyIssues(codes, doc), DER022) && Never(MiddleIssues(codes, doc), DER022)
  {
    hide FlatMap, VatRules, LineRules, ExemptionIssues, BaseIssues, RateIssues, AllowanceIssues, TotalPhase, SignPhase, R033Fails, SellerIdMissing;
    NeverRuns(codes, doc);
    NeverTotals(doc);
  }

  lemma NeverCounted(issues: seq<Issue>, rule: Rule, severity: Severity)
    requires Never(issues, rule)
    ensures multiset(issues)[Issue(rule, severity)] == 0
  {
    assert Issue(rule, severity) !in issues;
  }

  function AfterNames(doc: Doc): seq<Issue> {
    Others(doc.paymentFindings) + Check(R020Fails(doc), R020, Fatal) + Check(R032Fails(doc), R032, Fatal)
    + Check(DeliveryMissing(doc), R042, Fatal) + FlatMap(AllowanceIssues, doc.allowanceCharges) + Others(doc.bankFindings)
  }

  lemma NeverAfter(codes: Codes, doc: Doc)
    ensures Never(AfterNames(doc), DER022) && Never(Others(doc.termsFindings), DER022)
  {
    hide FlatMap, AllowanceIssues, R032Fails, DeliveryMissing;
    NeverRuns(codes, doc);
  }

  /** DE-R-022 is reported exactly once when two names clash, and never otherwise. */
  lemma DuplicateReportedOnce(codes: Codes, doc: Doc)
    ensures multiset(AllIssues(codes, doc))[Issue(DER022, Fatal)]
      == if HasDuplicate(Map(codes.lower, doc.filenames)) then 1 else 0
    ensures multiset(AllIssues(codes, doc))[Issue(DER022, Warning)] == 0
  {
    hide FlatMap, R032Fails, DeliveryMissing, HasDuplicate, Map, EarlyIssues, MiddleIssues, Others, Never, AllowanceIssues, Check;
    var hit := Check(HasDuplicate(Map(codes.lower, doc.filenames)), DER022, Fatal);
    NeverBefore(codes, doc);
    NeverAfter(codes, doc);
    forall severity | true
      ensures multiset(EarlyIssues(codes, doc))[Issue(DER022, severity)] == 0
        && multiset(MiddleIssues(codes, doc))[Issue(DER022, severity)] == 0
        && multiset(Others(doc.termsFindings))[Issue(DER022, severity)] == 0
        && multiset(AfterNames(doc))[Issue(DER022, severity)] == 0
    {
      NeverCounted(EarlyIssues(codes, doc), DER022, severity);
      NeverCounted(MiddleIssues(codes, doc), DER022, severity);
      NeverCounted(Others(doc.termsFindings), DER022, severity);
      NeverCounted(AfterNames(doc), DER022, severity);
    }
    assert LateIssues(codes, doc) == Others(doc.termsFindings) + hit + AfterNames(doc);
    CheckCount(HasDuplicate(Map(codes.lower, doc.filenames)), DER022);
  }

  lemma CheckCount(fails: bool, rule: Rule)
    ensures multiset(Check(fails, rule, Fatal))[Issue(rule, Fatal)] == if fails then 1 else 0
    ensures multiset(Check(fails, rule, Fatal))[Issue(rule, Warning)] == 0
  {
  }

  // ----- what a valid document adds up to

  /** A cross-sum rule that fails is reported as fatal. */
  lemma FailureReported(codes: Codes, doc: Doc)
    ensures R029Fails(doc) ==> Issue(R029, Fatal) in AllIssues(codes, doc)
    ensures R031Fails(doc) ==> Issue(R031, Fatal) in AllIssues(codes, doc)
    ensures R032Fails(doc) ==> Issue(R032, Fatal) in AllIssues(codes, doc)
    ensures R033Fails(doc) ==> Issue(R033, Fatal) in AllIssues(codes, doc)
  {
    hide FlatMap, R029Fails, R030Fails, R031Fails, R032Fails, R033Fails, DeliveryMissing, HasDuplicate, Map, MiddleIssues, Others;
    var early, late := EarlyIssues(codes, doc), LateIssues(codes, doc);
    assert R029Fails(doc) ==> Issue(R029, Fatal) in TotalPhase(doc);
    assert R031Fails(doc) ==> Issue(R031, Fatal) in TotalPhase(doc);
    assert R033Fails(doc) ==> Issue(R033, Fatal) in Check(R033Fails(doc), R033, Fatal);
    assert R032Fails(doc) ==> Issue(R032, Fatal) in Check(R032Fails(doc), R032, Fatal);
  }

  /**
   * A valid document with lines, a VAT breakdown and a positive allowance or charge: its inclusive total is
   * within three cents of the lines, less allowances, plus charges, plus taxes.
   */
  lemma ThreeCents(codes: Codes, doc: Doc)
    requires Valid(codes, doc)
    requires doc.monetaryTotal.Some? && doc.vatBreakdown.Some? && doc.lines != [] && HasPositive(doc.allowanceCharges)
    ensures Tied(doc)
  {
    FailureReported(codes, doc);
  }

  // ----- and what it does not

  /** The inclusive total agrees with what the document lists, within three cents. */
  predicate Tied(doc: Doc)
    requires doc.monetaryTotal.Some?
  {
    Abs(doc.monetaryTotal.value.taxInclusiveAmount
      - (LineSum(doc.lines) - AllowanceSum(doc.allowanceCharges) + ChargeSum(doc.allowanceCharges) + VatSum(Taxes(doc)))) <= 0.03
  }

  function WithTotals(doc: Doc, mt: Monetary): Doc {
    doc.(monetaryTotal := Some(mt))
  }

  /** The same amount on top of the exclusive and the inclusive total; what is payable stays, at the cost of a warning. */
  function Inflated(mt: Monetary, d: real): Monetary {
    mt.(taxExclusiveAmount := mt.taxExclusiveAmount + d, taxInclusiveAmount := mt.taxInclusiveAmount + d)
  }

  /** The fatal rules on these totals see their difference only, as long as R032 is skipped. */
  lemma InflatedFails(doc: Doc, mt: Monetary, d: real)
    requires !HasPositive(doc.allowanceCharges)
    ensures var a, b := WithTotals(doc, mt), WithTotals(doc, Inflated(mt, d));
      && (R029Fails(b) <==> R029Fails(a)) && (R031Fails(b) <==> R031Fails(a)) && (R033Fails(b) <==> R033Fails(a))
      && (R020Fails(b) <==> R020Fails(a)) && !R032Fails(a) && !R032Fails(b)
  {
    hide VatSum, LineSum;
    var t := VatSum(Taxes(doc));
    assert (mt.taxInclusiveAmount + d) - (mt.taxExclusiveAmount + d + t) == mt.taxInclusiveAmount - (mt.taxExclusiveAmount + t);
    assert (mt.taxInclusiveAmount + d) - (mt.taxExclusiveAmount + d) == mt.taxInclusiveAmount - mt.taxExclusiveAmount;
  }

  lemma WarningIsNotFatal(fails: bool, rule: Rule)
    ensures NoFatal(Check(fails, rule, Warning))
  {
  }

  lemma TotalsNotFatal(doc: Doc)
    ensures NoFatal(TotalPhase(doc)) <==> !R029Fails(doc) && !R031Fails(doc)
  {
    hide NoFatal, Check, R029Fails, R030Fails, R031Fails;
    var a, b, c := Check(R029Fails(doc), R029, Fatal), Check(R031Fails(doc), R031, Fatal), Check(R030Fails(doc), R030, Warning);
    NoFatalConcat(a + b, c);
    NoFatalConcat(a, b);
    CheckIsFatal(R029Fails(doc), R029);
    CheckIsFatal(R031Fails(doc), R031);
    WarningIsNotFatal(R030Fails(doc), R030);
  }

  lemma EarlyNotFatal(codes: Codes, doc: Doc)
    ensures NoFatal(EarlyIssues(codes, doc)) <==>
      && NoFatal(Others(doc.headerFindings)) && NoFatal(FlatMap(VatRules(codes), Taxes(doc))) && !R033Fails(doc)
      && !R029Fails(doc) && !R031Fails(doc) && NoFatal(FlatMap(LineRules(codes), doc.lines))
  {
    hide NoFatal, Check, FlatMap, VatRules, LineRules, Others, TotalPhase, R029Fails, R031Fails, R033Fails, Taxes;
    var a, b, c := Others(doc.headerFindings), FlatMap(VatRules(codes), Taxes(doc)), Check(R033Fails(doc), R033, Fatal);
    var d, e := TotalPhase(doc), FlatMap(LineRules(codes), doc.lines);
    NoFatalConcat(a + b + c + d, e);
    NoFatalConcat(a + b + c, d);
    NoFatalConcat(a + b, c);
    NoFatalConcat(a, b);
    CheckIsFatal(R033Fails(doc), R033);
    TotalsNotFatal(doc);
  }

  lemma InflatedEarly(codes: Codes, doc: Doc, mt: Monetary, d: real)
    requires !HasPositive(doc.allowanceCharges)
    ensures NoFatal(EarlyIssues(codes, WithTotals(doc, Inflated(mt, d)))) <==> NoFatal(EarlyIssues(codes, WithTotals(doc, mt)))
  {
    hide EarlyIssues, VatRules, LineRules, Others, FlatMap, R029Fails, R031Fails, R033Fails, R032Fails, R020Fails, HasPositive, NoFatal;
    InflatedFails(doc, mt, d);
    EarlyNotFatal(codes, WithTotals(doc, mt));
    EarlyNotFatal(codes, WithTotals(doc, Inflated(mt, d)));
  }

  lemma InflatedLate(codes: Codes, doc: Doc, mt: Monetary, d: real)
    requires !HasPositive(doc.allowanceCharges)
    ensures LateIssues(codes, WithTotals(doc, Inflated(mt, d))) == LateIssues(codes, WithTotals(doc, mt))
  {
    hide AllowanceIssues, Others, FlatMap, Map, HasDuplicate, R029Fails, R031Fails, R033Fails, R032Fails, R020Fails, Check, HasPositive;
    InflatedFails(doc, mt, d);
  }

  /** Raising totals makes none negative. */
  lemma InflatedSigns(doc: Doc, mt: Monetary, d: real)
    requires d >= 0.0 && NoFatal(SignPhase(WithTotals(doc, mt)))
    ensures NoFatal(SignPhase(WithTotals(doc, Inflated(mt, d))))
  {
    hide SignPhase, NoFatal;
    SignsMean(WithTotals(doc, mt));
    SignsMean(WithTotals(doc, Inflated(mt, d)));
  }

  lemma CheckIsFatal(fails: bool, rule: Rule)
    ensures NoFatal(Check(fails, rule, Fatal)) <==> !fails
  {
    if fails {
      assert Issue(rule, Fatal) in Check(fails, rule, Fatal);
    }
  }

  lemma SignsMean(doc: Doc)
    requires doc.monetaryTotal.Some?
    ensures var mt := doc.monetaryTotal.value;
      NoFatal(SignPhase(doc)) <==> mt.lineExtensionAmount >= 0.0 && mt.taxExclusiveAmount >= 0.0 && mt.taxInclusiveAmount >= 0.0
  {
    hide NoFatal, Check;
    var mt := doc.monetaryTotal.value;
    var a, b, c := mt.lineExtensionAmount < 0.0, mt.taxExclusiveAmount < 0.0, mt.taxInclusiveAmount < 0.0;
    NoFatalConcat(Check(a, BR03, Fatal) + Check(b, BR03, Fatal), Check(c, BR03, Fatal));
    NoFatalConcat(Check(a, BR03, Fatal), Check(b, BR03, Fatal));
    CheckIsFatal(a, BR03);
    CheckIsFatal(b, BR03);
    CheckIsFatal(c, BR03);
  }

  lemma NoFatalConcat(a: seq<Issue>, b: seq<Issue>)
    ensures NoFatal(a + b) <==> NoFatal(a) && NoFatal(b)
  {
    assert forall i :: i in a + b <==> i in a || i in b;
  }

  function MiddleRest(codes: Codes, doc: Doc): seq<Issue> {
    FlatMap(ExemptionIssues, Taxes(doc)) + FlatMap(BaseIssues, Taxes(doc))
    + Others(doc.partyFindings) + FlatMap(RateIssues, Taxes(doc)) + Others(doc.referenceFindings)
    + Check(SellerIdMissing(codes, doc), DER016, Fatal)
  }

  lemma MiddleSplit(codes: Codes, doc: Doc)
    ensures MiddleIssues(codes, doc) == SignPhase(doc) + MiddleRest(codes, doc)
  {
    hide ExemptionIssues, BaseIssues, RateIssues, Others, SignPhase, Check, FlatMap, SellerIdMissing, Taxes;
  }

  lemma SameMiddleRest(codes: Codes, doc: Doc, mt: Monetary, d: real)
    ensures MiddleRest(codes, WithTotals(doc, Inflated(mt, d))) == MiddleRest(codes, WithTotals(doc, mt))
  {
    hide ExemptionIssues, BaseIssues, RateIssues, Others, Check, FlatMap;
  }

  /**
   * Without a positive allowance or charge no rule ties the totals to the lines: whatever document is valid, it stays so
   * when the same amount is added to its exclusive and inclusive totals.
   */
  lemma NoAllowanceNoTie(codes: Codes, doc: Doc, mt: Monetary, d: real)
    requires !HasPositive(doc.allowanceCharges) && d >= 0.0 && Valid(codes, WithTotals(doc, mt))
    ensures Valid(codes, WithTotals(doc, Inflated(mt, d)))
  {
    hide *;
    var a, b := WithTotals(doc, mt), WithTotals(doc, Inflated(mt, d));
    InflatedEarly(codes, doc, mt, d);
    InflatedLate(codes, doc, mt, d);
    SameMiddleRest(codes, doc, mt, d);
    ValidParts(codes, a);
    ValidParts(codes, b);
    InflatedSigns(doc, mt, d);
  }

  lemma ValidParts(codes: Codes, doc: Doc)
    ensures Valid(codes, doc) <==>
      NoFatal(EarlyIssues(codes, doc)) && NoFatal(SignPhase(doc)) && NoFatal(MiddleRest(codes, doc)) && NoFatal(LateIssues(codes, doc))
  {
    hide EarlyIssues, MiddleIssues, LateIssues, MiddleRest, SignPhase, NoFatal;
    MiddleSplit(codes, doc);
    NoFatalConcat(EarlyIssues(codes, doc) + MiddleIssues(codes, doc), LateIssues(codes, doc));
    NoFatalConcat(EarlyIssues(codes, doc), MiddleIssues(codes, doc));
    NoFatalConcat(SignPhase(doc), MiddleRest(codes, doc));
  }

  /**
   * Which documents the rules tie: with lines and a breakdown, every choice of totals that passes is within three cents of
   * what the document lists if and only if there is a positive allowance or charge, or no choice passes at all.
   */
  lemma TiedExactly(codes: Codes, doc: Doc)
    requires doc.lines != [] && doc.vatBreakdown.Some?
    ensures (forall mt :: Valid(codes, WithTotals(doc, mt)) ==> Tied(WithTotals(doc, mt)))
      <==> HasPositive(doc.allowanceCharges) || forall mt :: !Valid(codes, WithTotals(doc, mt))
  {
    hide Valid, HasPositive, LineSum, AllowanceSum, ChargeSum, VatSum;
    if HasPositive(doc.allowanceCharges) {
      forall mt | Valid(codes, WithTotals(doc, mt)) ensures Tied(WithTotals(doc, mt)) {
        ThreeCents(codes, WithTotals(doc, mt));
      }
    } else if mt :| Valid(codes, WithTotals(doc, mt)) {
      var d := if Tied(WithTotals(doc, mt)) then 1.0 else 0.0;
      NoAllowanceNoTie(codes, doc, mt, d);
      assert !Tied(WithTotals(doc, Inflated(mt, d)));
    }
  }
}
