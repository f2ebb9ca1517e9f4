/**
 * The validator's report, read off the document: which rule is reported for which contents of its fields, whatever the
 * phases and loops that look for it, and when the document is valid.
 */
module UblVerdict {
  import opened Lists
  import opened UblValidator

  // ----- when a rule fails, in the document's own terms

  /** Some VAT subtotal is like this. */
  predicate SomeTax(doc: Doc, p: Tax -> bool) {
    doc.vatBreakdown.Some? && exists v <- doc.vatBreakdown.value :: p(v)
  }

  /** The rate is a number that is not above zero. */
  predicate AtMostZero(v: Tax) {
    v.rate.Fin? && !(v.rate.value > 0.0)
  }

  /** More than a cent lies between the two. */
  predicate OverACent(a: real, b: real) {
    a - b > 0.01 || b - a > 0.01
  }

  function TaxTotal(doc: Doc): real {
    match doc.vatBreakdown
    case None => 0.0
    case Some(vats) => SumBy((v: Tax) => v.taxAmount, vats)
  }

  function ChargesLessAllowances(list: seq<Allowance>): real {
    SumBy((a: Allowance) => if a.chargeIndicator then a.amount else -a.amount, list)
  }

  predicate TotalsFail(doc: Doc, mt: Monetary, r: Rule)
    requires r in {R020, R029, R030, R031, R032, R033, BR03}
  {
    match r
    case R020 => mt.payableAmount > 0.0 && !doc.hasTerms
    case R029 => doc.vatBreakdown.Some? && OverACent(mt.taxInclusiveAmount, mt.taxExclusiveAmount + TaxTotal(doc))
    case R030 => OverACent(mt.payableAmount, mt.taxInclusiveAmount)
    case R031 => doc.lines != [] && OverACent(mt.lineExtensionAmount, SumBy((l: DocLine) => l.lineExtensionAmount, doc.lines))
    case R032 =>
      (exists a <- doc.allowanceCharges :: a.amount > 0.0)
      && OverACent(mt.taxExclusiveAmount, mt.lineExtensionAmount + ChargesLessAllowances(doc.allowanceCharges))
    case R033 =>
      doc.vatBreakdown.Some? && doc.vatBreakdown.value != [] && OverACent(mt.taxInclusiveAmount - mt.taxExclusiveAmount, TaxTotal(doc))
    case BR03 => mt.lineExtensionAmount < 0.0 || mt.taxExclusiveAmount < 0.0 || mt.taxInclusiveAmount < 0.0
  }

  /** What the rule forbids is in the document. */
  predicate Fails(codes: Codes, doc: Doc, r: Rule)
    requires !r.Other?
  {
    match r
    case R006 =>
      SomeTax(doc, (v: Tax) => v.category !in codes.vatCategories)
      || exists l <- doc.lines :: l.vatCategory != "" && l.vatCategory !in codes.vatCategories
    case R010 => exists l <- doc.lines :: !l.named
    case R042 => !doc.hasDelivery && SomeTax(doc, (v: Tax) => v.category == "K")
    case R055 => exists a <- doc.allowanceCharges :: !(a.hasReason && a.hasCategory)
    case R065 => SomeTax(doc, (v: Tax) => v.category == "S" && AtMostZero(v))
    case R066 => SomeTax(doc, (v: Tax) => v.category in codes.zeroRated && !(v.rate.Fin? && v.rate.value == 0.0))
    case R067 => SomeTax(doc, (v: Tax) => v.category == "AA" && AtMostZero(v))
    case G08 => exists l <- doc.lines :: l.unitCode != "" && l.unitCode !in codes.units
    case BR44 => SomeTax(doc, (v: Tax) => v.exemptionReason != v.exemptionCode)
    case BR45 => SomeTax(doc, (v: Tax) => v.taxableAmount < 0.0)
    case DER014 => SomeTax(doc, (v: Tax) => !v.rate.Fin?)
    case DER016 => !doc.hasSellerVatId && SomeTax(doc, (v: Tax) => v.category in codes.needsVatId)
    case DER022 =>
      exists i, j :: 0 <= i < j < |doc.filenames| && codes.lower(doc.filenames[i]) == codes.lower(doc.filenames[j]) != ""
    case R020 | R029 | R030 | R031 | R032 | R033 | BR03 =>
      doc.monetaryTotal.Some? && TotalsFail(doc, doc.monetaryTotal.value, r)
  }

  /** A single-field rule found something of this severity. */
  predicate Given(doc: Doc, name: string, s: Severity) {
    (name, s) in doc.headerFindings || (name, s) in doc.partyFindings || (name, s) in doc.referenceFindings
    || (name, s) in doc.termsFindings || (name, s) in doc.paymentFindings || (name, s) in doc.bankFindings
  }

  /** The payable total and the unit codes are only warned about. */
  predicate Warned(r: Rule) {
    r == R030 || r == G08
  }

  function SeverityOf(r: Rule): Severity {
    if Warned(r) then Warning else Fatal
  }

  /** The issue belongs in the report. */
  predicate Due(codes: Codes, doc: Doc, x: Issue) {
    if x.rule.Other? then Given(doc, x.rule.name, x.severity) else x.severity == SeverityOf(x.rule) && Fails(codes, doc, x.rule)
  }

  // ----- lists of issues

  lemma {:induction false} InFlatMap<T>(f: T -> seq<Issue>, xs: seq<T>, x: Issue)
    ensures x in FlatMap(f, xs) <==> exists e <- xs :: x in f(e)
  {
    if xs != [] {
      var n := |xs| - 1;
      InFlatMap(f, xs[..n], x);
      assert xs == xs[..n] + [xs[n]];
    }
  }

  lemma InOthers(found: Findings, x: Issue)
    ensures x in Others(found) <==> x.rule.Other? && (x.rule.name, x.severity) in found
  {
    if x.rule.Other? && (x.rule.name, x.severity) in found {
      var i :| 0 <= i < |found| && found[i] == (x.rule.name, x.severity);
      assert Others(found)[i] == x;
    }
    if x in Others(found) {
      var i :| 0 <= i < |Others(found)| && Others(found)[i] == x;
      assert found[i] == (x.rule.name, x.severity);
    }
  }

  /** The issue is this one, and there is reason for it. */
  predicate Is(x: Issue, rule: Rule, severity: Severity, fails: bool) {
    x.rule == rule && x.severity == severity && fails
  }

  lemma InVat(codes: Codes, v: Tax, x: Issue)
    ensures x in VatIssues(codes, v) <==>
      || Is(x, R006, Fatal, v.category !in codes.vatCategories) || Is(x, R065, Fatal, v.category == "S" && AtMostZero(v))
      || Is(x, R066, Fatal, v.category in codes.zeroRated && !(v.rate.Fin? && v.rate.value == 0.0))
      || Is(x, R067, Fatal, v.category == "AA" && AtMostZero(v))
  {
  }

  lemma InLine(codes: Codes, l: DocLine, x: Issue)
    ensures x in LineIssues(codes, l) <==>
      || Is(x, R010, Fatal, !l.named) || Is(x, R006, Fatal, l.vatCategory != "" && l.vatCategory !in codes.vatCategories)
      || Is(x, G08, Warning, l.unitCode != "" && l.unitCode !in codes.units)
  {
  }

  // ----- the phases

  const EARLY: set<Rule> := {R006, R010, R029, R030, R031, R033, R065, R066, R067, G08}
  const MIDDLE: set<Rule> := {BR03, BR44, BR45, DER014, DER016}
  const LATE: set<Rule> := {R020, R032, R042, R055, DER022}

  lemma VatPhase(codes: Codes, doc: Doc, x: Issue)
    ensures x in FlatMap(VatRules(codes), Taxes(doc)) <==>
      || Is(x, R006, Fatal, SomeTax(doc, (v: Tax) => v.category !in codes.vatCategories))
      || Is(x, R065, Fatal, Fails(codes, doc, R065)) || Is(x, R066, Fatal, Fails(codes, doc, R066))
      || Is(x, R067, Fatal, Fails(codes, doc, R067))
  {
    hide VatIssues, AtMostZero;
    forall v ensures VatRules(codes)(v) == VatIssues(codes, v) {
    }
    InFlatMap(VatRules(codes), Taxes(doc), x);
    forall v: Tax ensures x in VatIssues(codes, v) <==>
      || Is(x, R006, Fatal, v.category !in codes.vatCategories) || Is(x, R065, Fatal, v.category == "S" && AtMostZero(v))
      || Is(x, R066, Fatal, v.category in codes.zeroRated && !(v.rate.Fin? && v.rate.value == 0.0))
      || Is(x, R067, Fatal, v.category == "AA" && AtMostZero(v))
    {
      InVat(codes, v, x);
    }
  }

  lemma LinePhase(codes: Codes, doc: Doc, x: Issue)
    ensures x in FlatMap(LineRules(codes), doc.lines) <==>
      || Is(x, R006, Fatal, exists l <- doc.lines :: l.vatCategory != "" && l.vatCategory !in codes.vatCategories)
      || Is(x, R010, Fatal, Fails(codes, doc, R010)) || Is(x, G08, Warning, Fails(codes, doc, G08))
  {
    hide LineIssues;
    InFlatMap(LineRules(codes), doc.lines, x);
    forall l: DocLine ensures x in LineIssues(codes, l) <==>
      || Is(x, R010, Fatal, !l.named) || Is(x, R006, Fatal, l.vatCategory != "" && l.vatCategory !in codes.vatCategories)
      || Is(x, G08, Warning, l.unitCode != "" && l.unitCode !in codes.units)
    {
      InLine(codes, l, x);
    }
  }

  lemma CrossSums(codes: Codes, doc: Doc)
    ensures (R029Fails(doc) <==> Fails(codes, doc, R029)) && (R030Fails(doc) <==> Fails(codes, doc, R030))
    ensures (R031Fails(doc) <==> Fails(codes, doc, R031)) && (R033Fails(doc) <==> Fails(codes, doc, R033))
  {
    hide SumBy;
  }

  lemma {:induction false} SignedSum(list: seq<Allowance>)
    ensures ChargesLessAllowances(list) == ChargeSum(list) - AllowanceSum(list)
  {
    if list != [] {
      SignedSum(list[..|list| - 1]);
    }
  }

  lemma LateTotals(codes: Codes, doc: Doc)
    ensures (R020Fails(doc) <==> Fails(codes, doc, R020)) && (R032Fails(doc) <==> Fails(codes, doc, R032))
    ensures DeliveryMissing(doc) <==> Fails(codes, doc, R042)
  {
    hide AllowanceSum, ChargeSum, ChargesLessAllowances;
    SignedSum(doc.allowanceCharges);
  }

  lemma InCheck(fails: bool, rule: Rule, severity: Severity, x: Issue)
    ensures x in Check(fails, rule, severity) <==> Is(x, rule, severity, fails)
  {
  }

  lemma SumsPhase(codes: Codes, doc: Doc, x: Issue)
    ensures x in Check(R033Fails(doc), R033, Fatal) <==> Is(x, R033, Fatal, Fails(codes, doc, R033))
    ensures x in TotalPhase(doc) <==>
      || Is(x, R029, Fatal, Fails(codes, doc, R029)) || Is(x, R031, Fatal, Fails(codes, doc, R031))
      || Is(x, R030, Warning, Fails(codes, doc, R030))
  {
    hide R029Fails, R030Fails, R031Fails, R033Fails, Check, Fails;
    CrossSums(codes, doc);
    InCheck(R033Fails(doc), R033, Fatal, x);
    InCheck(R029Fails(doc), R029, Fatal, x);
    InCheck(R031Fails(doc), R031, Fatal, x);
    InCheck(R030Fails(doc), R030, Warning, x);
  }

  lemma Category(codes: Codes, doc: Doc)
    ensures Fails(codes, doc, R006) <==>
      || SomeTax(doc, (v: Tax) => v.category !in codes.vatCategories)
      || exists l <- doc.lines :: l.vatCategory != "" && l.vatCategory !in codes.vatCategories
  {
  }

  lemma InEarly(codes: Codes, doc: Doc, x: Issue)
    ensures x in EarlyIssues(codes, doc) <==>
      if x.rule.Other? then (x.rule.name, x.severity) in doc.headerFindings
      else x.rule in EARLY && x.severity == SeverityOf(x.rule) && Fails(codes, doc, x.rule)
  {
    hide VatRules, LineRules, Others, FlatMap, R033Fails, TotalPhase, Check, Fails, SomeTax;
    InOthers(doc.headerFindings, x);
    VatPhase(codes, doc, x);
    LinePhase(codes, doc, x);
    Category(codes, doc);
    SumsPhase(codes, doc, x);
  }

  lemma SignsPhase(codes: Codes, doc: Doc, x: Issue)
    ensures x in SignPhase(doc) <==> Is(x, BR03, Fatal, Fails(codes, doc, BR03))
  {
  }

  lemma ExemptionPhase(codes: Codes, doc: Doc, x: Issue)
    ensures x in FlatMap(ExemptionIssues, Taxes(doc)) <==> Is(x, BR44, Fatal, Fails(codes, doc, BR44))
  {
    InFlatMap(ExemptionIssues, Taxes(doc), x);
  }

  lemma BasePhase(codes: Codes, doc: Doc, x: Issue)
    ensures x in FlatMap(BaseIssues, Taxes(doc)) <==> Is(x, BR45, Fatal, Fails(codes, doc, BR45))
  {
    InFlatMap(BaseIssues, Taxes(doc), x);
  }

  lemma RatePhase(codes: Codes, doc: Doc, x: Issue)
    ensures x in FlatMap(RateIssues, Taxes(doc)) <==> Is(x, DER014, Fatal, Fails(codes, doc, DER014))
  {
    InFlatMap(RateIssues, Taxes(doc), x);
  }

  lemma SellerIdPhase(codes: Codes, doc: Doc)
    ensures SellerIdMissing(codes, doc) <==> Fails(codes, doc, DER016)
  {
  }

  lemma InMiddle(codes: Codes, doc: Doc, x: Issue)
    ensures x in MiddleIssues(codes, doc) <==>
      if x.rule.Other? then (x.rule.name, x.severity) in doc.partyFindings || (x.rule.name, x.severity) in doc.referenceFindings
      else x.rule in MIDDLE && x.severity == SeverityOf(x.rule) && Fails(codes, doc, x.rule)
  {
    hide ExemptionIssues, BaseIssues, RateIssues, Others, SignPhase, Check, FlatMap, SellerIdMissing, Taxes, Fails;
    InOthers(doc.partyFindings, x);
    InOthers(doc.referenceFindings, x);
    SignsPhase(codes, doc, x);
    ExemptionPhase(codes, doc, x);
    BasePhase(codes, doc, x);
    RatePhase(codes, doc, x);
    SellerIdPhase(codes, doc);
    InCheck(SellerIdMissing(codes, doc), DER016, Fatal, x);
  }

  lemma ReasonPhase(codes: Codes, doc: Doc, x: Issue)
    ensures x in FlatMap(AllowanceIssues, doc.allowanceCharges) <==> Is(x, R055, Fatal, Fails(codes, doc, R055))
  {
    InFlatMap(AllowanceIssues, doc.allowanceCharges, x);
  }

  lemma {:induction false} MapAt(f: string -> string, xs: seq<string>)
    ensures |Map(f, xs)| == |xs| && forall i :: 0 <= i < |xs| ==> Map(f, xs)[i] == f(xs[i])
  {
    if xs != [] {
      MapAt(f, xs[..|xs| - 1]);
    }
  }

  lemma FileNames(codes: Codes, doc: Doc)
    ensures HasDuplicate(Map(codes.lower, doc.filenames)) <==> Fails(codes, doc, DER022)
  {
    hide Map;
    MapAt(codes.lower, doc.filenames);
    var names := Map(codes.lower, doc.filenames);
    if HasDuplicate(names) {
      var i, j :| 0 <= i < j < |names| && names[i] == names[j] && names[i] != "";
      assert codes.lower(doc.filenames[i]) == codes.lower(doc.filenames[j]) != "";
    }
    if Fails(codes, doc, DER022) {
      var i, j :| 0 <= i < j < |doc.filenames| && codes.lower(doc.filenames[i]) == codes.lower(doc.filenames[j]) != "";
      assert names[i] == names[j] != "";
    }
  }

  lemma InLate(codes: Codes, doc: Doc, x: Issue)
    ensures x in LateIssues(codes, doc) <==>
      if x.rule.Other? then
        (x.rule.name, x.severity) in doc.termsFindings || (x.rule.name, x.severity) in doc.paymentFindings
        || (x.rule.name, x.severity) in doc.bankFindings
      else x.rule in LATE && x.severity == SeverityOf(x.rule) && Fails(codes, doc, x.rule)
  {
    hide AllowanceIssues, Others, Check, Map, FlatMap, R020Fails, R032Fails, DeliveryMissing, HasDuplicate, Fails;
    InOthers(doc.termsFindings, x);
    InOthers(doc.paymentFindings, x);
    InOthers(doc.bankFindings, x);
    FileNames(codes, doc);
    LateTotals(codes, doc);
    ReasonPhase(codes, doc, x);
    InCheck(HasDuplicate(Map(codes.lower, doc.filenames)), DER022, Fatal, x);
    InCheck(R020Fails(doc), R020, Fatal, x);
    InCheck(R032Fails(doc), R032, Fatal, x);
    InCheck(DeliveryMissing(doc), R042, Fatal, x);
  }

  /**
   * An issue is reported if and only if it belongs there: for a rule modelled here, when the document's fields are as the
   * rule forbids, always with the rule's own severity; for any other rule, when it was found.
   */
  lemma Reported(codes: Codes, doc: Doc, x: Issue)
    ensures x in AllIssues(codes, doc) <==> Due(codes, doc, x)
  {
    hide EarlyIssues, MiddleIssues, LateIssues, Fails;
    InEarly(codes, doc, x);
    InMiddle(codes, doc, x);
    InLate(codes, doc, x);
    if !x.rule.Other? {
      EveryRule(x.rule);
    }
  }

  lemma EveryRule(r: Rule)
    requires !r.Other?
    ensures r in EARLY || r in MIDDLE || r in LATE
  {
  }

  /** The verdict: no rule but those two fails, and no single-field rule found anything fatal. */
  lemma ValidExactly(codes: Codes, doc: Doc)
    ensures Valid(codes, doc) <==>
      (forall r: Rule :: !r.Other? && !Warned(r) ==> !Fails(codes, doc, r)) && forall name :: !Given(doc, name, Fatal)
  {
    hide AllIssues, Fails, Given;
    var issues := AllIssues(codes, doc);
    if Valid(codes, doc) {
      forall r: Rule | !r.Other? && !Warned(r) ensures !Fails(codes, doc, r) {
        Reported(codes, doc, Issue(r, Fatal));
      }
      forall name ensures !Given(doc, name, Fatal) {
        Reported(codes, doc, Issue(Other(name), Fatal));
      }
    }
    if (forall r: Rule :: !r.Other? && !Warned(r) ==> !Fails(codes, doc, r)) && forall name :: !Given(doc, name, Fatal) {
      forall x | x in issues ensures x.severity == Warning {
        Reported(codes, doc, x);
      }
    }
  }
}
