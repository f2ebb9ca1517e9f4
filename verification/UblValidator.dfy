/** The rules of the validator that read the document's lists, its cross-sum rules and its verdict. */
module UblValidator {
  import opened Options
  import opened Lists
  import opened Decimals

  datatype Severity = Fatal | Warning

  /** The rules modelled one by one; every other rule of the validator is `Other`. */
  datatype Rule =
    | R006 | R010 | R020 | R029 | R030 | R031 | R032 | R033 | R042 | R055 | R065 | R066 | R067 | G08
    | BR03 | BR44 | BR45 | DER014 | DER016 | DER022 | Other(name: string)

  datatype Issue = Issue(rule: Rule, severity: Severity)

  /** A rate that was absent or unreadable is NaN, which no comparison with 0 holds of. */
  datatype Tax = Tax(
    taxableAmount: real, taxAmount: real, category: string, rate: Num<real>, exemptionReason: bool, exemptionCode: bool)

  datatype Monetary = Monetary(
    lineExtensionAmount: real, taxExclusiveAmount: real, taxInclusiveAmount: real, payableAmount: real)

  /** A line: whether it has a name, and the codes and the amount the rules look at. */
  datatype DocLine = DocLine(named: bool, vatCategory: string, unitCode: string, lineExtensionAmount: real)

  datatype Allowance = Allowance(chargeIndicator: bool, amount: real, hasReason: bool, hasCategory: bool)

  /** The code lists, and the case folding of file names. */
  datatype Codes = Codes(
    vatCategories: set<string>, zeroRated: set<string>, units: set<string>, needsVatId: set<string>,
    lower: string -> string)

  /** What single-field rules found, phase group by phase group. */
  type Findings = seq<(string, Severity)>

  /** `hasTerms`: there is a due date or a payment terms note. */
  datatype Doc = Doc(
    vatBreakdown: Option<seq<Tax>>, monetaryTotal: Option<Monetary>, lines: seq<DocLine>,
    allowanceCharges: seq<Allowance>, filenames: seq<string>,
    hasSellerVatId: bool, hasDelivery: bool, hasTerms: bool,
    headerFindings: Findings, partyFindings: Findings, referenceFindings: Findings,
    termsFindings: Findings, paymentFindings: Findings, bankFindings: Findings)

  function Others(found: Findings): seq<Issue> {
    seq(|found|, i requires 0 <= i < |found| => Issue(Other(found[i].0), found[i].1))
  }

  function Check(fails: bool, rule: Rule, severity: Severity): seq<Issue> {
    if fails then [Issue(rule, severity)] else []
  }

  function Abs(x: real): real {
    if x < 0.0 then -x else x
  }

  /** The tolerance of the cross-sum rules, compared exactly. */
  predicate Apart(a: real, b: real) {
    Abs(a - b) > 0.01
  }

  // ----- the rules per list element

  /** `rate <= 0` */
  predicate NotPositive(rate: Num<real>) {
    rate.Fin? && rate.value <= 0.0
  }

  function VatIssues(codes: Codes, v: Tax): seq<Issue> {
    Check(v.category !in codes.vatCategories, R006, Fatal)
    + Check(v.category == "S" && NotPositive(v.rate), R065, Fatal)
    + Check(v.category in codes.zeroRated && v.rate != Fin(0.0), R066, Fatal)
    + Check(v.category == "AA" && NotPositive(v.rate), R067, Fatal)
  }

  function LineIssues(codes: Codes, l: DocLine): seq<Issue> {
    Check(!l.named, R010, Fatal)
    + Check(l.vatCategory != "" && l.vatCategory !in codes.vatCategories, R006, Fatal)
    + Check(l.unitCode != "" && l.unitCode !in codes.units, G08, Warning)
  }

  function AllowanceIssues(a: Allowance): seq<Issue> {
    Check(!a.hasReason, R055, Fatal) + Check(!a.hasCategory, R055, Fatal)
  }

  // ----- sums

  function Taxes(doc: Doc): seq<Tax> {
    match doc.vatBreakdown case None => [] case Some(v) => v
  }

  function VatSum(vats: seq<Tax>): real {
    SumBy((v: Tax) => v.taxAmount, vats)
  }

  function LineSum(lines: seq<DocLine>): real {
    SumBy((l: DocLine) => l.lineExtensionAmount, lines)
  }

  function AllowanceSum(list: seq<Allowance>): real {
    SumBy((a: Allowance) => if a.chargeIndicator then 0.0 else a.amount, list)
  }

  function ChargeSum(list: seq<Allowance>): real {
    SumBy((a: Allowance) => if a.chargeIndicator then a.amount else 0.0, list)
  }

  // ----- the phases, over the whole document

  predicate R033Fails(doc: Doc) {
    && Taxes(doc) != [] && doc.monetaryTotal.Some?
    && var mt := doc.monetaryTotal.value; Apart(mt.taxInclusiveAmount - mt.taxExclusiveAmount, VatSum(Taxes(doc)))
  }

  predicate R029Fails(doc: Doc) {
    && doc.monetaryTotal.Some? && doc.vatBreakdown.Some?
    && var mt := doc.monetaryTotal.value; Apart(mt.taxInclusiveAmount, mt.taxExclusiveAmount + VatSum(Taxes(doc)))
  }

  predicate R031Fails(doc: Doc) {
    && doc.monetaryTotal.Some? && doc.lines != []
    && Apart(doc.monetaryTotal.value.lineExtensionAmount, LineSum(doc.lines))
  }

  predicate R030Fails(doc: Doc) {
    doc.monetaryTotal.Some? && Apart(doc.monetaryTotal.value.payableAmount, doc.monetaryTotal.value.taxInclusiveAmount)
  }

  predicate HasPositive(list: seq<Allowance>) {
    exists a <- list :: a.amount > 0.0
  }

  predicate R032Fails(doc: Doc) {
    && doc.monetaryTotal.Some? && HasPositive(doc.allowanceCharges)
    && var mt := doc.monetaryTotal.value;
       Apart(mt.taxExclusiveAmount,
             mt.lineExtensionAmount - AllowanceSum(doc.allowanceCharges) + ChargeSum(doc.allowanceCharges))
  }

  /** Phase 9: the totals. */
  function TotalPhase(doc: Doc): seq<Issue> {
    Check(R029Fails(doc), R029, Fatal) + Check(R031Fails(doc), R031, Fatal) + Check(R030Fails(doc), R030, Warning)
  }

  /** Phase 22: what is to be paid has a due date or payment terms. */
  predicate R020Fails(doc: Doc) {
    doc.monetaryTotal.Some? && doc.monetaryTotal.value.payableAmount > 0.0 && !doc.hasTerms
  }

  /** Phase 11: no total is negative. */
  function SignPhase(doc: Doc): seq<Issue> {
    match doc.monetaryTotal
    case None => []
    case Some(mt) =>
      Check(mt.lineExtensionAmount < 0.0, BR03, Fatal) + Check(mt.taxExclusiveAmount < 0.0, BR03, Fatal)
      + Check(mt.taxInclusiveAmount < 0.0, BR03, Fatal)
  }

  function ExemptionIssues(v: Tax): seq<Issue> {
    Check(v.exemptionReason != v.exemptionCode, BR44, Fatal)
  }

  function BaseIssues(v: Tax): seq<Issue> {
    Check(v.taxableAmount < 0.0, BR45, Fatal)
  }

  function RateIssues(v: Tax): seq<Issue> {
    Check(v.rate.NaN?, DER014, Fatal)
  }

  predicate SellerIdMissing(codes: Codes, doc: Doc) {
    (exists v <- Taxes(doc) :: v.category in codes.needsVatId) && !doc.hasSellerVatId
  }

  predicate DeliveryMissing(doc: Doc) {
    (exists v <- Taxes(doc) :: v.category == "K") && !doc.hasDelivery
  }

  /** Two file names that are not empty and agree once case is folded. */
  predicate HasDuplicate(names: seq<string>) {
    exists i, j :: 0 <= i < j < |names| && names[i] == names[j] && names[i] != ""
  }

  function VatRules(codes: Codes): Tax -> seq<Issue> {
    v => VatIssues(codes, v)
  }

  function LineRules(codes: Codes): DocLine -> seq<Issue> {
    l => LineIssues(codes, l)
  }

  /** Phases 2 to 10. */
  function EarlyIssues(codes: Codes, doc: Doc): seq<Issue> {
    Others(doc.headerFindings) + FlatMap(VatRules(codes), Taxes(doc)) + Check(R033Fails(doc), R033, Fatal)
    + TotalPhase(doc) + FlatMap(LineRules(codes), doc.lines)
  }

  /** Phases 11 to 17. */
  function MiddleIssues(codes: Codes, doc: Doc): seq<Issue> {
    SignPhase(doc) + FlatMap(ExemptionIssues, Taxes(doc)) + FlatMap(BaseIssues, Taxes(doc))
    + Others(doc.partyFindings) + FlatMap(RateIssues, Taxes(doc)) + Others(doc.referenceFindings)
    + Check(SellerIdMissing(codes, doc), DER016, Fatal)
  }

  /** Phases 18 to 22. */
  function LateIssues(codes: Codes, doc: Doc): seq<Issue> {
    Others(doc.termsFindings) + Check(HasDuplicate(Map(codes.lower, doc.filenames)), DER022, Fatal)
    + Others(doc.paymentFindings) + Check(R020Fails(doc), R020, Fatal) + Check(R032Fails(doc), R032, Fatal)
    + Check(DeliveryMissing(doc), R042, Fatal) + FlatMap(AllowanceIssues, doc.allowanceCharges) + Others(doc.bankFindings)
  }

  function AllIssues(codes: Codes, doc: Doc): seq<Issue> {
    EarlyIssues(codes, doc) + MiddleIssues(codes, doc) + LateIssues(codes, doc)
  }

  predicate NoFatal(issues: seq<Issue>) {
    forall i <- issues :: i.severity == Warning
  }

  predicate Valid(codes: Codes, doc: Doc) {
    NoFatal(AllIssues(codes, doc))
  }

  // ----- the validator as it runs

  method CheckEach<T>(issuesOf: T -> seq<Issue>, items: seq<T>, before: seq<Issue>) returns (errors: seq<Issue>)
    ensures errors == before + FlatMap(issuesOf, items)
  {
    errors := before;
    for i := 0 to |items|
      invariant errors == before + FlatMap(issuesOf, items[..i])
    {
      assert items[..i + 1][..i] == items[..i];
      errors := errors + issuesOf(items[i]);
    }
    assert items[..|items|] == items;
  }

  /** DE-R-022: one pass with the set of names seen, stopping at the first repetition. */
  method CheckFilenames(names: seq<string>) returns (found: bool)
    ensures found <==> HasDuplicate(names)
  {
    var seen: set<string> := {};
    for i := 0 to |names|
      invariant seen == set j | 0 <= j < i && names[j] != "" :: names[j]
      invariant forall j, k :: 0 <= j < k < i ==> !(names[j] == names[k] && names[j] != "")
    {
      var fn := names[i];
      if fn != "" && fn in seen {
        return true;
      }
      if fn != "" {
        seen := seen + {fn};
      }
    }
    found := false;
  }

  method EarlyPhases(codes: Codes, doc: Doc) returns (errors: seq<Issue>)
    ensures errors == EarlyIssues(codes, doc)
  {
    hide VatRules, LineRules, Others, TotalPhase, Check, R033Fails, FlatMap, Taxes;
    errors := Others(doc.headerFindings);
    errors := CheckEach(VatRules(codes), Taxes(doc), errors);
    errors := errors + Check(R033Fails(doc), R033, Fatal);
    errors := errors + TotalPhase(doc);
    errors := CheckEach(LineRules(codes), doc.lines, errors);
  }

  method MiddlePhases(codes: Codes, doc: Doc) returns (errors: seq<Issue>)
    ensures errors == MiddleIssues(codes, doc)
  {
    hide ExemptionIssues, BaseIssues, RateIssues, Others, SignPhase, Check, FlatMap, SellerIdMissing, Taxes;
    errors := SignPhase(doc);
    errors := CheckEach(ExemptionIssues, Taxes(doc), errors);
    errors := CheckEach(BaseIssues, Taxes(doc), errors);
    errors := errors + Others(doc.partyFindings);
    errors := CheckEach(RateIssues, Taxes(doc), errors);
    errors := errors + Others(doc.referenceFindings);
    errors := errors + Check(SellerIdMissing(codes, doc), DER016, Fatal);
  }

  method LatePhases(codes: Codes, doc: Doc) returns (errors: seq<Issue>)
    ensures errors == LateIssues(codes, doc)
  {
    hide AllowanceIssues, Others, Check, Map, FlatMap, R020Fails, R032Fails, DeliveryMissing, HasDuplicate;
    errors := Others(doc.termsFindings);
    var duplicate := CheckFilenames(Map(codes.lower, doc.filenames));
    errors := errors + Check(duplicate, DER022, Fatal);
    errors := errors + Others(doc.paymentFindings);
    errors := errors + Check(R020Fails(doc), R020, Fatal);
    errors := errors + Check(R032Fails(doc), R032, Fatal);
    errors := errors + Check(DeliveryMissing(doc), R042, Fatal);
    errors := CheckEach(AllowanceIssues, doc.allowanceCharges, errors);
    errors := errors + Others(doc.bankFindings);
  }

  method ValidateUBL(codes: Codes, doc: Doc) returns (valid: bool, errors: seq<Issue>)
    ensures errors == AllIssues(codes, doc)
    ensures valid <==> Valid(codes, doc)
  {
    hide EarlyIssues, MiddleIssues, LateIssues;
    var early := EarlyPhases(codes, doc);
    var middle := MiddlePhases(codes, doc);
    var late := LatePhases(codes, doc);
    errors := early + middle + late;
    valid := NoFatal(errors);
  }
}
