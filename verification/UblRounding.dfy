/** How far rounding every figure to cents can pull apart sums that reconcile exactly. */
module UblRounding {
  import opened Options
  import opened Decimals
  import opened UblModel
  import opened UblGenerator
  import opened UblParser
  import opened UblRoundTrip
  import opened UblStability
  import opened UblValidator

  // ----- the parsed document as the validator sees it

  function TaxOf(v: ParsedVat): Tax
    requires NumericVat(v)
  {
    Tax(v.taxableAmount.value, v.taxAmount.value, JsText(v.category), v.rate,
      JsText(v.taxExemptionReason) != "", JsText(v.taxExemptionReasonCode) != "")
  }

  function DocLineOf(l: ParsedLine): DocLine
    requires NumericLine(l)
  {
    DocLine(JsText(l.name) != "", JsText(l.vatCategory), JsText(l.unitCode), l.lineExtensionAmount.value)
  }

  function TaxesOf(vats: seq<ParsedVat>): seq<Tax>
    requires forall v <- vats :: NumericVat(v)
  {
    if vats == [] then [] else TaxesOf(vats[..|vats| - 1]) + [TaxOf(vats[|vats| - 1])]
  }

  function DocLinesOf(lines: seq<ParsedLine>): seq<DocLine>
    requires forall l <- lines :: NumericLine(l)
  {
    if lines == [] then [] else DocLinesOf(lines[..|lines| - 1]) + [DocLineOf(lines[|lines| - 1])]
  }

  function MonetaryOf(t: ParsedTotals): Monetary
    requires NumericTotals(t)
  {
    Monetary(t.lineExtensionAmount.value, t.taxExclusiveAmount.value, t.taxInclusiveAmount.value, t.payableAmount.value)
  }

  /** The parsed amounts, beside whatever else (`rest`) the document says. */
  function DocOf(p: Parsed, rest: Doc): Doc
    requires Numeric(p)
  {
    rest.(vatBreakdown := match p.taxTotal { case None => None case Some(t) => Some(TaxesOf(t.vatBreakdown)) },
          monetaryTotal := match p.monetaryTotal { case None => None case Some(t) => Some(MonetaryOf(t)) },
          lines := DocLinesOf(p.lines))
  }

  /** The document the validator sees once an invoice was generated and parsed. */
  function Received(data: Invoice, creditNote: bool, rest: Doc): Doc {
    NormalFormNumeric(data, creditNote);
    DocOf(NormalForm(data, creditNote), rest)
  }

  lemma ReceivedIsParsed(data: Invoice, creditNote: bool, rest: Doc)
    requires PlainCurrency(data)
    ensures var p := Parse(BuildDocument(data, creditNote)); p.Some? && Numeric(p.value) && Received(data, creditNote, rest) == DocOf(p.value, rest)
  {
    hide Parse, BuildDocument, NormalForm, Numeric, DocOf, PlainCurrency;
    ParseGenerated(data, creditNote);
    NormalFormNumeric(data, creditNote);
  }

  // ----- sums of rounded figures

  function Amounts(lines: seq<Line>): seq<real> {
    if lines == [] then [] else Amounts(lines[..|lines| - 1]) + [lines[|lines| - 1].lineExtensionAmount]
  }

  lemma ReceivedLine(l: Line)
    ensures NumericLine(NormalLine(l)) && DocLineOf(NormalLine(l)).lineExtensionAmount == Cents(l.lineExtensionAmount) as real / 100.0
  {
    hide ParseInt, JsText, Cents;
    LineAgain(l);
  }

  lemma LineSumStep(docs: seq<DocLine>, d: DocLine)
    ensures LineSum(docs + [d]) == LineSum(docs) + d.lineExtensionAmount
  {
    assert (docs + [d])[..|docs|] == docs;
  }

  lemma SumCentsStep(xs: seq<real>, x: real)
    ensures SumCents(xs + [x]) == SumCents(xs) + Cents(x)
  {
    hide Cents;
    assert (xs + [x])[..|xs|] == xs;
  }

  lemma {:induction false} LinesNumeric(lines: seq<Line>)
    ensures forall l <- NormalLines(lines) :: NumericLine(l)
  {
    hide NormalLine, NumericLine;
    forall l | l in NormalLines(lines) ensures NumericLine(l) {
      var i :| 0 <= i < |lines| && l == NormalLine(lines[i]);
      ReceivedLine(lines[i]);
    }
  }

  lemma {:induction false} ReceivedLines(lines: seq<Line>)
    ensures (forall l <- NormalLines(lines) :: NumericLine(l))
    ensures var docs := DocLinesOf(NormalLines(lines)); |docs| == |lines| && LineSum(docs) == SumCents(Amounts(lines)) as real / 100.0
  {
    hide NormalLine, NumericLine, DocLineOf, LineSum, SumCents, Cents;
    LinesNumeric(lines);
    if lines == [] {
      NothingReceived();
    } else {
      var n := |lines| - 1;
      assert NormalLines(lines)[..n] == NormalLines(lines[..n]);
      ReceivedLines(lines[..n]);
      ReceivedLine(lines[n]);
      LineSumStep(DocLinesOf(NormalLines(lines[..n])), DocLineOf(NormalLine(lines[n])));
      SumCentsStep(Amounts(lines[..n]), lines[n].lineExtensionAmount);
    }
  }

  lemma NothingReceived()
    ensures LineSum([]) == 0.0 && SumCents([]) == 0
  {
  }

  lemma {:induction false} ReceivedTaxes(vats: seq<Vat>)
    ensures forall v <- NormalVats(vats) :: NumericVat(v)
    ensures var docs := TaxesOf(NormalVats(vats)); |docs| == |vats| && VatSum(docs) == SumCents(TaxAmounts(vats)) as real / 100.0
  {
    forall v | v in NormalVats(vats) ensures NumericVat(v) {
      var i :| 0 <= i < |vats| && v == NormalVat(vats[i]);
      VatAgain(vats[i]);
    }
    if vats != [] {
      var n := |vats| - 1;
      assert NormalVats(vats)[..n] == NormalVats(vats[..n]);
      assert TaxAmounts(vats)[..n] == TaxAmounts(vats[..n]);
      ReceivedTaxes(vats[..n]);
    }
  }

  /** Rounding n non-negative figures moves their sum by at most n halves of a cent, downwards by less. */
  lemma {:induction false} SumOfErrors(xs: seq<real>)
    requires forall x <- xs :: x >= 0.0
    ensures Sum(xs) >= 0.0
    ensures var e := SumCents(xs) as real - Sum(xs) * 100.0; e <= |xs| as real * 0.5 && (xs == [] ==> e == 0.0) && (xs != [] ==> -(|xs| as real) * 0.5 < e)
  {
    if xs != [] {
      var n := |xs| - 1;
      assert xs[n] in xs;
      forall x | x in xs[..n] ensures x >= 0.0 { assert x in xs; }
      SumOfErrors(xs[..n]);
      CentsNear(xs[n]);
    }
  }

  /** A gap of whole cents, given the two errors it is made of. */
  lemma GapBound(total: real, xs: seq<real>)
    requires (forall x <- xs :: x >= 0.0) && total == Sum(xs) && xs != []
    ensures -(|xs| + 1) < 2 * (Cents(total) - SumCents(xs)) < |xs| + 1
  {
    SumOfErrors(xs);
    CentsNear(total);
  }

  lemma GapBoundTwo(inclusive: real, exclusive: real, xs: seq<real>)
    requires (forall x <- xs :: x >= 0.0) && exclusive >= 0.0 && inclusive == exclusive + Sum(xs) && xs != []
    ensures -(|xs| + 2) < 2 * (Cents(inclusive) - Cents(exclusive) - SumCents(xs)) < |xs| + 2
  {
    SumOfErrors(xs);
    CentsNear(inclusive);
    CentsNear(exclusive);
  }

  // ----- the rules on generated documents

  /** The R031 gap in cents. */
  function LineGap(data: Invoice): int
    requires data.monetaryTotal.Some?
  {
    Cents(data.monetaryTotal.value.lineExtensionAmount) - SumCents(Amounts(data.lines))
  }

  /** The R029 and R033 gap in cents. */
  function VatGap(data: Invoice): int
    requires data.monetaryTotal.Some?
  {
    var t := data.monetaryTotal.value;
    Cents(t.taxInclusiveAmount) - Cents(t.taxExclusiveAmount) - SumCents(TaxAmounts(data.vatBreakdown))
  }

  /** After generating and parsing, the cross-sum rules fire exactly when the gap exceeds one cent. */
  lemma RulesSeeTheGap(data: Invoice, creditNote: bool, rest: Doc)
    requires PlainCurrency(data) && data.monetaryTotal.Some?
    ensures var doc := Received(data, creditNote, rest);
      && (R031Fails(doc) <==> data.lines != [] && (LineGap(data) > 1 || LineGap(data) < -1))
      && (R029Fails(doc) <==> data.vatBreakdown != [] && (VatGap(data) > 1 || VatGap(data) < -1))
      && (R033Fails(doc) <==> data.vatBreakdown != [] && (VatGap(data) > 1 || VatGap(data) < -1))
  {
    hide NormalHeader, NormalParty, NormalContact, NormalPayment, NormalLines, NormalVats, DocLinesOf, TaxesOf, LineSum, VatSum, SumCents, Amounts, TaxAmounts, Cents, Sum;
    NormalFormNumeric(data, creditNote);
    ReceivedLines(data.lines);
    ReceivedTaxes(data.vatBreakdown);
    var t := data.monetaryTotal.value;
    CentDistance(Cents(t.lineExtensionAmount), SumCents(Amounts(data.lines)));
    CentDistance(Cents(t.taxInclusiveAmount) - Cents(t.taxExclusiveAmount), SumCents(TaxAmounts(data.vatBreakdown)));
    CentDistance(Cents(t.taxInclusiveAmount), Cents(t.taxExclusiveAmount) + SumCents(TaxAmounts(data.vatBreakdown)));
  }

  lemma CentDistance(a: int, b: int)
    ensures Apart(a as real / 100.0, b as real / 100.0) <==> a - b > 1 || a - b < -1
  {
    assert a as real / 100.0 - b as real / 100.0 == (a - b) as real / 100.0;
  }

  predicate NonNegative(data: Invoice) {
    && data.monetaryTotal.Some?
    && data.monetaryTotal.value.taxExclusiveAmount >= 0.0
    && (forall l <- data.lines :: l.lineExtensionAmount >= 0.0)
    && (forall v <- data.vatBreakdown :: v.taxAmount >= 0.0)
  }

  /** The figures agree before any rounding. */
  predicate Reconciles(data: Invoice)
    requires data.monetaryTotal.Some?
  {
    var t := data.monetaryTotal.value;
    t.lineExtensionAmount == Sum(Amounts(data.lines)) && t.taxInclusiveAmount == t.taxExclusiveAmount + Sum(TaxAmounts(data.vatBreakdown))
  }

  lemma {:induction false} AmountsOf(lines: seq<Line>)
    requires forall l <- lines :: l.lineExtensionAmount >= 0.0
    ensures |Amounts(lines)| == |lines| && forall x <- Amounts(lines) :: x >= 0.0
  {
    if lines != [] {
      assert lines[|lines| - 1] in lines;
      AmountsOf(lines[..|lines| - 1]);
    }
  }

  /**
   * Figures that reconcile exactly: with n lines the R031 gap is strictly below (n + 1) / 2 cents, with m subtotals
   * the R029 and R033 gap strictly below (m + 2) / 2 cents.
   */
  lemma RoundingBound(data: Invoice)
    requires NonNegative(data) && Reconciles(data)
    ensures data.lines != [] ==> -(|data.lines| + 1) < 2 * LineGap(data) < |data.lines| + 1
    ensures data.vatBreakdown != [] ==> -(|data.vatBreakdown| + 2) < 2 * VatGap(data) < |data.vatBreakdown| + 2
  {
    var t := data.monetaryTotal.value;
    AmountsOf(data.lines);
    if data.lines != [] {
      GapBound(t.lineExtensionAmount, Amounts(data.lines));
    }
    forall x | x in TaxAmounts(data.vatBreakdown) ensures x >= 0.0 {
      var i :| 0 <= i < |data.vatBreakdown| && x == data.vatBreakdown[i].taxAmount;
      assert data.vatBreakdown[i] in data.vatBreakdown;
    }
    if data.vatBreakdown != [] {
      GapBoundTwo(t.taxInclusiveAmount, t.taxExclusiveAmount, TaxAmounts(data.vatBreakdown));
    }
  }

  /** With at most three lines and two subtotals no cross-sum rule fires on what was generated. */
  lemma SmallInvoicesPass(data: Invoice, creditNote: bool, rest: Doc)
    requires PlainCurrency(data) && NonNegative(data) && Reconciles(data)
    ensures |data.lines| <= 3 ==> !R031Fails(Received(data, creditNote, rest))
    ensures |data.vatBreakdown| <= 2 ==> !R029Fails(Received(data, creditNote, rest)) && !R033Fails(Received(data, creditNote, rest))
  {
    hide R031Fails, R029Fails, R033Fails, Received, LineGap, VatGap;
    RoundingBound(data);
    RulesSeeTheGap(data, creditNote, rest);
  }

  // ----- the bounds are tight

  function HalfCentLine(): Line {
    Line("1", 1.0, "C62", 0.005, "Item", "", "", "", "S", 20.0, 0.005)
  }

  function SmallTax(): Vat {
    Vat(0.03, 0.006, "S", 20.0)
  }

  /** Four lines of half a cent (two cents in all, four once rounded) and three taxes of 0.6 cents. */
  function TightInvoice(): Invoice {
    var l, v := HalfCentLine(), SmallTax();
    UblModel.Invoice.Invoice("1", "2026-01-01", "", "380", "EUR", "", None, None, None, [v, v, v],
      Some(Totals(0.02, 0.005, 0.023, 0.0, 0.0, 0.023)), [l, l, l, l])
  }

  lemma TightFires(creditNote: bool, rest: Doc)
    ensures PlainCurrency(TightInvoice()) && NonNegative(TightInvoice()) && Reconciles(TightInvoice())
    ensures LineGap(TightInvoice()) == -2 && VatGap(TightInvoice()) == -2
    ensures var doc := Received(TightInvoice(), creditNote, rest); R031Fails(doc) && R029Fails(doc) && R033Fails(doc)
  {
    hide R031Fails, R029Fails, R033Fails, Received;
    var data := TightInvoice();
    TightLines();
    TightTaxes();
    RulesSeeTheGap(data, creditNote, rest);
  }

  lemma TightLines()
    ensures Sum(Amounts(TightInvoice().lines)) == 0.02 && SumCents(Amounts(TightInvoice().lines)) == 4
  {
    var l, x := HalfCentLine(), 0.005;
    assert [l, l, l, l][..3] == [l, l, l] && [l, l, l][..2] == [l, l] && [l, l][..1] == [l] && [l][..0] == [];
    assert Amounts([l]) == [x] && Amounts([l, l]) == [x, x] && Amounts([l, l, l]) == [x, x, x] && Amounts([l, l, l, l]) == [x, x, x, x];
    assert [x, x, x, x][..3] == [x, x, x];
    SumThree(x);
    assert Cents(x) == 1;
  }

  lemma SumThree(x: real)
    ensures Sum([x, x, x]) == 3.0 * x && SumCents([x, x, x]) == 3 * Cents(x)
  {
    hide Cents;
    assert [x, x, x][..2] == [x, x] && [x, x][..1] == [x] && [x][..0] == [];
    assert Sum([x]) == Sum([]) + x;
    assert Sum([x, x]) == Sum([x]) + x;
    assert SumCents([x]) == Cents(x) && SumCents([x, x]) == 2 * Cents(x);
  }

  lemma TightTaxes()
    ensures Sum(TaxAmounts(TightInvoice().vatBreakdown)) == 0.018 && SumCents(TaxAmounts(TightInvoice().vatBreakdown)) == 3
  {
    var v := SmallTax();
    assert TaxAmounts([v, v, v]) == [0.006, 0.006, 0.006];
    SumThree(0.006);
    assert Cents(0.006) == 1;
  }
}
