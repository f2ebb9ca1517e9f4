/** Feeding a parsed invoice back to the generator: what a second pass keeps, and when. */
module UblStability {
  import opened Options
  import opened Strings
  import opened XmlText
  import opened XmlTree
  import opened Decimals
  import opened UblModel
  import opened UblGenerator
  import opened UblParser
  import opened UblRoundTrip
  import opened UblAccounts

  // ----- the parsed record as generator input

  function AsParty(p: ParsedParty): Party {
    Party(JsText(p.endpointSchemeID), JsText(p.endpointID), JsText(p.name),
      JsText(p.streetName), JsText(p.cityName), JsText(p.postalZone), JsText(p.countryCode),
      JsText(p.companyID), JsText(p.vatID), JsText(p.companyIDSchemeID), JsText(p.legalRegistrationName), None)
  }

  /** The parser puts only these three fields under `payment`. */
  function AsPayment(p: ParsedPayment): Payment {
    Payment(JsText(p.meansCode), "", None, "", JsText(p.iban), JsText(p.bic), [], [], "", "", "", "")
  }

  predicate NumericVat(v: ParsedVat) {
    v.taxableAmount.Fin? && v.taxAmount.Fin? && v.rate.Fin?
  }

  predicate NumericLine(l: ParsedLine) {
    l.quantity.Fin? && l.lineExtensionAmount.Fin? && l.vatRate.Fin? && l.priceAmount.Fin?
  }

  predicate NumericTotals(t: ParsedTotals) {
    && t.lineExtensionAmount.Fin? && t.taxExclusiveAmount.Fin? && t.taxInclusiveAmount.Fin?
    && t.allowanceTotalAmount.Fin? && t.chargeTotalAmount.Fin? && t.payableAmount.Fin?
  }

  predicate NumericTax(t: Option<ParsedTaxTotal>) {
    t.Some? ==> forall v <- t.value.vatBreakdown :: NumericVat(v)
  }

  /** No amount was read as NaN. */
  predicate Numeric(p: Parsed) {
    && NumericTax(p.taxTotal)
    && (p.monetaryTotal.Some? ==> NumericTotals(p.monetaryTotal.value))
    && (forall l <- p.lines :: NumericLine(l))
  }

  function AsVat(v: ParsedVat): Vat
    requires NumericVat(v)
  {
    Vat(v.taxableAmount.value, v.taxAmount.value, JsText(v.category), v.rate.value)
  }

  function AsTotals(t: ParsedTotals): Totals
    requires NumericTotals(t)
  {
    Totals(t.lineExtensionAmount.value, t.taxExclusiveAmount.value, t.taxInclusiveAmount.value,
      t.allowanceTotalAmount.value, t.chargeTotalAmount.value, t.payableAmount.value)
  }

  function IdText(id: Num<int>): string {
    match id case NaN => "NaN" case Fin(n) => IntText(n)
  }

  function AsLine(l: ParsedLine): Line
    requires NumericLine(l)
  {
    Line(IdText(l.id), l.quantity.value, JsText(l.unitCode), l.lineExtensionAmount.value,
      JsText(l.name), "", JsText(l.description), JsText(l.countryOfOrigin),
      JsText(l.vatCategory), l.vatRate.value, l.priceAmount.value)
  }

  function AsVats(t: Option<ParsedTaxTotal>): seq<Vat>
    requires NumericTax(t)
  {
    match t
    case None => []
    case Some(x) => seq(|x.vatBreakdown|, i requires 0 <= i < |x.vatBreakdown| => AsVat(x.vatBreakdown[i]))
  }

  function AsInput(p: Parsed): Invoice
    requires Numeric(p)
  {
    UblModel.Invoice.Invoice(JsText(p.header.id), JsText(p.header.issueDate), JsText(p.header.dueDate), JsText(p.header.invoiceTypeCode),
      JsText(p.header.currencyCode), JsText(p.header.buyerReference),
      match p.seller { case None => None case Some(x) => Some(AsParty(x)) },
      match p.buyer { case None => None case Some(x) => Some(AsParty(x)) },
      match p.payment { case None => None case Some(x) => Some(AsPayment(x)) },
      AsVats(p.taxTotal),
      match p.monetaryTotal { case None => None case Some(t) => Some(AsTotals(t)) },
      seq(|p.lines|, i requires 0 <= i < |p.lines| => AsLine(p.lines[i])))
  }

  lemma NormalFormNumeric(data: Invoice, creditNote: bool)
    ensures Numeric(NormalForm(data, creditNote))
  {
    hide NormalHeader, NormalParty, NormalContact, NormalPayment, NormalVat, NormalLine;
    var n := NormalForm(data, creditNote);
    forall v | data.vatBreakdown != [] && v in NormalVats(data.vatBreakdown) ensures NumericVat(v) {
      var i :| 0 <= i < |data.vatBreakdown| && v == NormalVat(data.vatBreakdown[i]);
      VatAgain(data.vatBreakdown[i]);
    }
    forall l | l in n.lines ensures NumericLine(l) {
      var i :| 0 <= i < |data.lines| && l == NormalLine(data.lines[i]);
      LineAgain(data.lines[i]);
    }
  }

  /** What parsing gives after the parsed record was regenerated. */
  function NextPass(p: Parsed): Parsed
    requires Numeric(p)
  {
    NormalForm(AsInput(p), p.header.isCreditNote)
  }

  lemma NextPassIsReparse(p: Parsed)
    requires Numeric(p) && PlainCurrency(AsInput(p))
    ensures Parse(BuildDocument(AsInput(p), p.header.isCreditNote)) == Some(NextPass(p))
  {
    hide AsInput, BuildDocument, Parse, NormalForm, PlainCurrency;
    ParseGenerated(AsInput(p), p.header.isCreditNote);
  }

  lemma NextPassNumeric(p: Parsed)
    requires Numeric(p)
    ensures Numeric(NextPass(p))
  {
    hide AsInput, NormalForm, Numeric;
    NormalFormNumeric(AsInput(p), p.header.isCreditNote);
  }

  /** The currency that was read is one that can be written again. */
  lemma PlainStays(data: Invoice, creditNote: bool)
    requires PlainCurrency(data)
    ensures Numeric(NormalForm(data, creditNote)) && PlainCurrency(AsInput(NormalForm(data, creditNote)))
  {
    hide NormalParty, NormalContact, NormalPayment, NormalTaxTotal, NormalTotals, NormalLine, AsVats, AsParty, AsPayment, AsTotals, AsLine, Trim;
    NormalFormNumeric(data, creditNote);
    TrimWithin(Or(data.currencyCode, "EUR"));
    assert MarkFree("EUR");
  }

  lemma PlainNext(p: Parsed)
    requires Numeric(p) && PlainCurrency(AsInput(p))
    ensures Numeric(NextPass(p)) && PlainCurrency(AsInput(NextPass(p)))
  {
    hide AsInput, NormalForm, Numeric, PlainCurrency;
    PlainStays(AsInput(p), p.header.isCreditNote);
  }

  // ----- single fields

  lemma CodeFixed()
    ensures Trim("9914") == "9914" && Trim("SK") == "SK" && Trim("380") == "380" && Trim("EUR") == "EUR"
    ensures Trim("C62") == "C62" && Trim("30") == "30"
  {
    TrimFixed("9914");
    TrimFixed("SK");
    TrimFixed("380");
    TrimFixed("EUR");
    TrimFixed("C62");
    TrimFixed("30");
  }

  lemma HeaderAgain(data: Invoice, creditNote: bool)
    ensures var p := NormalForm(data, creditNote); Numeric(p) && NextPass(p).header == p.header
  {
    hide NormalParty, NormalContact, NormalPayment, NormalTaxTotal, NormalTotals, NormalLines, AsVats, AsParty, AsPayment, AsTotals, Trim;
    NormalFormNumeric(data, creditNote);
    CodeFixed();
    TrimTwice(data.id);
    TrimTwice(data.issueDate);
    TrimTwice(data.dueDate);
    TrimTwice(data.invoiceTypeCode);
    TrimTwice(Or(data.currencyCode, "EUR"));
    TrimTwice(data.buyerReference);
  }

  /** A field that is not empty but trims to nothing. */
  predicate Blank(s: string) {
    s != "" && Trim(s) == ""
  }

  /** No defaulted field is blank, and a buyer has no scheme for a company id that will turn into a VAT id. */
  predicate Settled(p: Party, isBuyer: bool) {
    && !Blank(p.endpointSchemeID) && !Blank(p.countryCode)
    && (Blank(p.legalRegistrationName) ==> Trim(p.name) == "")
    && (isBuyer && p.companyID != "" && p.vatID == "" ==> Trim(p.companyIDSchemeID) == "")
  }

  // ----- payment

  /** Nothing but code, IBAN and BIC, which are all that the parsed payment keeps, and no blank in place of a default. */
  predicate KeptPayment(p: Payment) {
    && !Blank(p.meansCode) && (Blank(p.iban) ==> Trim(p.bic) == "") && Trim(p.note) == "" && Trim(p.debitedAccountIBAN) == ""
    && Trim(p.cardAccount) == "" && (p.cardAccount != "" ==> Trim(p.cardHolderName) == "" && Trim(p.cardBrand) == "")
    && BlankAccounts(p)
  }

  /** Every IBAN is blank, and the BIC at the first place of each. */
  predicate BlankAccounts(p: Payment) {
    forall i :: 0 <= i < |p.creditTransferIBANs| && NewAt(p.creditTransferIBANs, i) ==>
      Trim(p.creditTransferIBANs[i]) == "" && (i < |p.creditTransferBICs| ==> Trim(p.creditTransferBICs[i]) == "")
  }

  lemma {:induction false} NothingTruthy(items: seq<Js>)
    ensures OnlyTruthy(items) == [] <==> forall v <- items :: !Truthy(v)
  {
    hide Truthy;
    if items != [] {
      var n := |items| - 1;
      NothingTruthy(items[..n]);
      assert items == items[..n] + [items[n]];
    }
  }

  lemma {:induction false} AccountsAt(p: Payment, n: nat)
    requires n <= |p.creditTransferIBANs|
    ensures |AccountIbans(p, n)| == |AccountBics(p, n)| == n
    ensures forall i :: 0 <= i < n ==> AccountIbans(p, n)[i] == Trimmed(p.creditTransferIBANs[i])
    ensures forall i :: 0 <= i < n ==> AccountBics(p, n)[i] == Trimmed(BicFor(p, p.creditTransferIBANs[i]))
  {
    hide Trimmed, BicFor;
    if n > 0 {
      AccountsAt(p, n - 1);
    }
  }

  predicate Accountless(p: Payment) {
    OnlyTruthy(AccountIbans(p, |p.creditTransferIBANs|)) == [] && OnlyTruthy(AccountBics(p, |p.creditTransferIBANs|)) == []
  }

  lemma BlankBics(p: Payment)
    ensures BlankAccounts(p) <==> forall iban <- p.creditTransferIBANs :: Trim(iban) == "" && Trim(BicFor(p, iban)) == ""
  {
    hide Trim;
    TrimNothing();
    if BlankAccounts(p) {
      forall iban | iban in p.creditTransferIBANs ensures Trim(iban) == "" && Trim(BicFor(p, iban)) == "" {
        var i :| 0 <= i < |p.creditTransferIBANs| && p.creditTransferIBANs[i] == iban;
        FirstPlace(p.creditTransferIBANs, i);
      }
    }
    if forall iban <- p.creditTransferIBANs :: Trim(iban) == "" && Trim(BicFor(p, iban)) == "" {
      forall i | 0 <= i < |p.creditTransferIBANs| && NewAt(p.creditTransferIBANs, i)
        ensures Trim(p.creditTransferIBANs[i]) == "" && (i < |p.creditTransferBICs| ==> Trim(p.creditTransferBICs[i]) == "")
      {
        assert p.creditTransferIBANs[i] in p.creditTransferIBANs;
        FirstPlace(p.creditTransferIBANs, i);
        assert IndexOf(p.creditTransferIBANs, p.creditTransferIBANs[i]) == i;
      }
    }
  }

  /** No account is read at all when every IBAN and every BIC is blank. */
  lemma NoAccountsRead(p: Payment)
    ensures Accountless(p) <==> BlankAccounts(p)
  {
    hide Trim, BicFor, OnlyTruthy, AccountIbans, AccountBics;
    var n := |p.creditTransferIBANs|;
    var ibans, bics := AccountIbans(p, n), AccountBics(p, n);
    AccountsAt(p, n);
    NothingTruthy(ibans);
    NothingTruthy(bics);
    if (forall v <- ibans :: !Truthy(v)) && forall v <- bics :: !Truthy(v) {
      forall iban | iban in p.creditTransferIBANs ensures Trim(iban) == "" && Trim(BicFor(p, iban)) == "" {
        var i :| 0 <= i < n && p.creditTransferIBANs[i] == iban;
        assert ibans[i] in ibans && bics[i] in bics;
      }
    }
    BlankBics(p);
  }

  /** A payment survives a second pass exactly when code, IBAN and BIC are all there is to it. */
  lemma PaymentAgain(p: Payment)
    ensures NormalPayment(AsPayment(NormalPayment(p))) == NormalPayment(p) <==> KeptPayment(p)
  {
    hide Trim, BicFor, OnlyTruthy, AccountIbans, AccountBics;
    CodeFixed();
    assert Trim("") == "" by {
      TrimFixed("");
    }
    TrimTwice(Or(p.meansCode, "30"));
    TrimTwice(p.iban);
    TrimTwice(p.bic);
    NoAccountsRead(p);
    NoAccountsRead(AsPayment(NormalPayment(p)));
  }

  /** A party survives a second pass exactly when it is settled. */
  lemma PartyAgain(p: Party, isBuyer: bool)
    ensures NormalParty(AsParty(NormalParty(p, isBuyer)), isBuyer) == NormalParty(p, isBuyer) <==> Settled(p, isBuyer)
  {
    hide Trim;
    CodeFixed();
    assert Trim("") == "" by {
      TrimFixed("");
    }
    TrimTwice(p.endpointID);
    TrimTwice(Or(p.endpointSchemeID, "9914"));
    TrimTwice(p.name);
    TrimTwice(Or(p.legalRegistrationName, p.name));
    TrimTwice(Or(p.companyID, p.vatID));
    TrimTwice(p.streetName);
    TrimTwice(p.cityName);
    TrimTwice(p.postalZone);
    TrimTwice(Or(p.countryCode, "SK"));
  }

  lemma LineIdAgain(id: Num<int>)
    ensures ParseInt(Or(Trim(IdText(id)), "0")) == id
  {
    match id
    case NaN =>
      TrimFixed("NaN");
      assert DigitRun("NaN") == 0;
    case Fin(n) =>
      var d := DigitsOf(if n < 0 then -n else n);
      assert d[0] in d && d[|d| - 1] in d;
      DigitPlain(d[0]);
      DigitPlain(d[|d| - 1]);
      TrimFixed(IntText(n));
      ParseIntText(n);
  }

  lemma LineAgain(l: Line)
    ensures NumericLine(NormalLine(l)) && NormalLine(AsLine(NormalLine(l))) == NormalLine(l)
  {
    hide Trim, ParseInt, IdText, Round2;
    CodeFixed();
    LineIdAgain(ParseInt(Or(Trim(l.id), "0")));
    assert Trim("") == "" by {
      TrimFixed("");
    }
    TrimTwice(Or(l.unitCode, "C62"));
    TrimTwice(Or(l.name, l.itemName));
    TrimTwice(l.description);
    TrimTwice(l.vatCategory);
    RoundTwice(l.quantity);
    RoundTwice(l.lineExtensionAmount);
    RoundTwice(l.vatRate);
    RoundTwice(l.priceAmount);
  }

  lemma VatAgain(v: Vat)
    ensures NumericVat(NormalVat(v)) && NormalVat(AsVat(NormalVat(v))) == NormalVat(v)
  {
    hide Trim, Round2;
    TrimTwice(v.category);
    RoundTwice(v.taxableAmount);
    RoundTwice(v.taxAmount);
    RoundTwice(v.rate);
  }

  lemma TotalsNumeric(t: Totals)
    ensures NumericTotals(NormalTotals(t))
  {
  }

  lemma TotalsAgain(t: Totals)
    ensures NormalTotals(AsTotals(NormalTotals(t))) == NormalTotals(t)
  {
    hide Round2;
    RoundTwice(t.lineExtensionAmount);
    RoundTwice(t.taxExclusiveAmount);
    RoundTwice(t.taxInclusiveAmount);
    RoundTwice(t.allowanceTotalAmount);
    RoundTwice(t.chargeTotalAmount);
    RoundTwice(t.payableAmount);
  }

  // ----- whole documents

  lemma LinesAgain(data: Invoice, creditNote: bool)
    ensures var p := NormalForm(data, creditNote); Numeric(p) && NextPass(p).lines == p.lines
  {
    hide NormalHeader, NormalParty, NormalContact, NormalPayment, NormalTaxTotal, NormalTotals, NormalLine, AsLine, AsVats, AsParty, AsPayment, AsTotals;
    NormalFormNumeric(data, creditNote);
    var p := NormalForm(data, creditNote);
    forall i | 0 <= i < |data.lines| ensures NextPass(p).lines[i] == p.lines[i] {
      LineAgain(data.lines[i]);
    }
  }

  function Rounded(xs: seq<real>): seq<real> {
    seq(|xs|, i requires 0 <= i < |xs| => Round2(xs[i]))
  }

  lemma {:induction false} RoundedSum(xs: seq<real>)
    ensures Round2(Sum(Rounded(xs))) == Sum(Rounded(xs))
    ensures Sum(Rounded(xs)) == (SumCents(xs) as real) / 100.0
  {
    if xs != [] {
      var n := |xs| - 1;
      RoundedSum(xs[..n]);
      assert Rounded(xs)[..n] == Rounded(xs[..n]);
    }
    CentsOfCents(SumCents(xs));
  }

  function SumCents(xs: seq<real>): int {
    if xs == [] then 0 else SumCents(xs[..|xs| - 1]) + Cents(xs[|xs| - 1])
  }

  lemma VatsAgain(vats: seq<Vat>)
    ensures NumericTax(NormalTaxTotal(vats))
    ensures NormalVats(AsVats(NormalTaxTotal(vats))) == NormalVats(vats)
    ensures TaxAmounts(AsVats(NormalTaxTotal(vats))) == Rounded(TaxAmounts(vats))
  {
    hide NormalVat, Round2;
    forall i | 0 <= i < |vats| ensures NumericVat(NormalVat(vats[i])) && NormalVat(AsVat(NormalVat(vats[i]))) == NormalVat(vats[i])
      && AsVat(NormalVat(vats[i])).taxAmount == Round2(vats[i].taxAmount)
    {
      VatAgain(vats[i]);
      VatTax(vats[i]);
    }
    assert NormalVats(AsVats(NormalTaxTotal(vats))) == NormalVats(vats);
    assert TaxAmounts(AsVats(NormalTaxTotal(vats))) == Rounded(TaxAmounts(vats));
  }

  lemma VatTax(v: Vat)
    ensures NumericVat(NormalVat(v)) && AsVat(NormalVat(v)).taxAmount == Round2(v.taxAmount)
  {
  }

  /**
   * A second pass over a generated document changes nothing in the header, the VAT breakdown, the totals and the lines; a
   * party or a payment stays exactly when it is settled; the seller's contact is gone; the declared VAT total becomes the
   * sum of the rounded subtotals.
   */
  lemma SecondPass(data: Invoice, creditNote: bool)
    requires PlainCurrency(data)
    ensures var p := NormalForm(data, creditNote); Numeric(p) && var q := NextPass(p);
      && Parse(BuildDocument(AsInput(p), creditNote)) == Some(q)
      && q.header == p.header && q.lines == p.lines && q.monetaryTotal == p.monetaryTotal
      && (q.seller == p.seller <==> (data.seller.Some? ==> Settled(data.seller.value, false)))
      && (q.buyer == p.buyer <==> (data.buyer.Some? ==> Settled(data.buyer.value, true)))
      && (q.payment == p.payment <==> (data.payment.Some? ==> KeptPayment(data.payment.value)))
      && q.sellerContact == None
      && (q.taxTotal.Some? <==> p.taxTotal.Some?)
      && (p.taxTotal.Some? ==>
            && q.taxTotal.value.vatBreakdown == p.taxTotal.value.vatBreakdown
            && q.taxTotal.value.vatTotal == Fin(Sum(Rounded(TaxAmounts(data.vatBreakdown)))))
  {
    hide NormalHeader, NormalContact, NormalPayment, NormalParty, NormalTotals, NormalLines, NormalVats, AsVats, AsParty, AsPayment, AsTotals, AsLine,
      Settled, KeptPayment, TaxAmounts, Rounded, Round2, Sum, Parse, BuildDocument, PlainCurrency;
    var p := NormalForm(data, creditNote);
    PlainStays(data, creditNote);
    CreditNoteKept(data, creditNote);
    NextPassIsReparse(p);
    HeaderAgain(data, creditNote);
    LinesAgain(data, creditNote);
    ContactGone(p.seller);
    if data.seller.Some? {
      PartyAgain(data.seller.value, false);
    }
    if data.buyer.Some? {
      PartyAgain(data.buyer.value, true);
    }
    if data.payment.Some? {
      PaymentAgain(data.payment.value);
    }
    if data.monetaryTotal.Some? {
      TotalsAgain(data.monetaryTotal.value);
    }
    TaxAgain(data.vatBreakdown);
  }

  lemma TaxAgain(vats: seq<Vat>)
    ensures NumericTax(NormalTaxTotal(vats))
    ensures NormalTaxTotal(AsVats(NormalTaxTotal(vats))) ==
      if vats == [] then None else Some(ParsedTaxTotal(Fin(Sum(Rounded(TaxAmounts(vats)))), NormalVats(vats)))
  {
    hide NormalVat, Round2, Sum;
    VatsAgain(vats);
    RoundedSum(TaxAmounts(vats));
  }

  /** The declared VAT total survives a second pass exactly when rounding the sum is summing the rounded. */
  lemma VatTotalAgain(vats: seq<Vat>)
    requires vats != []
    ensures NormalTaxTotal(vats).value.vatTotal == Fin(Sum(Rounded(TaxAmounts(vats))))
      <==> Cents(Sum(TaxAmounts(vats))) == SumCents(TaxAmounts(vats))
  {
    RoundedSum(TaxAmounts(vats));
  }

  /** Two taxes of 0.4 cents: declared as one cent at first, as nothing after a second pass. */
  lemma VatTotalCanChange()
    ensures var vats := [Vat(1.0, 0.004, "S", 1.0), Vat(1.0, 0.004, "S", 1.0)];
      NormalTaxTotal(vats).value.vatTotal == Fin(0.01) && Sum(Rounded(TaxAmounts(vats))) == 0.0
  {
    var vats := [Vat(1.0, 0.004, "S", 1.0), Vat(1.0, 0.004, "S", 1.0)];
    var xs := [0.004, 0.004];
    assert TaxAmounts(vats) == xs;
    assert xs[..1] == [0.004] && [0.004][..0] == [];
    assert Sum(xs) == Sum([0.004]) + 0.004 == 0.008;
    assert Rounded(xs) == [0.0, 0.0];
    assert [0.0, 0.0][..1] == [0.0] && [0.0][..0] == [];
    assert Sum([0.0, 0.0]) == Sum([0.0]) + 0.0 == 0.0;
  }

  lemma SettledAfterwards(p: Party, isBuyer: bool)
    ensures Settled(AsParty(NormalParty(p, isBuyer)), isBuyer)
  {
    hide Trim;
    TrimTwice(Or(p.endpointSchemeID, "9914"));
    TrimTwice(Or(p.countryCode, "SK"));
    TrimTwice(Or(p.legalRegistrationName, p.name));
  }

  lemma PaymentSettles(p: Payment)
    ensures var q := AsPayment(NormalPayment(p)); NormalPayment(AsPayment(NormalPayment(q))) == NormalPayment(q)
  {
    hide Trim;
    CodeFixed();
    assert Trim("") == "" by {
      TrimFixed("");
    }
    TrimTwice(Or(p.meansCode, "30"));
    TrimTwice(p.iban);
    TrimTwice(p.bic);
  }

  lemma TaxSettles(vats: seq<Vat>)
    ensures NumericTax(NormalTaxTotal(vats))
    ensures var t := NormalTaxTotal(AsVats(NormalTaxTotal(vats))); NumericTax(t) && NormalTaxTotal(AsVats(t)) == t
  {
    hide NormalVat, Round2, Sum;
    TaxAgain(vats);
    VatsAgain(vats);
    TaxAgain(AsVats(NormalTaxTotal(vats)));
    RoundedTwice(TaxAmounts(vats));
  }

  lemma RoundedTwice(xs: seq<real>)
    ensures Rounded(Rounded(xs)) == Rounded(xs)
  {
    forall i | 0 <= i < |xs| ensures Round2(Round2(xs[i])) == Round2(xs[i]) {
      RoundTwice(xs[i]);
    }
  }

  /** The sections of the next pass, one by one. */
  lemma NextSections(p: Parsed)
    requires Numeric(p)
    ensures NextPass(p).payment == (match p.payment { case None => None case Some(x) => Some(NormalPayment(AsPayment(x))) })
    ensures NextPass(p).taxTotal == NormalTaxTotal(AsVats(p.taxTotal)) && NextPass(p).sellerContact == None
    ensures NextPass(p).monetaryTotal == (match p.monetaryTotal { case None => None case Some(x) => Some(NormalTotals(AsTotals(x))) })
  {
    hide NormalHeader, NormalPayment, NormalParty, NormalTaxTotal, NormalTotals, NormalLines, AsVats, AsPayment, AsTotals, AsLine;
    ContactGone(p.seller);
  }

  predicate SameSections(a: Parsed, b: Parsed) {
    a.payment == b.payment && a.monetaryTotal == b.monetaryTotal && a.taxTotal == b.taxTotal && a.sellerContact == b.sellerContact
  }

  lemma ThirdSections(data: Invoice, creditNote: bool)
    ensures Numeric(NormalForm(data, creditNote)) && Numeric(NextPass(NormalForm(data, creditNote)))
    ensures SameSections(NextPass(NextPass(NormalForm(data, creditNote))), NextPass(NormalForm(data, creditNote)))
  {
    hide NextPass, Numeric, NormalHeader, NormalContact, NormalPayment, NormalParty, NormalTaxTotal, NormalTotals, NormalLines, AsVats, AsParty, AsPayment, AsTotals;
    NormalFormNumeric(data, creditNote);
    var p := NormalForm(data, creditNote);
    NextPassNumeric(p);
    NextSections(p);
    NextSections(NextPass(p));
    if data.payment.Some? {
      PaymentSettles(data.payment.value);
    }
    if data.monetaryTotal.Some? {
      TotalsAgain(data.monetaryTotal.value);
      TotalsNumeric(data.monetaryTotal.value);
      TotalsAgain(AsTotals(NormalTotals(data.monetaryTotal.value)));
    }
    TaxSettles(data.vatBreakdown);
  }

  predicate SameText(a: Parsed, b: Parsed) {
    a.header == b.header && a.lines == b.lines
  }

  lemma ThirdHeader(data: Invoice, creditNote: bool)
    ensures Numeric(NormalForm(data, creditNote)) && Numeric(NextPass(NormalForm(data, creditNote)))
    ensures SameText(NextPass(NextPass(NormalForm(data, creditNote))), NextPass(NormalForm(data, creditNote)))
  {
    hide NormalHeader, NormalContact, NormalPayment, NormalParty, NormalTaxTotal, NormalTotals, NormalLines, AsVats, AsParty, AsPayment, AsTotals, AsLine, Numeric;
    NormalFormNumeric(data, creditNote);
    var p := NormalForm(data, creditNote);
    NextPassNumeric(p);
    CreditNoteKept(data, creditNote);
    CreditNoteKept(AsInput(p), creditNote);
    HeaderAgain(AsInput(p), creditNote);
    LinesAgain(AsInput(p), creditNote);
  }

  /** Whatever the invoice, everything is settled after the second pass: generating and parsing once more changes nothing. */
  lemma ThirdPass(data: Invoice, creditNote: bool)
    requires PlainCurrency(data)
    ensures var p := NormalForm(data, creditNote);
      Numeric(p) && Numeric(NextPass(p)) && NextPass(NextPass(p)) == NextPass(p)
    ensures var q := NextPass(NormalForm(data, creditNote)); Parse(BuildDocument(AsInput(q), q.header.isCreditNote)) == Some(q)
  {
    hide NextPass, NormalForm, Numeric, AsInput, Parse, BuildDocument, PlainCurrency;
    ThirdHeader(data, creditNote);
    ThirdSections(data, creditNote);
    PartiesSettle(data, creditNote);
    PlainStays(data, creditNote);
    PlainNext(NormalForm(data, creditNote));
    NextPassIsReparse(NextPass(NormalForm(data, creditNote)));
  }

  lemma CreditNoteKept(data: Invoice, creditNote: bool)
    ensures NormalHeader(data, creditNote).isCreditNote == creditNote
  {
  }

  lemma ContactGone(p: Option<ParsedParty>)
    ensures NormalContact(match p { case None => None case Some(x) => Some(AsParty(x)) }) == None
  {
  }

  function PartyPass(p: Option<ParsedParty>, isBuyer: bool): Option<ParsedParty> {
    match p
    case None => None
    case Some(x) => Some(NormalParty(AsParty(x), isBuyer))
  }

  lemma NextParties(p: Parsed)
    requires Numeric(p)
    ensures NextPass(p).seller == PartyPass(p.seller, false) && NextPass(p).buyer == PartyPass(p.buyer, true)
  {
    hide NormalHeader, NormalContact, NormalPayment, NormalParty, NormalTaxTotal, NormalTotals, NormalLines, AsVats, AsParty, AsPayment, AsTotals, AsLine;
  }

  /** One pass settles a party. */
  lemma PartySettles(p: Option<Party>, isBuyer: bool)
    ensures var n := match p { case None => None case Some(x) => Some(NormalParty(x, isBuyer)) };
      PartyPass(PartyPass(n, isBuyer), isBuyer) == PartyPass(n, isBuyer)
  {
    hide NormalParty, AsParty, Settled;
    if p.Some? {
      SettledAfterwards(p.value, isBuyer);
      PartyAgain(AsParty(NormalParty(p.value, isBuyer)), isBuyer);
    }
  }

  lemma PartiesSettle(data: Invoice, creditNote: bool)
    ensures var p := NormalForm(data, creditNote);
      Numeric(p) && Numeric(NextPass(p)) && var q := NextPass(p); NextPass(q).seller == q.seller && NextPass(q).buyer == q.buyer
  {
    hide NextPass, NormalHeader, NormalContact, NormalPayment, NormalParty, NormalTaxTotal, NormalTotals, NormalLines, PartyPass, Numeric;
    NormalFormNumeric(data, creditNote);
    var p := NormalForm(data, creditNote);
    NextPassNumeric(p);
    NextParties(p);
    NextParties(NextPass(p));
    PartySettles(data.seller, false);
    PartySettles(data.buyer, true);
  }
}
