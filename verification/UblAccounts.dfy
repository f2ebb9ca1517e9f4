/** Which BIC belongs to which credit transfer account, in the printed payment section and in what is read back from it. */
module UblAccounts {
  import opened Strings
  import opened XmlText
  import opened XmlTree
  import opened UblModel
  import opened UblGenerator
  import opened UblParser
  import opened UblRoundTrip

  /** The IBAN at `i` does not stand further up in the list. */
  predicate NewAt(ibans: seq<string>, i: nat) {
    i < |ibans| && forall j :: 0 <= j < i ==> ibans[j] != ibans[i]
  }

  /** The BIC of the account at `i`: the one at the first place of its IBAN, if there is one. */
  ghost predicate BicOf(p: Payment, i: nat, bic: string) {
    exists k: nat :: k <= i && NewAt(p.creditTransferIBANs, k) && i < |p.creditTransferIBANs| &&
      p.creditTransferIBANs[k] == p.creditTransferIBANs[i] && bic == if k < |p.creditTransferBICs| then p.creditTransferBICs[k] else ""
  }

  lemma FirstPlace(ibans: seq<string>, i: nat)
    requires i < |ibans|
    ensures var k := IndexOf(ibans, ibans[i]); k <= i && NewAt(ibans, k) && ibans[k] == ibans[i]
  {
    var k := IndexOf(ibans, ibans[i]);
    assert ibans[i] in ibans;
  }

  /** There is exactly one. */
  lemma BicIs(p: Payment, i: nat, bic: string)
    requires i < |p.creditTransferIBANs|
    ensures BicOf(p, i, bic) <==> bic == BicFor(p, p.creditTransferIBANs[i])
  {
    FirstPlace(p.creditTransferIBANs, i);
    if BicOf(p, i, bic) {
      var k: nat :| k <= i && NewAt(p.creditTransferIBANs, k) && p.creditTransferIBANs[k] == p.creditTransferIBANs[i]
        && bic == if k < |p.creditTransferBICs| then p.creditTransferBICs[k] else "";
      var m := IndexOf(p.creditTransferIBANs, p.creditTransferIBANs[i]);
      assert !(k < m) && !(m < k);
    }
  }

  // ----- what is printed

  /** An account as printed. */
  predicate Printed(e: Xml, iban: string, bic: string) {
    && e.tag == CacCreditTransferAccount && e.attrs == [] && e.raw == ""
    && e.kids == [Elem(CbcID, [], [], Esc(iban))]
       + if bic != "" then [Elem(CacFinancialInstitutionBranch, [], [Elem(CbcID, [], [], Esc(bic))], "")] else []
  }

  lemma AccountPrinted(iban: string, bic: string)
    ensures Printed(Account(CacCreditTransferAccount, iban, bic), iban, bic)
  {
    hide Esc, Flat;
    FlatTwo([Leaf(CbcID, iban)], When(bic != "", Branch(bic)));
    FlatOne([Leaf(CbcID, bic)]);
  }

  lemma FlatOne(a: seq<Xml>)
    ensures Flat([a]) == a
  {
    FlatTwo(a, []);
    assert [a][1..] == [] && Flat([]) == [];
  }

  lemma PrintedAt(p: Payment, i: nat, bic: string)
    requires i < |p.creditTransferIBANs| && BicOf(p, i, bic)
    ensures |Accounts(p, |p.creditTransferIBANs|)| == |p.creditTransferIBANs|
    ensures Printed(Accounts(p, |p.creditTransferIBANs|)[i], p.creditTransferIBANs[i], bic)
  {
    hide *;
    AccountAt(p, |p.creditTransferIBANs|);
    BicIs(p, i, bic);
    AccountPrinted(p.creditTransferIBANs[i], bic);
  }

  /** One account per IBAN, in order, each with the BIC at the first place of that IBAN. */
  lemma AccountsPrinted(p: Payment)
    ensures |Accounts(p, |p.creditTransferIBANs|)| == |p.creditTransferIBANs|
    ensures forall i: nat, bic :: i < |p.creditTransferIBANs| && BicOf(p, i, bic) ==>
      Printed(Accounts(p, |p.creditTransferIBANs|)[i], p.creditTransferIBANs[i], bic)
  {
    hide *;
    AccountAt(p, |p.creditTransferIBANs|);
    forall i: nat, bic | i < |p.creditTransferIBANs| && BicOf(p, i, bic)
      ensures Printed(Accounts(p, |p.creditTransferIBANs|)[i], p.creditTransferIBANs[i], bic)
    {
      PrintedAt(p, i, bic);
    }
  }

  /** So an IBAN that comes first has the BIC at its own place, and no branch at all if there is none. */
  lemma NewAccount(p: Payment, i: nat)
    requires NewAt(p.creditTransferIBANs, i)
    ensures |Accounts(p, |p.creditTransferIBANs|)| == |p.creditTransferIBANs|
    ensures Printed(Accounts(p, |p.creditTransferIBANs|)[i], p.creditTransferIBANs[i],
      if i < |p.creditTransferBICs| then p.creditTransferBICs[i] else "")
  {
    hide *;
    AccountsPrinted(p);
    OwnBic(p, i);
  }

  lemma OwnBic(p: Payment, i: nat)
    requires NewAt(p.creditTransferIBANs, i)
    ensures i < |p.creditTransferIBANs| && BicOf(p, i, if i < |p.creditTransferBICs| then p.creditTransferBICs[i] else "")
  {
  }

  // ----- what is read back

  /** The texts that are not blank, trimmed. */
  function Filled(texts: seq<string>): seq<Js> {
    if texts == [] then []
    else
      var t := Trim(texts[0]);
      if t == "" then Filled(texts[1..]) else [Str(t)] + Filled(texts[1..])
  }

  lemma {:induction false} FilledConcat(a: seq<string>, b: seq<string>)
    ensures Filled(a + b) == Filled(a) + Filled(b)
  {
    hide Trim;
    if a == [] {
      assert a + b == b;
    } else {
      assert (a + b)[0] == a[0] && (a + b)[1..] == a[1..] + b;
      FilledConcat(a[1..], b);
    }
  }

  lemma {:induction false} FilledIs(values: seq<Js>, texts: seq<string>)
    requires |values| == |texts| && forall i :: 0 <= i < |texts| ==> values[i] == Trimmed(texts[i])
    ensures OnlyTruthy(values) == Filled(texts)
  {
    hide Trim;
    if texts != [] {
      var n := |texts| - 1;
      FilledIs(values[..n], texts[..n]);
      assert texts == texts[..n] + [texts[n]];
      FilledConcat(texts[..n], [texts[n]]);
      assert [texts[n]][1..] == [];
      assert Filled([texts[n]]) == if Trim(texts[n]) == "" then [] else [Str(Trim(texts[n]))];
    }
  }

  /** Read back: the IBANs that are not blank, in order, and the BICs of the accounts that are not blank, in order. */
  lemma AccountsBack(p: Payment, e: Xml, bics: seq<string>)
    requires e == Elem(CacPaymentMeans, [], PaymentKids(p), "")
    requires |bics| == |p.creditTransferIBANs| && forall i: nat :: i < |bics| ==> BicOf(p, i, bics[i])
    ensures ParsePayment(Collapse(e)).creditTransferIBANs == Filled(p.creditTransferIBANs)
    ensures ParsePayment(Collapse(e)).creditTransferBICs == Filled(bics)
  {
    hide Trimmed, OnlyTruthy, Filled, BicOf, BicFor, ParsePayment, Collapse, PaymentKids, AccountIbans, AccountBics;
    var n := |p.creditTransferIBANs|;
    ReadPayment(p, e);
    IbansAt(p, n);
    forall i: nat | i < n ensures AccountBics(p, n)[i] == Trimmed(bics[i]) {
      BicIs(p, i, bics[i]);
    }
    FilledIs(AccountIbans(p, n), p.creditTransferIBANs);
    FilledIs(AccountBics(p, n), bics);
  }

  function Least(a: nat, b: nat): nat {
    if a < b then a else b
  }

  lemma {:induction false} FilledBlanks(n: nat)
    ensures Filled(seq(n, _ => "")) == []
  {
    TrimNothing();
    if n > 0 {
      FilledBlanks(n - 1);
      assert seq(n, _ => "")[1..] == seq(n - 1, _ => "");
    }
  }

  predicate Distinct(ibans: seq<string>) {
    forall i, j :: 0 <= i < j < |ibans| ==> ibans[i] != ibans[j]
  }

  /** At most the first n. */
  function Leading(bics: seq<string>, n: nat): seq<string> {
    bics[..Least(n, |bics|)]
  }

  /** The BICs given, blank where there are too few. */
  function Padded(bics: seq<string>, n: nat): (r: seq<string>)
    ensures |r| == n && forall i :: 0 <= i < n ==> r[i] == if i < |bics| then bics[i] else ""
  {
    Leading(bics, n) + seq(n - Least(n, |bics|), _ => "")
  }

  lemma DistinctBics(p: Payment, i: nat)
    requires Distinct(p.creditTransferIBANs) && i < |p.creditTransferIBANs|
    ensures BicOf(p, i, Padded(p.creditTransferBICs, |p.creditTransferIBANs|)[i])
  {
    OwnBic(p, i);
  }

  lemma FilledPadded(bics: seq<string>, n: nat)
    ensures Filled(Padded(bics, n)) == Filled(Leading(bics, n))
  {
    hide Filled;
    var m := Least(n, |bics|);
    FilledConcat(bics[..m], seq(n - m, _ => ""));
    FilledBlanks(n - m);
  }

  /** With no IBAN twice, these are simply the BICs given, as far as there are IBANs for them. */
  lemma DistinctAccountsBack(p: Payment, e: Xml)
    requires e == Elem(CacPaymentMeans, [], PaymentKids(p), "") && Distinct(p.creditTransferIBANs)
    ensures ParsePayment(Collapse(e)).creditTransferBICs == Filled(Leading(p.creditTransferBICs, |p.creditTransferIBANs|))
  {
    hide *;
    var n := |p.creditTransferIBANs|;
    forall i: nat | i < n ensures BicOf(p, i, Padded(p.creditTransferBICs, n)[i]) {
      DistinctBics(p, i);
    }
    AccountsBack(p, e, Padded(p.creditTransferBICs, n));
    FilledPadded(p.creditTransferBICs, n);
  }

  /** Two accounts, each with its own BIC. */
  lemma TwoAccounts(p: Payment, e: Xml)
    requires e == Elem(CacPaymentMeans, [], PaymentKids(p), "")
    requires p.creditTransferIBANs == ["SK31", "SK89"] && p.creditTransferBICs == ["TATRSKBX", "SUBASKBX"]
    ensures ParsePayment(Collapse(e)).creditTransferBICs == [Str("TATRSKBX"), Str("SUBASKBX")]
  {
    hide ParsePayment, Collapse, PaymentKids;
    assert "SK31"[2] != "SK89"[2];
    DistinctAccountsBack(p, e);
    TrimFixed("TATRSKBX");
    TrimFixed("SUBASKBX");
    assert p.creditTransferBICs[..2] == p.creditTransferBICs && p.creditTransferBICs[1..] == ["SUBASKBX"] && ["SUBASKBX"][1..] == [];
  }
}
