# A verified model of the Peppol access point core

This project models the parts of the access point that carry an invoice from JSON to the wire and back, keep the log of
what happened to it, and account for it. Every statement below is proved by Dafny for all inputs.

- **UBL** (`UblModel`, `UblGenerator`, `UblParser`, `UblRoundTrip`, `UblStability`, `UblWire`,
  `UblWorth`, `UblAccounts`, `UblOneWay`): the generator as element
  trees, the XML library's object shape as an explicit function (`XmlTree`), the parser on that shape. Parsing a generated
  document gives a stated normal form; `UblStability` says what a second pass keeps, and exactly when. `XmlWire` writes
  trees as text and reads them back, and `UblWire` says for which invoices that works.
- **Validator** (`UblValidator`, `UblVerdict`, `UblValidatorLaws`, `UblRounding`): the rules over lists and sums, and the
  report and verdict read off the document. Order does not matter,
  cross-sums chain to a three-cent bound, and rounding alone stays below a bound that depends on the number of lines.
- **AS4 text** (`TextSearch`, `As4Text`, `As4Search`, `As4Envelope`, `As4Reading`, `As4Classify`, `As4RoundTrip`,
  `As4ErrorCode`, `As4RawText`, `As4Signals`, `As4Wire`): the envelopes as character strings, the parser's regular expressions
  transcribed for a backtracking matcher, what the searches find in what was built, and what the text contains.
- **Log and exchange** (`TxLog`, `ApCore`, `Exchange`, `Interleaving`, `SharedObjects`, `SendRaces`): the access point as an
  object with its log and counters, two of them talking, and sends and signal handlers split at their awaits.
- **Stores** (`Stores`, `StoreAdapters`, `IdentityStores`, `SmpCache`, `SmpLookups`): the in-memory and the SQLite adapter
  side by side, and lookups through the expiring cache, many in flight at once.
- **Cluster** (`Cluster`): forks, crashes, delayed re-forks, and shutdown with a poll racing a timeout.
- **Reports and export** (`Calendar`, `ObjectOrder`, `ReportTotals`, `Reports`, `MonthlyReport`,
  `ReportFigures`, `Csv`), **business header**
  (`Sbdh`).
- Shared: `Options`, `Strings`, `Lists`, `XmlText`, `Decimals`.

Check everything with `dafny verify dfyconfig.toml`.

## Where the code does not do what it promises

Each of these is a theorem: a concrete input, and the exact condition under which the promise holds.

- The currency of the lines is written into two attributes without escaping. A conforming XML 1.0 reader gets a
  document with lines back from its text if and only if the currency has neither `<` nor a quote (`UblWire.DocumentBack`);
  with the currency `"` the text is not well formed (`UblWire.QuoteCurrency`).
- The shutdown poll takes the *living* workers off the map and keeps the dead ones. So the first poll ends the master while
  workers are still running (`Cluster.PollLeavesWorkerBehind`); at an exit by the poll all workers are dead exactly when the
  map was already empty (`Cluster.PollExitMeans`). A worker that left intentionally stays tracked for good, and then only
  the timeout ends the master (`Cluster.OnlyTimeoutLeft`).
- With SQLite two overlapping signal handlers of one message lose an update, except under the condition of
  `Interleaving.RowsLoseTheFirst`; the schedules that never do are those of `Interleaving.SeparateExactly`. The in-memory
  store keeps both (`SharedObjects.ObjectsKeepBoth`), but three handlers can lose an update there too
  (`SharedObjects.ObjectsCanLose`); the schedules that never do are those of `SharedObjects.PairedExactly`.
- A send saves its record after the message is out. Signals whose handlers look for it before that are lost, and no others
  (`SendRaces.EarlySignalsLost`, `SendRaces.NothingLostExactly`, `SendRaces.OneReceipt`).
- A cached answer is served until its time to live is over, past the end of the service itself (`SmpLookups.ServedExpired`),
  but not longer than that (`SmpLookups.ExpiredAtMost`).
- The report searches documents for amounts under names without a prefix. The generator prints none: all its documents are
  worth nothing there (`UblWorth.GeneratedWorthNothing`, `MonthlyReport.WorthlessReport`); an amount under such a name
  is found (`ReportTotals.TotalFound`).
- Country prefixes can be numbers (0245:20... gives 20), and the report lists those first, whatever came first
  (`ObjectOrder.NumberFirst`, `MonthlyReport.LandOrder`).
- The receipt writes the message id without escaping. An id that contains `</eb:RefToMessageId>` is cut there and the receipt
  names another message (`Exchange.CutReceipt`); all other ids on one line are named exactly
  (`Exchange.ReceiptReachesSender`). The ids of user messages are checked, those of other envelopes are not.
- After the active certificate is stored again as inactive, the in-memory store still answers with it and SQLite answers
  with none (`IdentityStores.DivergesOn`, `IdentityStores.ActiveAgrees`).
- An error code that is empty or ends in `code=` is not recovered from the error signal (`As4Signals.CodeRecovered`).
- On the second pass of generating and parsing, the scheme of a buyer's company id and blank defaulted fields change once
  more (`UblStability.PartyAgain`), all of a payment but code, IBAN and BIC is lost (`UblStability.PaymentAgain`), the
  seller's contact always is (`UblStability.SecondPass`), and the VAT total may change (`UblStability.VatTotalCanChange`,
  exactly when is `UblStability.VatTotalAgain`). The country of origin of a line never comes back: it is written under one
  element name and read under another.
- Grouping adds up on a plain object, so a participant called `constructor` is not counted (`Reports.InheritedName`); the
  counts add up if and only if no key is the name of an inherited property (`Reports.CountsConserve`).
- `getTransactions` ignores the limit of 10000 the report asks for and returns 1000; the report is right exactly under the
  condition of `MonthlyReport.StoredReport`.
- The years 0 to 99 mean 1900 to 1999, so the periods 0099-12 and 0100-01 do not meet (`Calendar.PeriodsTile`).
- An invoice without a positive allowance or charge passes although its totals have nothing to do with its lines
  (`UblValidatorLaws.NoAllowanceNoTie` on its exclusive and inclusive totals, exactly `UblValidatorLaws.TiedExactly`): R032
  is skipped then.

## Conventions

Amounts are exact decimals (`real`), so a gap of exactly one cent never fires a cross-sum rule; the running code compares
doubles with 0.01 and can go either way there. An absent string is "", which the code treats like null throughout the
modelled paths. Times are UTC instants in milliseconds. Randomness, clocks, code lists, the resolver, the transport, the
signature check and decryption are parameters. A method that mirrors a function of the source which changes state step by
step is proved equal to a specification function; the laws are stated about that function. Where a document is text, the
spelling of element and attribute names is a parameter: any one that uses name characters and tells the names apart.

## Model

| member | source | states |
|---|---|---|
| `XmlText.EscIsOnePass` | src/ubl/generator.js:10-18 | The five successive replace-all passes equal one per-character substitution: no pass touches what another one wrote |
| `XmlText.EscEach` | src/as4/message.js:625-633 | Each of the five special characters is written as its predefined entity, every other character as itself |
| `XmlText.EscHasNoMarkup` | src/as4/message.js:625-633 | Escaped text has no raw `<`, `>`, `"` or `'`, and no character beyond those of the text and of the five entities |
| `XmlText.DecodeRestores` | src/as4/sbdh.js:226-234 | Decoding the predefined entities, the ampersand last, gives every string back |
| `XmlText.EscInjective` | src/ubl/generator.js:10-18 | Two strings escape alike if and only if they are equal |
| `XmlText.EscIdentity` | src/as4/message.js:625-633 | Escaping leaves a string alone if and only if it has no special character |
| `XmlText.ReadEscaped` | src/ubl/parser.js:8-21 | A reader that trims character data and then decodes it sees the trimmed original |
| `Decimals.CentsNear` | src/ubl/generator.js:23-26 | `toFixed(2)` moves an amount by at most half a cent, ties away from zero |
| `Decimals.ParseFixed2` | src/ubl/parser.js:222-247 | `parseFloat` of a printed amount is the amount rounded to cents, for every real |
| `Decimals.ParseIntText` | src/ubl/parser.js:261 | `parseInt` of a printed integer is the integer |
| `Decimals.NumberEnds` | src/ubl/parser.js:222 | `parseFloat` of digits followed by anything but a digit or a point is the number of the digits |
| `Decimals.SignsRead` | src/ubl/parser.js:222 | Either sign before digits is read |
| `XmlTree.ReadPath` | src/ubl/parser.js:26-40 | The key-by-key walk of `getVal` computes the path lookup, attribute-only objects reading as "" |
| `XmlTree.ArrayOf` | src/ubl/parser.js:45-48 | None, one or several children: `ensureArray` yields each of them once, in document order |
| `XmlTree.Pick` | src/ubl/parser.js:26-40 | A lookup depends on the children of that name only, wherever the optional pieces around them are present |
| `UblGenerator.BuildPayment` | src/ubl/generator.js:131-206 | The appending function, with its account name printed as a number, its loop over accounts and the BIC looked up by first index, builds the payment section of the specification |
| `UblAccounts.AccountsPrinted` | src/ubl/generator.js:166-185 | The printed section holds one account per IBAN, in order; each has the BIC that stands where its IBAN stands first, in a branch of its own, and no branch if that is missing or empty |
| `UblAccounts.NewAccount` | src/ubl/generator.js:166-185 | So an IBAN that is not a repetition is printed with the BIC at its own place |
| `UblAccounts.AccountsBack` | src/ubl/parser.js:175-176 | Read back: the IBANs that are not blank, in order, and the BICs that belong to the accounts and are not blank, in order |
| `UblAccounts.DistinctAccountsBack` | src/ubl/parser.js:175-176 | With no IBAN twice, the BICs read are the non-blank ones among the first given, one per IBAN, trimmed and in order |
| `UblAccounts.TwoAccounts` | src/ubl/generator.js:166-185 | Two accounts read back with a BIC each, in order |
| `UblGenerator.BuildVAT` | src/ubl/generator.js:211-239 | The appending loop builds one subtotal per VAT entry, in order, after the printed total |
| `UblGenerator.BuildLines` | src/ubl/generator.js:261-292 | The appending loop builds one line element per line, in order, none for an empty list |
| `UblParser.ParseUBL` | src/ubl/parser.js:54-277 | The field-by-field assembly computes the parse specification, and nothing for another root |
| `UblOneWay.AccountNameWritten` | src/ubl/generator.js:144-148 | The account name is there if and only if it was given; printed as an amount it reads as its value in cents, or as no number if it was given in words; its currency is that of the payment or EUR |
| `UblOneWay.TotalsInEuros` | src/ubl/generator.js:240-257 | Every printed total is in EUR |
| `UblOneWay.TaxesInEuros` | src/ubl/generator.js:211-228 | And so is every tax and taxable amount |
| `UblOneWay.LinesInCurrency` | src/ubl/generator.js:266-286 | The amounts of a line are in the document's currency, if that needs no escaping |
| `UblOneWay.OriginWritten` | src/ubl/generator.js:276-282 | The country of origin reads back from where it is written, which is not where the parser looks |
| `UblOneWay.SchemeWritten` | src/ubl/generator.js:67-69 | The tax scheme is VAT |
| `UblOneWay.RootNamed` | src/ubl/generator.js:300-305 | The namespace of a document is that of an Invoice or of a CreditNote, as its kind says |
| `UblOneWay.NormWritten` | src/ubl/generator.js:34-35 | Every document reads back with the identifiers of the European norm and of the Peppol billing process |
| `UblOneWay.OriginRead` | src/ubl/parser.js:251-274 | The parser reads it from `cac:Country` of the item |
| `UblOneWay.RejectedExactly` | src/ubl/parser.js:54-63 | Parsing fails if and only if the document is of another kind or empty |
| `UblOneWay.ListText` | src/ubl/parser.js:222 | A list read as text is the texts of its elements with commas between them, a missing one without text |
| `UblOneWay.ExemptionRead` | src/ubl/parser.js:220-235 | In any subtotal, the exemption reason and its code read as their trimmed texts, or as "" when absent |
| `UblOneWay.LegalIdRead` | src/ubl/parser.js:102-158 | In any party without a tax scheme, the company id is that of the legal entity, without a scheme |
| `UblOneWay.HeaderDefaults` | src/ubl/parser.js:67-80 | A document without type code and currency is a 380 in EUR |
| `UblOneWay.MissingAmount` | src/ubl/parser.js:216-272 | A missing amount or rate of any element reads as 0 |
| `UblOneWay.TaxPointRead` | src/ubl/parser.js:67-80 | The tax point date, which the generator never writes, reads as its trimmed text |
| `UblRoundTrip.ReadParty` | src/ubl/parser.js:102-158 | A generated party reads back as its normal form: trimmed, defaults filled, company id and VAT id collapsed to one value |
| `UblRoundTrip.ReadPayment` | src/ubl/parser.js:161-185 | A generated payment section reads back with its accounts and BICs in order, blank ones dropped |
| `UblRoundTrip.ReadTaxTotal` | src/ubl/parser.js:220-235 | None, one or many subtotals read back in number and order, amounts rounded to cents |
| `UblRoundTrip.ReadLines` | src/ubl/parser.js:251-274 | If the lines' currency needs no escaping: none, one or many lines read back in number and order, amounts rounded to cents; the country of origin is lost |
| `UblRoundTrip.ParseGenerated` | src/ubl/parser.js:54-277 | For every invoice whose lines' currency needs no escaping, and both document types, parsing the generated document gives exactly the normal form |
| `UblWire.DocumentWritable` | src/ubl/generator.js:261-311 | For every invoice: no raw text of the document has a `<` and no raw attribute a `<` or a quote, if and only if there are no lines or their currency has neither |
| `XmlWire.WrittenBack` | src/ubl/parser.js:54-66 | A conforming XML 1.0 reader gets a tree back from its text if and only if no raw text has a `<` and no raw attribute a `<` or a quote |
| `UblWire.DocumentBack` | src/ubl/generator.js:300-311 | A conforming XML 1.0 reader gets a generated document back from its text if and only if there are no lines or their currency has neither `<` nor a quote |
| `UblWire.ParsePrinted` | src/ubl/parser.js:54-277 | Under that condition, printing an invoice, reading it with such a reader and parsing gives exactly the normal form |
| `UblWire.QuoteCurrency` | src/ubl/generator.js:272-286 | With a line and the currency `"` the text is not well formed: a conforming XML 1.0 reader reports no document |
| `UblStability.PartyAgain` | src/ubl/parser.js:102-158 | A party survives a second generate-and-parse pass if and only if no defaulted field is blank and a buyer has no scheme on a company id that turns into a VAT id |
| `UblStability.PaymentAgain` | src/ubl/parser.js:161-185 | A payment survives a second pass if and only if code, IBAN and BIC are all there is to it and no default stands for a blank |
| `UblStability.SecondPass` | src/ubl/generator.js:300-311 | A second pass changes nothing in header, lines, totals and subtotals; each party and the payment stay exactly when they are settled; the seller's contact is gone; the VAT total becomes the sum of the rounded taxes |
| `UblStability.VatTotalAgain` | src/ubl/generator.js:211-218 | The declared VAT total survives a second pass if and only if rounding the sum is summing the rounded |
| `UblStability.VatTotalCanChange` | src/ubl/generator.js:211-218 | Two taxes of 0.4 cents: declared as 0.01, as 0.00 after a second pass |
| `UblStability.ThirdPass` | src/ubl/generator.js:300-311 | From the second pass on, nothing changes any more, for any invoice whose lines' currency needs no escaping |
| `UblValidator.CheckFilenames` | src/ubl/validator.js:867-886 | The pass with the `seen` set and its early break finds a duplicate if and only if two non-empty folded names agree |
| `UblValidator.ValidateUBL` | src/ubl/validator.js:85-1156 | The sequential phases report exactly the issues of the specification, which is read off the document in `UblVerdict`; the verdict is valid if and only if none is fatal |
| `UblVerdict.Reported` | src/ubl/validator.js:341-1156 | Over the document's own fields, for each of the 20 rules modelled: it is reported if and only if the document is as the rule forbids (a category S subtotal with a rate at most 0 for R065, and so on), always with its own severity; any other rule if and only if it was found |
| `UblVerdict.ValidExactly` | src/ubl/validator.js:85-1156 | A document is valid if and only if none of the fatal rules fails on it and no single-field rule found anything fatal |
| `UblValidatorLaws.OrderIrrelevant` | src/ubl/validator.js:328-520 | Reordering lines, subtotals, allowances or attached documents changes neither the verdict nor the multiset of (rule, severity) reported |
| `UblValidatorLaws.DuplicateReportedOnce` | src/ubl/validator.js:867-886 | DE-R-022 is reported exactly once when two non-empty names agree up to case, and never otherwise |
| `UblValidatorLaws.ThreeCents` | src/ubl/validator.js:409-445 | A valid document with lines, a VAT breakdown and a positive allowance or charge has its inclusive total within 3 cents of lines minus allowances plus charges plus taxes |
| `UblValidatorLaws.NoAllowanceNoTie` | src/ubl/validator.js:1032-1057 | Without a positive allowance or charge, every valid document stays valid when the same amount is added to its exclusive and inclusive totals |
| `UblValidatorLaws.TiedExactly` | src/ubl/validator.js:1032-1057 | For lines and a breakdown: all totals that pass are within 3 cents of what the document lists, if and only if there is a positive allowance or charge or no totals pass |
| `UblRounding.RulesSeeTheGap` | src/ubl/validator.js:383-445 | On a generated document R031, R029 and R033 fail exactly when the whole-cent gap of their sums exceeds one cent |
| `UblRounding.ReceivedIsParsed` | src/index.js:122-140 | The figures the rules see are those of the parsed generated document, for every plain currency |
| `UblRounding.RoundingBound` | src/ubl/generator.js:23-26 | For non-negative figures that reconcile exactly, the R031 gap is strictly below (n+1)/2 cents for n lines, the R029 and R033 gap strictly below (m+2)/2 for m subtotals |
| `UblRounding.SmallInvoicesPass` | src/ubl/validator.js:383-445 | So none of these rules fires for at most 3 lines and 2 subtotals |
| `UblRounding.TightFires` | src/ubl/validator.js:383-445 | With 4 lines and 3 subtotals all three can fire |
| `TextSearch.SearchSkip` | src/as4/message.js:470-527 | A pattern that begins with `<` cannot match inside text without `<`: first-match search passes over it |
| `TextSearch.NotFound` | src/as4/message.js:470-474 | A pattern containing `<[^>]*name` matches nowhere in a text none of whose tags says the name |
| `TextSearch.FitsMatches` | src/as4/message.js:470-474 | A text made of one fitting stretch per piece of a pattern is matched, whatever backtracking tries first |
| `As4Text.NameStarts` | src/as4/message.js:319-365 | No tag name of the envelopes is the beginning of another one |
| `As4Search.StartsAt` | src/as4/message.js:477-524 | A search for an element of a name can start at an opening tag of that name only |
| `As4Search.Extract` | src/as4/message.js:477-496 | The search `<x>(.*?)</x>` captures exactly the text of the only x element, and nothing when that text has a line terminator |
| `As4Search.ExtractLoose` | src/as4/message.js:498-519 | The same for `<x[^>]*>(.*?)</x>`, and for `[\s\S]` without the line restriction |
| `As4Search.FindSection` | src/as4/message.js:498-508 | The section search returns the first x element whole, with everything nested in it |
| `As4Envelope.ParseSoap` | src/as4/message.js:468-527 | The parser fills its result field by field as specified, and rejects a malformed message id of a user message only |
| `As4RoundTrip.UserMessageReads` | src/as4/message.js:319-365 | For all field values: the envelope is classified as a user message; message id, timestamp, both AP ids, sender, receiver and process id come back as their escaped form, or absent when they have a line terminator; the document type identifier comes back exactly (which one it is: `DocumentTypeSent`) |
| `As4RoundTrip.DocumentTypeSent` | src/as4/message.js:29-35 | In its own text: the identifier read is that of a credit note if and only if the type is `credit_note` or `CreditNote`, and otherwise that of an invoice, which is another one |
| `As4Wire.InfoSent` | src/as4/message.js:330-334 | The text contains the timestamp and the message id, escaped, each in its element |
| `As4Wire.PartiesSent` | src/as4/message.js:335-344 | The text contains the sending access point as `eb:From` with the initiator's role and the receiving one as `eb:To` with the responder's |
| `As4Wire.CollaborationSent` | src/as4/message.js:345-357 | The text contains agreement, process and the two participants under their names |
| `As4Wire.ActionSent` | src/as4/message.js:345-349 | The text contains the action with the identifier of the document type |
| `As4Wire.UuidForm` | src/as4/message.js:485 | The ids accepted are exactly `uuid:`, five groups of 8, 4, 4, 4 and 12 small hexadecimal digits, `@` and a host of letters, digits, `_`, `.` and `-` |
| `As4Wire.FailureSent` | src/as4/message.js:592 | An error signal has the severity failure |
| `As4RoundTrip.BackIdentity` | src/as4/message.js:476-519 | A field comes back unchanged if and only if it has no line terminator and no character that is escaped |
| `As4RoundTrip.MessageIdAccepted` | src/as4/message.js:480-493 | The message id comes back exactly if and only if it is well formed; a malformed one on a single line is rejected |
| `As4Classify.UserClassified` | src/as4/message.js:470-474 | A user message is classified as such whatever its fields contain |
| `As4Classify.Unclassified` | src/as4/message.js:470-474 | A text whose tags name neither kind is not classified |
| `As4Signals.SignalClassified` | src/as4/message.js:470-474 | Receipts and errors are classified as signals whatever they contain |
| `As4RawText.ExtractRaw` | src/as4/message.js:477-481 | The search `<x>(.*?)</x>` captures an unescaped value exactly if and only if it is one line without the end tag |
| `As4Signals.MdnReads` | src/index.js:856-881 | A receipt whose own id and time have no markup is read and dispatched as a receipt; it names the original message id, which is not escaped, if and only if that id is one line without `</eb:RefToMessageId>` |
| `As4Signals.MdnCut` | src/index.js:856-881 | An id with that end tag in it is cut there: the receipt names what stands before it |
| `As4Signals.ErrorReads` | src/as4/message.js:570-603 | An error is read as a signal that names the escaped reference it was given, if any, and is dispatched as an error with the trimmed, escaped description |
| `As4Signals.NeitherRead` | src/index.js:395-396 | A signal made of tags none of which is a receipt or an error is dispatched as neither |
| `As4ErrorCode.CodeAtEnd` | src/index.js:421-422 | Inside the error tag `code="` follows a boundary only at the attribute itself, or at the end of a code that ends in `code=` |
| `As4Signals.CodeRecovered` | src/index.js:420-424 | The dispatched code is the escaped code sent if and only if that is not empty and does not end in `code=` behind a non-word character |
| `TxLog.RecordIsFold` | src/index.js:387-462 | After any run of events the record of an id is the fold of the events that name it, in their order, and of no others |
| `TxLog.OthersIrrelevant` | src/index.js:387-462 | Runs in which the same events name an id leave the same record of it, however other events are mixed in |
| `TxLog.SignalsKeepRecords` | src/index.js:396-443 | Signals add and remove no record and change no direction, party, document type or time |
| `TxLog.AcknowledgedByLast` | src/index.js:396-413 | A record is `receipt_received` if and only if the last event that names it is a receipt, and then stores that receipt |
| `ApCore.IncrementTotal` | src/index.js:200-201 | Counting one record raises the sum of all (direction, status) counters by one |
| `ApCore.AccessPoint.Record` | src/index.js:198-201 | Recording saves one record, adds one to the transaction count and to its own counter, and keeps the counters summing to the count |
| `ApCore.AccessPoint.Signalled` | src/index.js:396-443 | A signal changes status and receipt, or status and error text, of the record it names, and nothing when there is none |
| `ApCore.AccessPoint.SendInvoice` | src/index.js:122-345 | A send leaves one record of its outcome (field by field: `SentRecord`), or nothing when validation fails; the counters keep agreeing with the history |
| `ApCore.SentRecord` | src/index.js:122-345 | Every field of the record: a simulated send is delivered under the simulator's id; one with a certificate that has no expiry or one after now, and accepted by the transport, is under the transport's id, delivered if a signal came back and sent otherwise; any other is an error under the generated id, for the missing certificate, the expired one or the refusal |
| `ApCore.GoesOut` | src/index.js:205-277 | A valid production send is delivered or sent if and only if there is an unexpired certificate and the transport accepts |
| `ApCore.AccessPoint.HandleIncomingMessage` | src/index.js:381-625 | A signal updates, a user message is recorded once under its id with the receipt returned (field by field: `Exchange.AcceptedByReceiver`), anything else leaves the log alone |
| `ApCore.SendThenStatus` | src/index.js:636-660 | In every run: after a valid send the status under the returned id is its outcome, as above, until a signal names it, and then what the last signal says, for as long as the id is not recorded again |
| `Exchange.StoredReceiptNames` | src/index.js:586-602 | In every run: an untouched received message has the parties of its business header or else of its envelope, is `received` exactly when its UBL was there and valid, and its stored receipt is read as a receipt for exactly its own id, if and only if that id has no end tag in it (a checked one never has) |
| `ApCore.AcknowledgedInLog` | src/index.js:387-462 | The acknowledgement law on the log of a running access point |
| `Exchange.AcceptedByReceiver` | src/index.js:586-602 | The receiver records an admitted message under the id it sees: sender as sender and receiver as receiver, from the header or else as the envelope carried them, with document type, verdict, time and the receipt it returns |
| `Exchange.StoredParties` | src/index.js:586-602 | And in every run that record keeps them as long as nothing else names the id |
| `Exchange.AnswerOfReceiver` | src/index.js:617-625 | What it answers: the id it saw, the verdict and the receipt |
| `Exchange.AnswerOfSender` | src/index.js:387-417 | What the sender answers to a receipt: the receipt's own id, and whether it knows the message |
| `Exchange.ReceiptReachesSender` | src/index.js:387-413 | The sender reads a receipt as one for exactly the id it was built for, if and only if the id is one line without the end tag |
| `Exchange.CutReceipt` | src/index.js:856-881 | The receipt for an id with the end tag in it is dispatched as a receipt for another id |
| `Exchange.ErrorExchange` | src/index.js:419-443 | For an absent or well-formed reference: an error without one changes nothing; one with it, whose code is not empty and does not end in `code=`, makes that record `error` with `[code] description` in escaped form and touches no other |
| `Exchange.SendAndAnswer` | server/index.js:333-381 | One message and its answer between two access points, in every case: an admitted one that can be processed ends with the receiver's stored receipt in the sender's record of the answered id ("null" for an id not seen); one refused for its id, payload, decryption or signature leaves both logs alone |
| `Interleaving.RowsAreSequential` | src/store/sqlite.js:28-64 | Any schedule of read and save steps in which handlers of one id do not overlap leaves the log of the handlers run one after another, in the order of their saves |
| `Interleaving.EverySignalOnce` | src/index.js:396-443 | When every handler finishes, each signal takes effect exactly once |
| `Interleaving.SeparateExactly` | src/store/sqlite.js:28-64 | With rows, these are all the schedules that do so for every log and all signals; in any other one, some signals on some log leave what no order of them leaves |
| `Interleaving.RowsLoseTheFirst` | src/store/sqlite.js:60-64 | Two overlapping handlers leave the log of one of the two orders if and only if they name different or unknown records, are of one kind, or the first has nothing to add |
| `SharedObjects.ObjectsAreSequential` | src/store/mock.js:16-23 | With shared objects, any schedule in which overlapping handlers of one id have read the same object leaves the log of the handlers run one after another |
| `SharedObjects.PairedExactly` | src/store/mock.js:16-23 | And these are all the schedules that always do; in any other one, some signals leave what no order of them leaves |
| `SharedObjects.SeparateIsPaired` | src/store/mock.js:16-23 | So the in-memory store is safe on every schedule on which the rows are |
| `SharedObjects.ObjectsKeepBoth` | src/store/mock.js:21-23 | Two overlapping handlers, of whatever kinds and ids, leave what the first and then the second would |
| `SharedObjects.ObjectsCanLose` | src/store/mock.js:16-23 | A third handler that reads between the two saves makes the receipt of the second disappear, which no order does |
| `SendRaces.SaveAnywhere` | src/index.js:253-277 | The record of a send is saved after the message is out. Wherever among the steps of signal handlers that save comes, the log is that of the schedule in which the record was there from the start and the handlers that read before it never ran |
| `SendRaces.EarlySignalsLost` | src/index.js:253-277 | If handlers of one id do not overlap, that is the save and then the signals of all other handlers in the order of their saves |
| `SendRaces.NothingLostExactly` | src/index.js:396-443 | Whatever the signals, the save and all signals take effect in some order, if and only if no handler that runs to its end reads before the save |
| `SendRaces.OneReceipt` | src/index.js:396-413 | One send and one receipt: the receipt is in the record if its handler reads after the save, and lost otherwise |
| `Cluster.BalancedUntilPoll` | server/cluster.js:31-56 | In every interleaving, until the first poll of a shutdown, tracked workers plus pending re-forks equal the configured number and an untracked forked worker is dead |
| `Cluster.PollExits` | server/cluster.js:90-98 | A poll ends the master if and only if no tracked worker is dead |
| `Cluster.PollExitMeans` | server/cluster.js:90-98 | Whenever a poll ends the master, no earlier poll has taken a worker off the map, and all workers ever forked are dead if and only if the map was already empty |
| `Cluster.PollLeavesWorkerBehind` | server/cluster.js:59-103 | One worker, one signal, half a second: the master exits and the worker is alive |
| `Cluster.OnlyTimeoutLeft` | server/cluster.js:39-42 | Once a worker that left intentionally is tracked, no poll ever ends the master |
| `Cluster.TimeoutKills` | server/cluster.js:63-79 | Exit by the timeout, after any run: every worker of the shutdown's snapshot was sent SIGTERM and is dead or was sent SIGKILL; nobody got SIGKILL without SIGTERM |
| `Cluster.DeadlineForcesExit` | server/cluster.js:69-79 | No run gets past the 30 s deadline of a shutdown without the master having left |
| `Cluster.TimersExact` | server/cluster.js:49-103 | In every run a re-fork, a poll and a timeout come at their time |
| `Cluster.GraceGiven` | server/cluster.js:59-79 | In every run the timeout of a shutdown comes exactly 30 s after its signal, and sends SIGKILL to exactly those of the workers tracked at the signal that still live |
| `Cluster.EventsAreProgress` | server/cluster.js:31-103 | Every event of a shutdown uses up time or work; only another signal uses up neither |
| `Cluster.CanGoOn` | server/cluster.js:31-103 | Until it exits the master is never stuck: a due timer can fire or time can pass |
| `Cluster.ShutdownReachesExit` | server/cluster.js:59-103 | In every endless schedule of a started master in which a shutdown is going on, the master exits, if and only if it does not happen that from some point on nothing but signals arrives, not even time |
| `Cluster.Master.constructor` | server/cluster.js:31-36 | Startup forks the configured number of workers and tracks them all |
| `Cluster.Master.OnExit` | server/cluster.js:39-56 | A crash untracks the worker and schedules a re-fork, an intentional exit does neither |
| `Cluster.Master.OnRefork` | server/cluster.js:49-53 | The timer forks a new worker and tracks it |
| `Cluster.Master.OnSignal` | server/cluster.js:59-67 | A signal takes the snapshot of the tracked workers, sends each SIGTERM, and starts poll and timeout |
| `Cluster.Master.OnPoll` | server/cluster.js:90-98 | The interval callback removes the workers that are not dead and exits on an empty map |
| `Cluster.Master.OnTimeout` | server/cluster.js:71-79 | The timeout sends SIGKILL to every living worker of the snapshot and exits |
| `Stores.SortSorted` | src/store/mock.js:38-39 | `list` sorts newest first and keeps every row |
| `Stores.ListingsAgree` | src/store/sqlite.js:66-104 | However the rows are visited, two listings of the same rows have the same instants in the same places, agree on all rows newer than the last one kept, and on all rows when nothing is cut |
| `Stores.ListingComplete` | src/store/mock.js:29-41 | Everything listed is stored and has the direction, status, participants and dates asked for; what has them and is left out is no newer, and only when the limit is reached |
| `StoreAdapters.SaveSame` | src/store/mock.js:16-18 | Replacing in place and INSERT OR REPLACE keep both stores holding the same rows |
| `StoreAdapters.DeleteSame` | src/store/sqlite.js:131-137 | Both stores delete the same keys |
| `StoreAdapters.DeletedSame` | src/store/mock.js:47-57 | And report the same count: that of the rows older than the cut-off |
| `StoreAdapters.RunsSame` | src/store/sqlite.js:28-137 | After any run of saves and deletions both stores hold the same rows and have reported the same counts |
| `StoreAdapters.QueriesSame` | src/store/sqlite.js:60-147 | Then lookups and ranges agree, and listings agree up to order among equal timestamps |
| `StoreAdapters.EndsBound` | src/store/mock.js:62-67 | The first and last of the sorted rows are the least and greatest timestamps |
| `StoreAdapters.MemoryStore.Save` | src/store/mock.js:16-18 | A row with the id is replaced where it is, a new one comes last, and no other row moves or changes |
| `StoreAdapters.MemoryStore.Get` | src/store/mock.js:21-23 | Nothing if and only if no row has the id; otherwise the one row that has it |
| `StoreAdapters.MemoryStore.List` | src/store/mock.js:29-41 | The chain of filters, the sort and the cut return the listing of the specification |
| `StoreAdapters.MemoryStore.DeleteOlderThan` | src/store/mock.js:47-57 | The deleting loop keeps exactly the rows that are not before the cut-off, and counts the others |
| `StoreAdapters.MemoryStore.GetRetentionRange` | src/store/mock.js:62-67 | Oldest and newest timestamps, both absent for an empty store |
| `StoreAdapters.TableStore.Save` | src/store/sqlite.js:28-58 | The rows afterwards are the saved one and all others but the one with its id |
| `StoreAdapters.TableStore.Get` | src/store/sqlite.js:60-64 | Nothing if and only if no row has the id; otherwise the one row that has it |
| `StoreAdapters.TableStore.List` | src/store/sqlite.js:66-104 | The query built condition by condition returns the listing of the specification over any visiting order |
| `StoreAdapters.TableStore.DeleteOlderThan` | src/store/sqlite.js:131-137 | DELETE keeps exactly the rows that are not before the cut-off, unchanged, and reports how many are gone |
| `StoreAdapters.TableStore.GetRetentionRange` | src/store/sqlite.js:142-147 | MIN and MAX of the timestamps, both null for an empty table |
| `StoreAdapters.DryRunCount` | src/cli/logs.js:174-184 | The dry run of prune prints the number prune then deletes, with either store |
| `IdentityStores.RunConsistent` | src/store/mock.js:145-156 | After any run at most one certificate is active, and only the remembered one can be |
| `IdentityStores.ActiveAgrees` | src/store/sqlite.js:196-202 | Both adapters name the same active certificate if and only if the one last stored as active was not stored again as inactive |
| `IdentityStores.DivergesOn` | src/store/mock.js:145-156 | Storing an entry breaks that agreement if and only if it is inactive and has the remembered id |
| `IdentityStores.MemoryIdentities.StoreCert` | src/store/mock.js:145-156 | The deactivating loop leaves every other certificate as it was but inactive |
| `IdentityStores.MemoryIdentities.GetActiveCert` | src/store/mock.js:122-125 | None exactly when none was ever stored as active; otherwise the stored entry last set as active, and if any entry is active, that one |
| `IdentityStores.TableIdentities.StoreCert` | src/store/sqlite.js:219-236 | UPDATE then INSERT OR REPLACE |
| `IdentityStores.TableIdentities.GetActiveCert` | src/store/sqlite.js:196-202 | A certificate whose flag is set, or none if there is none |
| `SmpCache.IdAccepted` | src/index.js:674-691 | An id is accepted if and only if it is scheme:value, both non-empty and without colons, followed by nothing or by more parts; an empty one and one without a colon are refused as such |
| `SmpCache.DatesChecked` | src/index.js:732-760 | An answer passes the date check if and only if its service is in force at that moment, both ends included; one that has not begun is not active, any other that fails is expired |
| `SmpCache.Lookup.CacheGet` | src/store/mock.js:92-100 | A hit is exactly the last accepted answer for the id while its time to live lasts; an entry that is over is removed |
| `SmpCache.Lookup.Resolve` | src/index.js:700-722 | An answer is accepted if and only if its service has begun and not ended; a refused one, told whether for its beginning, is never cached; an accepted one is served for 300 s simulated, 600 s live |
| `SmpCache.Lookup.LookupParticipant` | src/index.js:674-722 | A lookup that nothing interrupts: its result was answered for that id at most its time to live ago and passed the date check then; an unexpired answer is served again; other ids never interfere |
| `SmpLookups.LookupsInFlight` | src/index.js:674-722 | In every run of lookups that overlap as they like: every answer returned was accepted for that id within its time to live; a hit is the last answer accepted by then, whichever lookup asked for it; the cache stays what the accepted answers say |
| `SmpLookups.EveryLookup` | src/index.js:674-722 | And every lookup gets what it should: refused for its id, served the last accepted answer that is still good, or waiting; a reply is returned if and only if its service is in force when it arrives, and refused with the reason otherwise |
| `SmpLookups.ExpiredAtMost` | src/index.js:732-760 | A participant whose service has expired is returned for at most the time to live after that |
| `SmpLookups.ServedExpired` | src/store/mock.js:92-100 | And so it can be: a concrete run in which an expired one is returned |
| `ObjectOrder.IndexIs` | src/reporting/monthly-report.js:160-162 | The keys listed first are exactly the texts of the numbers below 2^32 - 1 |
| `ObjectOrder.OwnOrderLists` | src/reporting/monthly-report.js:160-162 | `Object.entries` lists every property once: the numbers, rising, and then the others in the order in which they were set |
| `ObjectOrder.NumberFirst` | src/reporting/monthly-report.js:160-162 | SK and then 20 are listed as 20 and then SK |
| `ReportTotals.TotalFound` | src/reporting/monthly-report.js:51-73 | The text of the first element called `TaxInclusiveAmount` or `PayableAmount`, whatever its attributes, is what a document counts for |
| `ReportTotals.LinesFound` | src/reporting/monthly-report.js:51-73 | Without such an element it is the text of the first `LineExtensionAmount`; text that is no number counts 0 |
| `ReportTotals.PrintedTotalFound` | src/reporting/monthly-report.js:51-73 | An amount printed under such a name counts in cents |
| `ReportTotals.WorthNothing` | src/reporting/monthly-report.js:51-73 | A text none of whose tags begins with one of the three names counts for nothing |
| `UblWorth.GeneratedWorthNothing` | src/reporting/monthly-report.js:51-73 | Every document the generator prints counts for nothing, whatever its totals: its tags begin with a prefix |
| `Calendar.PeriodsTile` | src/reporting/monthly-report.js:19-24 | A period ends one millisecond before the next begins, year ends included, if and only if it is not 0099-12 |
| `Calendar.MonthLength` | src/reporting/monthly-report.js:19-24 | Every month has 28 to 31 days |
| `Calendar.MonthLengths` | src/reporting/monthly-report.js:19-24 | Thirty days have April, June, September and November, February 28 or in leap years 29, all others 31 |
| `Calendar.Epoch` | src/reporting/monthly-report.js:19-24 | January 1970 begins at instant 0 |
| `Calendar.ExactlyOnePeriod` | src/reporting/monthly-report.js:19-24 | Every instant from the year 100 on lies in exactly one reporting period |
| `Reports.GroupItems` | src/reporting/monthly-report.js:94-100 | The accumulating loop computes the grouping, its keys in the order of their first appearance, on an object that answers for inherited names too |
| `Reports.GroupConserves` | src/reporting/monthly-report.js:94-100 | If no key is an inherited name, the values of the groups sum to the values of the items |
| `Reports.CountsConserve` | src/reporting/monthly-report.js:94-100 | Counts sum to the number of items if and only if no key is an inherited name |
| `Reports.GroupExact` | src/reporting/monthly-report.js:94-100 | A key that occurs holds the sum of exactly its items if and only if it is not the name of an inherited property; else it holds text, `__proto__` nothing |
| `Reports.GroupOrder` | src/reporting/monthly-report.js:94-100 | Listed, the groups stand with the array indices among their keys first, rising, and then the other keys in the order in which they first appear |
| `Reports.TopIsTop` | src/reporting/monthly-report.js:108-113 | The ranking lists min(n, k) entries of the record in descending order and leaves out none that beats a listed one |
| `MonthlyReport.CollectLands` | src/reporting/monthly-report.js:158-169 | The loop over the transactions builds the country table, in the order of first appearance |
| `MonthlyReport.LandsConserve` | src/reporting/monthly-report.js:158-169 | Country counts sum to the transactions, their unrounded values to the total value |
| `MonthlyReport.LandOrder` | src/reporting/monthly-report.js:158-169 | Listed, the countries stand each once: prefixes that are array indices first, rising, and then the others in the order in which they first appear |
| `MonthlyReport.CountryOrdinary` | src/reporting/monthly-report.js:31-44 | No country is the name of an inherited property, so the country table never goes wrong like the groups |
| `MonthlyReport.PrintedValues` | src/reporting/monthly-report.js:170-175 | The printed country values differ from the printed total by at most (k+1)/2 cents for k countries |
| `MonthlyReport.GenerateMonthlyReport` | src/reporting/monthly-report.js:126-258 | On ordinary names the report on a list of transactions, document values included, is the specified function of the two filtered lists; what each figure means is `ReportFigures.ReportMeans` |
| `ReportFigures.ReportMeans` | src/reporting/monthly-report.js:126-258 | Every figure in terms of the transactions dated in the period: counts per direction, status and country, the ten busiest senders and receivers, sums and averages rounded to cents, the share delivered or received, the mean seconds of those completed not before they began, and the changes against the earlier period |
| `ReportFigures.CountryOfId` | src/reporting/monthly-report.js:31-44 | The country of an id: the first two characters of a value of at least two behind a scheme, else of the id itself if neither is a small letter, else UNKNOWN |
| `MonthlyReport.ReportConserves` | src/reporting/monthly-report.js:146-175 | In every report on ordinary names the direction, status and country counts each sum to the total |
| `MonthlyReport.WorthlessReport` | src/reporting/monthly-report.js:148-175 | A report on documents that count for nothing, such as the generated ones, shows no value: not in total, on average or for any country |
| `MonthlyReport.MonthsPartition` | src/reporting/monthly-report.js:133-144 | The totals of any k consecutive months sum to the transactions dated in them |
| `MonthlyReport.TruncationExact` | src/index.js:1104-1106 | The newest 1000 give the same transactions for a period as the whole log if and only if the period has none or at most 1000 are dated at or after its start |
| `MonthlyReport.ReportComplete` | src/reporting/monthly-report.js:204-229 | The whole report on the newest 1000, ranking order and comparison included, is the one on the whole log if and only if they cover its period and the earlier one asked for |
| `MonthlyReport.NewestIsListing` | src/index.js:1104-1106 | The listing with limit 1000 is the newest 1000 of the full listing, which is in order |
| `MonthlyReport.StoredReport` | src/index.js:1104-1106 | So the report the program makes is the one on all it has stored, under exactly that condition |
| `Csv.TableBack` | src/cli/logs.js:245-263 | A reader of the RFC 4180 quoting rules recovers exactly the cells of every exported table |
| `Csv.QuotedWhenNeeded` | src/cli/logs.js:251-258 | A cell is written as it is if and only if it has no comma, quote or line feed |
| `Csv.Unambiguous` | src/cli/logs.js:251-262 | Two tables are exported to the same text if and only if they are equal |
| `Sbdh.CollectScopes` | src/as4/sbdh.js:159-172 | The loop over the scopes assigns each value from the last scope of its kind |
| `Sbdh.ParseSbdh` | src/as4/sbdh.js:102-177 | The field-by-field assembly computes the parse specification |
| `Sbdh.CanonicalScheme` | src/as4/sbdh.js:190-195 | The one authority written reads back as the prefix ISO6523_ACTORID_UPIS |
| `Sbdh.PrefixedExactly` | src/as4/sbdh.js:190-195 | An id keeps no prefix if and only if the header gives no authority |
| `Sbdh.ValueSent` | src/as4/sbdh.js:200-221 | What is sent for an id: without a colon the trimmed id; under the generic scheme what follows it without leading zeros, or a single one; under any other what follows it |
| `Sbdh.StandardNamed` | src/as4/sbdh.js:56 | The standard is that of a credit note for the type CreditNote and of an invoice for any other |
| `Sbdh.ScopesTyped` | src/as4/sbdh.js:78-92 | The three scopes say DOCUMENTID, PROCESSID and COUNTRY_C1 |
| `Sbdh.UpperIs` | src/as4/sbdh.js:90 | The country goes out with its small ASCII letters as capitals and nothing else changed |
| `Sbdh.VersionRemarked` | src/as4/sbdh.js:144-148 | A type version that is there and not 2.0 gets one remark, any other none |
| `Sbdh.ParseBuilt` | src/as4/sbdh.js:51-97 | Parsing a built header gives the prefixed normalised ids (none for a blank value) and all other fields trimmed, if and only if the embedded document brings no header of its own |
| `Sbdh.ParseAlone` | src/as4/sbdh.js:104-113 | A header that is itself the root reads the same |
| `Sbdh.HeaderWanted` | src/as4/sbdh.js:104-113 | Parsing fails for want of a header exactly when there is none where it belongs or an empty one |
| `Sbdh.TextBehind` | src/as4/sbdh.js:140-152 | A text of the header is found behind attributes, too |
| `Sbdh.SecondPass` | src/as4/sbdh.js:200-221 | A second pass through building and parsing changes no participant id |
| `Sbdh.SameResult` | src/as4/sbdh.js:200-221 | Two ids give the same result if and only if their normalised values agree, whatever their schemes |

## Left out

- Signing, decryption, trust chains, MIME, HTTP, console and file output: steps that succeed or fail, or plumbing. The
  envelopes are the unsigned ones, and the AS4 parser starts from the SOAP text.
- The word boundary in the error-code search is written as a preceding character that is neither `>` nor a word character,
  which is equivalent behind the tag name and a run of other characters.
- XML library internals: line-end normalisation, processing instructions, CDATA and numeric character references. Only the
  object shape, trimming and the predefined entities are modelled; layout white space between elements is not text, and the XML
  declaration is left out. What the library makes of text that is not well formed is its own affair: `UblWire` is about a
  reader that conforms to XML 1.0.
- The table of name spellings: that the source spells its element and attribute names with name characters, no two alike and
  the amounts behind a prefix, is a hypothesis (`XmlWire.Distinct`, `UblWorth.Prefixed`) and not derived from a table.
- UblParser.ParseUBL: does not model sections the generator never writes: invoice period, allowances, delivery, payment
  terms, document references, billing reference, tax representative (src/ubl/parser.js:84-100 and 187-217). The
  validator's inputs include them.
- `parseFloat` on exponents and `Infinity`, `toFixed` from 1e21 on, and rules on NaN amounts other than VAT rates: never
  produced by the generator. A bare ampersand in the lines' currency is passed through by the library and not modelled.
- UblValidator.ValidateUBL: takes the single-field rules as findings with their severity (`Findings`); messages and
  locations are not modelled.
- ApCore.AccessPoint.SendInvoice: takes the UBL verdict, the active certificate and the transport's answer from the request;
  each is a step that succeeds or fails with a given result.
- `buildCompleteAS4Message`, the webhook and its retries, health and metrics text, `classifySendError`: one branch each.
- `updateStatus`, which no production path calls and on which the adapters differ.
- Columns SQLite does not keep (UBL, SBDH, retries), and the SQLite SMP cache with its narrower entries.
- Canonical ISO timestamps are instants; time zones and locale collation are not modelled. `to` filters are the last instant
  of the day.
- `toUpperCase` is modelled on ASCII letters (report countries, header countries and authorities).
- MonthlyReport.GenerateMonthlyReport: asks for names that are no inherited properties: with one, the sort of the ranking
  compares text with numbers and its order is up to the engine.
- CSV: the table of cells is modelled, not the lookup of snake_case headers in camelCase transactions.
- Argument parsing, table printing and the other commands of the log CLI.
