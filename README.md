# Chilean electronic invoicing (DTE) for Odoo — a verified model of its core

The repository is an Odoo localisation for Chile's tax authority (SII). It
issues electronic tax documents (DTE: facturas, boletas, credit and debit
notes), keeps the folio authorisations (CAF) from which document numbers are
drawn, stamps documents with a signed TED block, computes taxes and document
totals, and builds the purchase/sales book. A point-of-sale front end numbers
and stamps boletas offline and hands them to the server.

This project models that core in Dafny, one module per source file:

| module | file(s) | flavour |
|---|---|---|
| `Common` | — | shared rounding, strings, `Result`/`Option`, `Error` |
| `RutPos` | `ClientDetailsEdit.js` | RUT clean-up, check digit, display form |
| `Partner` | `res_partner.py` | server check digit, onchange, uniqueness |
| `PosFolio` | `models.js` (`get_next_number`, `get_sequence_left`) | folio allocation across CAF ranges |
| `PosTaxes` | `models.js` (`compute_all` and helpers) | POS tax engine |
| `PosStamp` | `models.js` (`timbrar`, `completa_cero`) | TED stamp |
| `PosOrder` | `models.js` (order and session state) | classes `Order`, `Session` |
| `CafFile` | `caf.py` | class `DteCaf` |
| `IrSequence` | `ir_sequence.py` | class `Sequence` |
| `ServerTaxes` | `account_tax.py` | server tax engine with retentions |
| `GlobalDr` | `global_descuento_recargo.py` | global discounts and surcharges |
| `Invoice` | `account_invoice.py` | totals, validations, `IndExeDR` |
| `Move` | `account_move.py` | per-move taxes and totals |
| `Libro` | `libro.py` | book taxes, boletas, book name |
| `PosDte` | `point_of_sale.py` | server-side DTE of POS orders |
| `InvoiceLine` | `account_invoice_line.py` | line prices, tax checks, tax detail |

Loops in the source are Dafny methods. Each one is proved equal to a
specification function, and the lemmas are stated about those functions.
Records the source updates in place (an order, a session, a CAF, a sequence, a
book line) are classes whose methods state their whole new state.

Money is a `real` wherever the source keeps floats. `Common.RoundPr` is the
currency rounding: half away from zero, at a precision given as a parameter.
`Common.PyRound` is Python's `round(x, n)`, which rounds half to even.
`Common.JsMathRound` is JavaScript's `Math.round`, which rounds half up.

Every exception the modelled code raises is a `Common.Error` inside
`Common.Result`: `UserError(message)`, Python's `KeyError`, `TypeError`,
`IndexError`, `UnboundLocalError`, `ValueError`, `ZeroDivisionError` and
`AttributeError`, and JavaScript's `TypeError` (reading a property of
`false` or `undefined`). `FuelExhausted` is not an exception of the source: it
marks the bound the model puts on one recursion (see "Left out").

### Behaviour of the code worth knowing

- **Folio 101 in `get_next_number`:** the line 217 test is `n >= H`. With ranges
  1–100 and 150–200, counter 101 stays 101 (`PosFolio.PassedExample`): the gap
  101–149 is not skipped.
- **`initialize` (`models.js`):** it calls `unset_boleta` first and only then reads
  `orden_numero`. A reloaded boleta therefore restarts from the session counter.
- **`compute_invoice_totals`:** it ignores the exempt factor `gdr_exe` that
  `porcentaje_dr` returns.
- **`_untaxed_gdr`:** a percent entry against a negative base keeps its raw
  `valor` (`GlobalDr.NegativeBaseKeepsValor`).
- **`_totales` of `account.move`:** adds a line's balance to the net once per IVA
  tax the line carries (`Move.NetCountsEachIvaTax`).
- **`_compute_price`:** `compute_all` always returns a dict, so the fallback
  branch at lines 58-62 is dead. `total` stays 0, and `price_total` is therefore
  the larger of `total_included` and 0.
- **The `compute_all` call in `_compute_price`:** it passes a `uom_id` keyword
  that the `compute_all` of `account_tax.py:22` does not accept. The model takes
  the outcome of that call as a parameter.
- **`_invoice_lines` of the POS:**
  - on an empty order it raises `UnboundLocalError` for `tax_include`;
  - a discount on a `NO_PRODUCT` line raises `KeyError` for `PrcItem`.
- **`_totales` of the POS:** the `tax_detail` path without any IVA tax raises
  `UnboundLocalError`.
- **`_monto_total` (`libro.py`):** leaves `monto_impuesto` unassigned when the rate
  is not positive.

## Model

| member | source | states |
|---|---|---|
| RutPos.StripSeparators | l10n_cl_dte_point_of_sale/static/src/js/ClientDetailsEdit.js:201-208 | the loop keeps exactly the characters that are not blank, dot or dash, in order |
| RutPos.StrippedRemovesExactlySeparators | l10n_cl_dte_point_of_sale/static/src/js/ClientDetailsEdit.js:201-208 | the stripped text has no separator, is no longer than the input, and a text without separators is left alone |
| RutPos.StrippedAppend | l10n_cl_dte_point_of_sale/static/src/js/ClientDetailsEdit.js:201-208 | stripping distributes over concatenation |
| RutPos.RevisarDigito2 | l10n_cl_dte_point_of_sale/static/src/js/ClientDetailsEdit.js:268-313 | accepts exactly when the last character equals the modulo-11 digit of the body, with weights 2..7 cycling from the right |
| RutPos.ExpectedDigit | l10n_cl_dte_point_of_sale/static/src/js/ClientDetailsEdit.js:298-306 | remainder 1 gives 'k', remainder 0 gives '0', otherwise the digit 11 − remainder |
| RutPos.ValidarRut | l10n_cl_dte_point_of_sale/static/src/js/ClientDetailsEdit.js:200-255 | true exactly for at least two RUT characters after stripping, with a correct check digit |
| RutPos.StrippedDotted | l10n_cl_dte_point_of_sale/static/src/js/ClientDetailsEdit.js:201-208 | a RUT written with dots and a dash strips to its digits and check digit |
| RutPos.RutValidOfDigits | l10n_cl_dte_point_of_sale/static/src/js/ClientDetailsEdit.js:200-255 | a text that strips to digits and a digit is valid exactly when the digit is the body's modulo-11 digit |
| RutPos.JsSumExample | l10n_cl_dte_point_of_sale/static/src/js/ClientDetailsEdit.js:289-297 | the weighted sum of body 12345678 is 138 |
| RutPos.CheckDigitExample | l10n_cl_dte_point_of_sale/static/src/js/ClientDetailsEdit.js:200-255 | 12.345.678-5 is valid and 12345678-4 is not |
| RutPos.AsWrittenAcceptsWrongDigit | l10n_cl_dte_point_of_sale/static/src/js/ClientDetailsEdit.js:307-310 | as written, the popup's truthy return makes 12345678-4 pass although its digit is wrong |
| RutPos.LPadZero | l10n_cl_dte_point_of_sale/static/src/js/ClientDetailsEdit.js:22 | left-pads with '0' to at least n characters and leaves longer text alone |
| RutPos.KeepRutCharsUpper | l10n_cl_dte_point_of_sale/static/src/js/ClientDetailsEdit.js:21 | only digits and 'K' remain |
| RutPos.Normalise | l10n_cl_dte_point_of_sale/static/src/js/ClientDetailsEdit.js:20-28 | the captured number always has 12 characters |
| RutPos.NormaliseShape | l10n_cl_dte_point_of_sale/static/src/js/ClientDetailsEdit.js:20-28 | dots at 2 and 6, dash at 10, and stripping gives back the padded digits when at most 9 are kept |
| RutPos.DottedFormStripsBack | l10n_cl_dte_point_of_sale/static/src/js/ClientDetailsEdit.js:23-28 | stripping the dotted display form gives back the 9 characters |
| Partner.Reverse | l10n_cl_fe/models/res_partner.py:249-250 | the reversed body has the same length and mirrored positions |
| Partner.ZipSum | l10n_cl_fe/models/res_partner.py:247-250 | raises ValueError exactly when a zipped character is not a digit |
| Partner.CheckVatCl | l10n_cl_fe/models/res_partner.py:240-256 | wrong length gives False; ValueError exactly for a non-digit body |
| Partner.ZipSumIsJsSum | l10n_cl_fe/models/res_partner.py:247-250 | the server's zipped sum equals the POS weighted sum |
| Partner.ExpectedDigitsAgree | l10n_cl_fe/models/res_partner.py:248-251 | the server's `'0123456789K0'` lookup and the POS digit agree, up to case |
| Partner.CheckDigitsAgree | l10n_cl_fe/models/res_partner.py:240-256 | for 9 characters, the server accepts exactly what the POS check digit accepts |
| Partner.PosAcceptsIffServerAccepts | l10n_cl_fe/models/res_partner.py:180-183 | when at most 9 RUT characters are kept, the POS and the server accept the same input |
| Partner.Normalised | l10n_cl_fe/models/res_partner.py:180-182 | at least 9 characters, only digits and 'K' |
| Partner.DisplayFormAgrees | l10n_cl_fe/models/res_partner.py:204-207 | the server's dotted form equals the POS form, with dots and dash in place |
| Partner.FirstHolder | l10n_cl_fe/models/res_partner.py:189-196 | a holder found is in the database, has the VAT, is not the generic VAT and belongs to another commercial partner; none found means no such record |
| Partner.PartnerForm.OnchangeDocument | l10n_cl_fe/models/res_partner.py:172-216 | for RUT/RUN: the bad-RUT warning, the holder warning that clears both fields, or sets `vat` and the dotted number; Sigd clears the number; otherwise `vat` is cleared |
| Partner.AcceptedNumberRoundTrip | l10n_cl_fe/models/res_partner.py:188-207 | an accepted number stored as `CL`+number checks again after dropping `CL`, and the displayed form is the POS form |
| Partner.UniquenessExemptions | l10n_cl_fe/models/res_partner.py:226-237 | an empty VAT, the generic VAT or a child contact never conflicts; another commercial partner with the same VAT does |
| Partner.RutUnique | l10n_cl_fe/models/res_partner.py:226-238 | no error iff no record conflicts; otherwise the error names the first conflicting VAT |
| PosFolio.Anchor | l10n_cl_dte_point_of_sale/static/src/js/models.js:206-212 | the start CAF is the last range holding the start number, or none |
| PosFolio.FindStartCaf | l10n_cl_dte_point_of_sale/static/src/js/models.js:206-212 | the loop finds `Anchor` |
| PosFolio.Scan | l10n_cl_dte_point_of_sale/static/src/js/models.js:213-228 | a CAF is chosen iff there is one, and it is an index of the list |
| PosFolio.ScanRanges | l10n_cl_dte_point_of_sale/static/src/js/models.js:213-228 | the loop computes the chosen CAF and the folios given |
| PosFolio.GetNextNumber | l10n_cl_dte_point_of_sale/static/src/js/models.js:205-241 | the method (recursion included) computes `NextNumber` |
| PosFolio.ScanGivedIsGivedSpec | l10n_cl_dte_point_of_sale/static/src/js/models.js:225-227 | folios given are the sizes of passed ranges other than the start CAF |
| PosFolio.ScanChoosesLastPassed | l10n_cl_dte_point_of_sale/static/src/js/models.js:216-218 | the last range whose end the number reached is the chosen CAF |
| PosFolio.NoRangeIdentity | l10n_cl_dte_point_of_sale/static/src/js/models.js:229-231 | without CAFs the number is returned unchanged |
| PosFolio.NoRemapAtOrAboveStart | l10n_cl_dte_point_of_sale/static/src/js/models.js:232-240 | the number is remapped only when it lies below the chosen CAF |
| PosFolio.PassedRangeMeansNoRemap | l10n_cl_dte_point_of_sale/static/src/js/models.js:216-218 | once some range's end is reached, the number is kept |
| PosFolio.TypeErrorIffNoAnchor | l10n_cl_dte_point_of_sale/static/src/js/models.js:232-233 | the `start_caf_file` dereference fails exactly when a remap is needed without a start CAF |
| PosFolio.PassedExample | l10n_cl_dte_point_of_sale/static/src/js/models.js:205-241 | counter 101 over ranges 1–100 and 150–200 gives 101 |
| PosFolio.RemapExample | l10n_cl_dte_point_of_sale/static/src/js/models.js:232-238 | counter 50 over 150–200 then 1–100 is remapped to 100 |
| PosFolio.GetSequenceLeft | l10n_cl_dte_point_of_sale/static/src/js/models.js:283-306 | the loop sums the folios left in each range the number has not passed |
| PosFolio.SequenceLeftBounds | l10n_cl_dte_point_of_sale/static/src/js/models.js:289-305 | folios left is at least the number of ranges still reachable, and 0 exactly when none is |
| PosFolio.WholeRangeLeft | l10n_cl_dte_point_of_sale/static/src/js/models.js:291-302 | a range not yet started counts whole |
| PosTaxes.SizeListElem | l10n_cl_dte_point_of_sale/static/src/js/models.js:381-384 | a child tax is smaller than the list, so group recursion terminates |
| PosTaxes.ComputeFactor | l10n_cl_dte_point_of_sale/static/src/js/models.js:311-319 | a tax without a loaded unit raises the TypeError of reading its factor; otherwise the amount is scaled by the unit's factor |
| PosTaxes.TaxAmount | l10n_cl_dte_point_of_sale/static/src/js/models.js:320-339 | fails with the TypeError exactly for a fixed tax without a unit; fixed gives factor × sign(base) × abs(quantity); excluded percent and included division give base × rate / 100 |
| PosTaxes.IncludedPercentRecoversBase | l10n_cl_dte_point_of_sale/static/src/js/models.js:330-331 | the included percentage tax leaves a net that grosses back up to the base |
| PosTaxes.ExcludedDivisionRecoversBase | l10n_cl_dte_point_of_sale/static/src/js/models.js:333-335 | the excluded division tax adds up to base / (1 − rate) |
| PosTaxes.FixedTaxSign | l10n_cl_dte_point_of_sale/static/src/js/models.js:322-327 | a fixed tax with a unit and a positive factor is computed, and is positive exactly when the base is not negative |
| PosTaxes.IncludedRecFails | l10n_cl_dte_point_of_sale/static/src/js/models.js:346-357 | the first loop fails exactly when some included non-percent tax has no unit |
| PosTaxes.FixComposed | l10n_cl_dte_point_of_sale/static/src/js/models.js:340-368 | no included tax means no composed amounts |
| PosTaxes.FixComposedFails | l10n_cl_dte_point_of_sale/static/src/js/models.js:340-368 | `_fix_composed_included_tax` raises the TypeError exactly when some included non-percent tax has no unit |
| PosTaxes.FixComposedIncludedTax | l10n_cl_dte_point_of_sale/static/src/js/models.js:340-368 | the loops compute `FixComposed`, the error included |
| PosTaxes.ComposedCommonBase | l10n_cl_dte_point_of_sale/static/src/js/models.js:346-366 | when the first loop succeeds, every percent tax is recomputed on the common base that grosses up to the price less included fixed taxes |
| PosTaxes.PercentMapEntry | l10n_cl_dte_point_of_sale/static/src/js/models.js:360-366 | each percent tax gets its grossed-up amount under its id |
| PosTaxes.ComputeAllSpec | l10n_cl_dte_point_of_sale/static/src/js/models.js:369-433 | any error is the TypeError; on success no zero tax line, and a rounding-free total exactly when the last tax is included; no taxes never fails and gives excluded = included = rounded price × quantity |
| PosTaxes.Fold | l10n_cl_dte_point_of_sale/static/src/js/models.js:385-420 | any error is the TypeError; on success lines only grow, nonzero lines stay nonzero, and `included` follows the last tax |
| PosTaxes.Step | l10n_cl_dte_point_of_sale/static/src/js/models.js:386-419 | any error is the TypeError; on success one tax appends lines and sets `included` to its own price_include |
| PosTaxes.ApplyTax | l10n_cl_dte_point_of_sale/static/src/js/models.js:385-420 | the loop body computes `Step` |
| PosTaxes.ComputeAll | l10n_cl_dte_point_of_sale/static/src/js/models.js:369-433 | the method computes `ComputeAllSpec`, stopping at the first error |
| PosTaxes.FoldStaysFailed | l10n_cl_dte_point_of_sale/static/src/js/models.js:385-420 | once a tax raises, the loop's outcome is that error |
| PosTaxes.PlainStep | l10n_cl_dte_point_of_sale/static/src/js/models.js:399-418 | a plain tax fails exactly when it is fixed without a unit; otherwise it adds nothing or appends one line, subtracting it from excluded (included) or adding it rounded to included (excluded) |
| PosTaxes.PlainFoldFails | l10n_cl_dte_point_of_sale/static/src/js/models.js:385-420 | without mapping and groups the loop fails exactly when some fixed tax has no unit |
| PosTaxes.ComputeAllFails | l10n_cl_dte_point_of_sale/static/src/js/models.js:321-322 | without mapping and groups `compute_all` fails exactly for a fixed tax without a unit, or, with several taxes, an included non-percent tax without one |
| PosTaxes.ExcludedTaxesAddToIncluded | l10n_cl_dte_point_of_sale/static/src/js/models.js:385-420 | with only excluded taxes, on success excluded is unchanged and included grows by the rounded lines |
| PosTaxes.IncludedTaxesSubtractFromExcluded | l10n_cl_dte_point_of_sale/static/src/js/models.js:385-420 | with only included taxes, on success included is unchanged and excluded drops by the lines |
| PosStamp.CompletaCero | l10n_cl_dte_point_of_sale/static/src/js/models.js:738-743 | always at least two characters, all digits |
| PosStamp.CompletaCeroTwoDigits | l10n_cl_dte_point_of_sale/static/src/js/models.js:738-743 | values below 100 become two digits that read back as the value |
| PosStamp.FormatStr | l10n_cl_dte_point_of_sale/static/src/js/models.js:771-773 | text without '&' is unchanged; otherwise it grows by the four characters of one escape |
| PosStamp.FormatStrFirstOnly | l10n_cl_dte_point_of_sale/static/src/js/models.js:771-773 | only the first '&' is escaped |
| PosStamp.RutEmisor | l10n_cl_dte_point_of_sale/static/src/js/models.js:799-802 | never longer than the document number; an undotted number without a leading zero is kept |
| PosStamp.RutEmisorOfDotted | l10n_cl_dte_point_of_sale/static/src/js/models.js:799-802 | from the dotted company RUT, both dots go and a leading zero is dropped |
| PosStamp.RemoveTwoDotsSplit | l10n_cl_dte_point_of_sale/static/src/js/models.js:799 | two `replace('.', '')` calls remove exactly the first two dots |
| PosStamp.LastAtMostFirst | l10n_cl_dte_point_of_sale/static/src/js/models.js:777-787 | the named line is the last one whose id is at most the first line's id |
| PosStamp.PickProductName | l10n_cl_dte_point_of_sale/static/src/js/models.js:774-787 | the nested loop picks `ProductName` |
| PosStamp.FirstLineNamed | l10n_cl_dte_point_of_sale/static/src/js/models.js:777-787 | if the first line has the smallest id, its product is named |
| PosStamp.NotTheSmallestId | l10n_cl_dte_point_of_sale/static/src/js/models.js:777-787 | ids 5, 3, 4 name the third line, not the smallest id |
| PosStamp.DdValues | l10n_cl_dte_point_of_sale/static/src/js/models.js:803-822 | one value per DD tag |
| PosStamp.Tagged | l10n_cl_dte_point_of_sale/static/src/js/models.js:803-822 | each value is wrapped in its tag and attributes, in order |
| PosStamp.Ranges | l10n_cl_dte_point_of_sale/static/src/js/models.js:748-754 | the CAF ranges in order |
| PosStamp.Timbrar | l10n_cl_dte_point_of_sale/static/src/js/models.js:744-827 | the method computes `TimbrarSpec` |
| PosStamp.StampTwiceSame | l10n_cl_dte_point_of_sale/static/src/js/models.js:745-747 | a stamped order is not signed again |
| PosStamp.StampNeedsCoveringCaf | l10n_cl_dte_point_of_sale/static/src/js/models.js:750-758 | an unsigned order gets a stamp iff some CAF covers its folio |
| PosStamp.StampUsesLastCoveringCaf | l10n_cl_dte_point_of_sale/static/src/js/models.js:750-754 | the last covering CAF is the one used |
| PosStamp.DdFieldOrder | l10n_cl_dte_point_of_sale/static/src/js/models.js:803-822 | tags RE, TD, F, FE, RR, RSR, MNT, IT1, CAF, TSTED, and only CAF has attributes |
| PosStamp.AnonymousReceiver | l10n_cl_dte_point_of_sale/static/src/js/models.js:763-770 | no client gives receiver 66666666-6, "Usuario Anonimo" |
| PosOrder.Export | l10n_cl_dte_point_of_sale/static/src/js/models.js:498-510 | `sequence_id` is `false` exactly without a sequence, and a sequence's own id otherwise |
| PosOrder.Load | l10n_cl_dte_point_of_sale/static/src/js/models.js:511-520 | loading never installs a new sequence object, and a falsy saved id keeps the order's sequence |
| PosOrder.ExportLoadKeepsFields | l10n_cl_dte_point_of_sale/static/src/js/models.js:498-520 | folio, signature, order number and finalized survive export then load |
| PosOrder.LoadExportRoundTrip | l10n_cl_dte_point_of_sale/static/src/js/models.js:498-520 | load then export gives back the JSON except `sequence_id`, which is looked up |
| PosOrder.LoadNeverRestoresSequence | l10n_cl_dte_point_of_sale/static/src/js/models.js:513-515 | a loaded `sequence_id` never becomes a sequence object |
| PosOrder.Order.constructor | l10n_cl_dte_point_of_sale/static/src/js/models.js:473-497 | boleta and invoice flags from the configuration, order number from the session (at least 1), signature dropped |
| PosOrder.Order.InitFromJson | l10n_cl_dte_point_of_sale/static/src/js/models.js:511-520 | the fields become `Load` of the old fields |
| PosOrder.Order.ExportAsJson | l10n_cl_dte_point_of_sale/static/src/js/models.js:498-510 | the JSON is `Export` of the fields |
| PosOrder.Order.UnsetBoleta | l10n_cl_dte_point_of_sale/static/src/js/models.js:691-697 | clears boleta, sequence, order number and folio, keeping the rest |
| PosOrder.Order.EsBoletaExenta | l10n_cl_dte_point_of_sale/static/src/js/models.js:704-709 | false for non-boletas; true exactly for class 41; a boleta without a sequence object fails |
| PosOrder.Session.GetSequenceNext | l10n_cl_dte_point_of_sale/static/src/js/models.js:267-282 | the next folio from the class's counter and start number |
| PosOrder.Session.GetSequenceLeft | l10n_cl_dte_point_of_sale/static/src/js/models.js:283-306 | 0 without a sequence, otherwise the folios left from the next folio |
| PosOrder.Session.PushOrder | l10n_cl_dte_point_of_sale/static/src/js/models.js:242-266 | a boleta bumps exactly its class's counter, takes it as order number, gets the next folio and is stamped when its total rounds positive |
| PosOrder.Session.TakeOrderNumber | l10n_cl_dte_point_of_sale/static/src/js/models.js:244-250 | the order takes its kind's counter, which moves on by one; the other counter and the starts stay |
| PosOrder.Order.SetFolioAndStamp | l10n_cl_dte_point_of_sale/static/src/js/models.js:259-263 | the folio is written, and the stamp only when the rounded total is positive; nothing else changes |
| CafFile.Expires | l10n_cl_fe/models/caf.py:114-115 | boletas, 34 and 52 never expire; a factura (33) does |
| CafFile.DaysInMonth | l10n_cl_fe/models/caf.py:116-119 | every month has 28 to 31 days |
| CafFile.AddMonths | l10n_cl_fe/models/caf.py:116-119 | the result is a valid date n months later, with the day clamped to the month's end |
| CafFile.AddMonthsIsLater | l10n_cl_fe/models/caf.py:116-119 | the expiration date is after the issue date |
| CafFile.ParseDigits | l10n_cl_fe/models/caf.py:116-118 | parses exactly the non-empty digit strings |
| CafFile.ParseFa | l10n_cl_fe/models/caf.py:116-118 | a parsed date is valid |
| CafFile.CompanyRut | l10n_cl_fe/models/caf.py:121 | never longer than the VAT; a VAT without 'L' is compared as it is |
| CafFile.CafMatchesPaddedCompany | l10n_cl_fe/models/caf.py:120-121 | a CAF's `RE` matches the company VAT stored with a leading zero |
| CafFile.CompanyRutDropsPad | l10n_cl_fe/models/caf.py:121 | `replace('L0', 'L')` drops the pad zero |
| CafFile.UseLevel | l10n_cl_fe/models/caf.py:133-143 | between 0 and 100; 100 exactly past the end; 0 before the start |
| CafFile.UseLevelDivisorPositive | l10n_cl_fe/models/caf.py:141 | inside the range the level is the used share and the divisor is positive |
| CafFile.CheckCaf | l10n_cl_fe/models/caf.py:121-130 | fails exactly on a RUT or document-class mismatch, otherwise returns `flags` |
| CafFile.DteCaf.LoadCaf | l10n_cl_fe/models/caf.py:105-131 | nothing without a file or sequence; otherwise range, class, issue date, expiry for classes other than 34, 52 and boletas, RUT check, and `in_use` unless `flags` |
| CafFile.DteCaf.SetExpiration | l10n_cl_fe/models/caf.py:114-118 | six months after the issue date for classes other than 34, 52 and boletas; a malformed date is an error |
| CafFile.DteCaf.CheckIssuer | l10n_cl_fe/models/caf.py:119-131 | the issuer's RUT and the document class must match, then `in_use` unless `flags` |
| CafFile.DteCaf.SetLevel | l10n_cl_fe/models/caf.py:133-143 | sets `use_level` and nothing else |
| IrSequence.SortByStart | l10n_cl_fe/models/ir_sequence.py:166 | the CAFs sorted by start, a permutation |
| IrSequence.NotEndedBefore | l10n_cl_fe/models/ir_sequence.py:168-175 | keeps exactly the CAFs not ended before the folio |
| IrSequence.NotEndedBeforeSorted | l10n_cl_fe/models/ir_sequence.py:166-175 | the filtered list stays sorted |
| IrSequence.CafFilesCorrect | l10n_cl_fe/models/ir_sequence.py:158-178 | False exactly when every CAF has ended; otherwise the current and future CAFs in start order |
| IrSequence.FirstUsable | l10n_cl_fe/models/ir_sequence.py:147-156 | a CAF returned covers the folio and is not expired |
| IrSequence.CafFileIsFirstUsable | l10n_cl_fe/models/ir_sequence.py:140-156 | the CAF returned has the lowest start among covering, unexpired CAFs |
| IrSequence.FirstUsableIsFirst | l10n_cl_fe/models/ir_sequence.py:147-152 | no earlier usable CAF is skipped |
| IrSequence.OfferedSumNonNegative | l10n_cl_fe/models/ir_sequence.py:32-38 | the folios offered add up to a non-negative count |
| IrSequence.QtyNonNegative | l10n_cl_fe/models/ir_sequence.py:24-51 | the available count is non-negative, and 0 without CAFs |
| IrSequence.OfferedCases | l10n_cl_fe/models/ir_sequence.py:33-38 | a covering CAF offers its remainder; a future CAF offers its whole range |
| IrSequence.Lowest | l10n_cl_fe/models/ir_sequence.py:187-189 | the CAF with the lowest start |
| IrSequence.LowestOfSorted | l10n_cl_fe/models/ir_sequence.py:187-189 | in the sorted list it is the first |
| IrSequence.FindLowest | l10n_cl_fe/models/ir_sequence.py:187-189 | the scan returns the first CAF with the lowest start |
| IrSequence.Sequence.GetCafFiles | l10n_cl_fe/models/ir_sequence.py:158-178 | the method computes the CAF filter |
| IrSequence.Sequence.GetCafFile | l10n_cl_fe/models/ir_sequence.py:140-156 | the method computes the CAF choice |
| IrSequence.Sequence.GetQtyAvailable | l10n_cl_fe/models/ir_sequence.py:24-51 | the method computes the folios available |
| IrSequence.Sequence.UpdateNextByCaf | l10n_cl_fe/models/ir_sequence.py:180-191 | `number_next` jumps to the lowest start when the folio is below it, otherwise is kept |
| IrSequence.UpdateNeverBelowFolio | l10n_cl_fe/models/ir_sequence.py:187-191 | the jump target is above the folio and at most every remaining start |
| ServerTaxes.ComputeAmountRet | l10n_cl_fe/models/account_tax.py:130-136 | a retention exists only for percent or included division, and fails only on a −100% included percent |
| ServerTaxes.IncludedRetentionRecoversNet | l10n_cl_fe/models/account_tax.py:131-134 | an included retention leaves a net that grosses up to the base |
| ServerTaxes.Step | l10n_cl_fe/models/account_tax.py:84-122 | appends one tax line, and fails exactly for a retention without an amount |
| ServerTaxes.ApplyTax | l10n_cl_fe/models/account_tax.py:84-122 | the loop body computes `Step` |
| ServerTaxes.ComputeAllLoop | l10n_cl_fe/models/account_tax.py:22-128 | the method computes `ComputeAll` |
| ServerTaxes.ResultSortedBySequence | l10n_cl_fe/models/account_tax.py:124 | the tax lines come out sorted by sequence |
| ServerTaxes.NoTaxes | l10n_cl_fe/models/account_tax.py:56-65 | without taxes, excluded = included = the rounded discounted base |
| ServerTaxes.StepGap | l10n_cl_fe/models/account_tax.py:89-105 | included − excluded grows by the tax, less the retention (twice for included retentions) |
| ServerTaxes.StepRecordsBaseBeforeCascade | l10n_cl_fe/models/account_tax.py:94-110 | the line records the base before `include_base_amount` adds the tax |
| ServerTaxes.PlainFoldGap | l10n_cl_fe/models/account_tax.py:73-122 | over plain taxes, included − excluded grows by the sum of the tax lines |
| ServerTaxes.GroupKeyErrorAsWritten | l10n_cl_fe/models/account_tax.py:74-82 | as written, a group tax fails reading `ret['retencion']` |
| ServerTaxes.LoneGroupFold | l10n_cl_fe/models/account_tax.py:74-82 | with the key fixed, a group adopts its children's totals, base and lines |
| ServerTaxes.GroupAdoptsChildren | l10n_cl_fe/models/account_tax.py:74-82 | with the key fixed, a lone group's result is its children's result |
| ServerTaxes.ChildTotalsRounded | l10n_cl_fe/models/account_tax.py:125-126 | totals are already rounded to the currency |
| GlobalDr.Name | l10n_cl_fe/models/global_descuento_recargo.py:15-23 | the name is longer than its separators |
| GlobalDr.NameDeterminesEntry | l10n_cl_fe/models/global_descuento_recargo.py:15-23 | the name determines kind, calculation and detail |
| GlobalDr.GetValores | l10n_cl_fe/models/global_descuento_recargo.py:47-55 | the loops compute `Valores` |
| GlobalDr.TaxedBaseAtMostExemptBase | l10n_cl_fe/models/global_descuento_recargo.py:47-55 | for non-negative lines, the `afectos` base is at most the `exentos` base |
| GlobalDr.LineValueAtMostAll | l10n_cl_fe/models/global_descuento_recargo.py:49-54 | a line counts once per tax, and at most that for `afectos` |
| GlobalDr.Accumulate | l10n_cl_fe/models/global_descuento_recargo.py:58-80 | one amount per entry |
| GlobalDr.FirstOverdrawn | l10n_cl_fe/models/global_descuento_recargo.py:81-85 | the first invoice whose discounts reach base plus surcharges, or none |
| GlobalDr.VisitEntry | l10n_cl_fe/models/global_descuento_recargo.py:60-80 | the loop body computes `Visit` |
| GlobalDr.FindOverdrawn | l10n_cl_fe/models/global_descuento_recargo.py:81-85 | the loop computes `FirstOverdrawn` |
| GlobalDr.ComputeUntaxedGdr | l10n_cl_fe/models/global_descuento_recargo.py:58-85 | the method computes `UntaxedGdr` |
| GlobalDr.AccumulateConsistent | l10n_cl_fe/models/global_descuento_recargo.py:63-79 | the per-invoice totals always equal the sums of their entries |
| GlobalDr.KindSumPrefix | l10n_cl_fe/models/global_descuento_recargo.py:76-79 | later entries do not change earlier sums |
| GlobalDr.GroupTotalsAreEntrySums | l10n_cl_fe/models/global_descuento_recargo.py:76-79 | `des` and `rec` are the sums of that invoice's discounts and surcharges |
| GlobalDr.UntaxedFailsIffOverdrawn | l10n_cl_fe/models/global_descuento_recargo.py:81-85 | the error is raised exactly when some invoice is overdrawn |
| GlobalDr.NegativeBaseKeepsValor | l10n_cl_fe/models/global_descuento_recargo.py:68-75 | a percentage against a negative base keeps its raw value |
| GlobalDr.PositiveBasePercentage | l10n_cl_fe/models/global_descuento_recargo.py:69-75 | a percentage against a positive base becomes the rounded share |
| GlobalDr.GetAgrupados | l10n_cl_fe/models/global_descuento_recargo.py:87-94 | the loop computes `Agrupar` |
| GlobalDr.Amounts | l10n_cl_fe/models/global_descuento_recargo.py:89-93 | one amount per entry |
| GlobalDr.AgrupadosTotal | l10n_cl_fe/models/global_descuento_recargo.py:87-94 | the four buckets add up to all amounts |
| GlobalDr.GetMontoAplicar | l10n_cl_fe/models/global_descuento_recargo.py:96-104 | the loop computes the signed total |
| GlobalDr.MontoAplicarSigned | l10n_cl_fe/models/global_descuento_recargo.py:96-104 | surcharges minus discounts over the grouped buckets |
| Invoice.FormatVat | l10n_cl_fe/models/account_invoice.py:1080-1090 | a given value comes back at most one character longer: the hyphen, since the removals only shorten |
| Invoice.FormatVatAddsOneHyphen | l10n_cl_fe/models/account_invoice.py:1080-1090 | exactly one hyphen is added to a given value |
| Invoice.FormatVatDefault | l10n_cl_fe/models/account_invoice.py:1080-1090 | no VAT gives the generic 66666666-6 |
| Invoice.FormatVatOfNormalised | l10n_cl_fe/models/account_invoice.py:1080-1090 | `CL`+9 characters gives body-dash-digit, dropping a leading zero unless `con_cero` |
| Invoice.AcortarStr | l10n_cl_fe/models/account_invoice.py:1108-1114 | the result is the prefix of length min(size, len) and empty for size ≤ 0 |
| Invoice.FactorSpreadsAmount | l10n_cl_fe/models/account_invoice.py:519-526 | the factor applied to the base adds exactly the net surcharge |
| Invoice.PorcentajeDr | l10n_cl_fe/models/account_invoice.py:507-530 | the method computes the two factors |
| Invoice.PorcentajeDrSpreadsEntries | l10n_cl_fe/models/account_invoice.py:507-526 | the taxed factor times the taxed base is the base plus surcharges minus discounts |
| Invoice.ValidacionesUsoDte | l10n_cl_fe/models/account_invoice.py:927-952 | every failure is a `UserError` with one of the eight messages; a note without references fails on the first |
| Invoice.ValidacionesOkIff | l10n_cl_fe/models/account_invoice.py:927-952 | passes exactly when notes carry references, signature, language and CLP are active, refund type iff credit-note class, every entry is positive, and rounding is global |
| Invoice.TaxScanFacts | l10n_cl_fe/models/account_invoice.py:1358-1366 | the IVA line is the last one with code 14 or 15; AttributeError exactly when code 17 comes before any IVA line |
| Invoice.ScanTaxLines | l10n_cl_fe/models/account_invoice.py:1358-1366 | the loop computes `TaxScan` |
| Invoice.ComputeTotales | l10n_cl_fe/models/account_invoice.py:1344-1379 | the method computes `TotalesSpec` |
| Invoice.TotalesRefusals | l10n_cl_fe/models/account_invoice.py:1351-1368 | taxes on an exempt document and exempt-only taxable documents are refused with their messages |
| Invoice.NoProductZeroes | l10n_cl_fe/models/account_invoice.py:1353-1379 | `no_product` zeroes net, IVA, rate and total |
| Invoice.TotalesIvaFromLastIvaLine | l10n_cl_fe/models/account_invoice.py:1356-1373 | rate and IVA come from the last IVA line, and no IVA line means no rate |
| Invoice.IndExeNeverSetAsWritten | l10n_cl_fe/models/account_invoice.py:1559-1561 | as written, `IndExeDR` is never set |
| Invoice.EsExento | l10n_cl_fe/models/account_invoice.py:1339-1342 | 34 and 41 are exempt whatever they refer to; a 33 is exempt exactly when its first reference is a 32, 34 or 41 |
| Invoice.IndExeOnlyOnExempt | l10n_cl_fe/models/account_invoice.py:1339-1342 | the corrected `IndExeDR` appears only on exempt documents |
| Invoice.Gdr | l10n_cl_fe/models/account_invoice.py:1538-1564 | one line per entry, numbered from 1, each built by `DrLineOf` with the `IndExeDR` test as written or corrected |
| Invoice.GdrNumbering | l10n_cl_fe/models/account_invoice.py:1542-1551 | line i is numbered i+1, and `$` exactly for amount entries |
| Invoice.GdrNeverMarksAsWritten | l10n_cl_fe/models/account_invoice.py:1558-1561 | as written, no line carries `IndExeDR`, although the corrected test marks a 34 referring to a 34 |
| Invoice.GdrMarksOnlyExempt | l10n_cl_fe/models/account_invoice.py:1558-1561 | corrected, a line carries `IndExeDR` exactly for a 34 whose first reference is a 34, and only on exempt invoices |
| Invoice.ComputeInvoiceTotals | l10n_cl_fe/models/account_invoice.py:296-360 | the array is updated in place to the specified lines, with the total |
| Invoice.SignLines | l10n_cl_fe/models/account_invoice.py:310-349 | every line is replaced in place by its scaled, rounded, signed amount; the running total is ± the rounded sum and the difference left is the invoice total minus that sum |
| Invoice.LinePrice | l10n_cl_fe/models/account_invoice.py:323-338 | the global factor applies to non-tax, non-exempt lines only, then the currency rounding |
| Invoice.PriceSumSigned | l10n_cl_fe/models/account_invoice.py:341-349 | the signed lines add up to ± the rounded total |
| Invoice.PriceSumUpdateFirst | l10n_cl_fe/models/account_invoice.py:350-356 | changing the first price changes the sum by the difference |
| Invoice.DifferenceAbsorbedByFirstLine | l10n_cl_fe/models/account_invoice.py:350-360 | after the fix-up the lines add up to ∓ the invoice total, and only the first line absorbs the difference |
| Move.AddLineTo | l10n_cl_fe/models/account_move.py:315-336 | the loop body computes `AddLine` |
| Move.GetMoveImps | l10n_cl_fe/models/account_move.py:313-338 | the loop computes `MoveImps` |
| Move.MoveImpsMerge | l10n_cl_fe/models/account_move.py:313-338 | a tax is present iff some line is keyed to it, and holds that tax's credit and debit sums |
| Move.TotalesPorMovimiento | l10n_cl_fe/models/account_move.py:339-355 | the method computes the split |
| Move.SplitPartitions | l10n_cl_fe/models/account_move.py:345-353 | IVA, exempt and other taxes partition the merged amounts |
| Move.NetoIsAmountLessTaxes | l10n_cl_fe/models/account_move.py:354 | net is the move amount less all tax amounts |
| Move.ScanSpec | l10n_cl_fe/models/account_move.py:922-929 | there is an IVA line iff some line's tax has code 14 or 15 |
| Move.ScanLines | l10n_cl_fe/models/account_move.py:922-929 | the loop computes `ScanSpec` |
| Move.MoveTotales | l10n_cl_fe/models/account_move.py:906-946 | the method computes the move totals |
| Move.SignFlipsNetIvaBase | l10n_cl_fe/models/account_move.py:907-910 | the direction flips net, IVA and base and nothing else |
| Move.NetCountsEachIvaTax | l10n_cl_fe/models/account_move.py:924-927 | a line carrying taxes 14 and 15 counts twice in the net |
| Libro.GetImps | l10n_cl_fe/models/libro.py:289-299 | the nested loop computes `BookImps` |
| Libro.MergeKeysSums | l10n_cl_fe/models/libro.py:293-298 | merging one move adds its credit and debit to the keys it carries |
| Libro.BookImpsSums | l10n_cl_fe/models/libro.py:289-299 | a key is in the book iff some move has it, and holds the sums over all moves |
| Libro.MoveImpsWellFormed | l10n_cl_fe/models/account_move.py:313-338 | each move's taxes are keyed once, in first-seen order |
| Libro.SumsOfLines | l10n_cl_fe/models/libro.py:289-299 | summing per move equals summing per journal line |
| Libro.BookImpsOfLines | l10n_cl_fe/models/libro.py:289-299 | the book's credit and debit for a tax are the sums over every move's lines |
| Libro.BookNameParts | l10n_cl_fe/models/libro.py:345-348 | with no blank in the operation, the name determines operation and period |
| Libro.Book.SetName | l10n_cl_fe/models/libro.py:345-348 | the name is the operation, then a blank and the period when there is one |
| Libro.Boletas.MontoTotal | l10n_cl_fe/models/libro.py:513-518 | total is net plus tax, and the tax field changes only for a positive rate |
| Libro.TotalGrossesUpNet | l10n_cl_fe/models/libro.py:516-518 | the total is net × (1 + rate/100) for a positive rate, else net |
| Libro.Boletas.GetCantidad | l10n_cl_fe/models/libro.py:521-526 | error exactly for a reversed range; the count is final − initial + 1 for a valid one |
| Libro.FoliosBetween | l10n_cl_fe/models/libro.py:526 | a folio is in the range iff it lies between the bounds |
| Libro.CantidadCountsFolios | l10n_cl_fe/models/libro.py:526 | final − initial + 1 is the number of folios in the range |
| Libro.VentaReversesSign | l10n_cl_fe/models/libro.py:533-537 | sales books use the opposite sign |
| Libro.ImpuestoLibro.GetMonto | l10n_cl_fe/models/libro.py:533-537 | debit − credit, reversed for VENTA |
| PosDte.ScanIva | l10n_cl_dte_point_of_sale/models/point_of_sale.py:450-454 | the nested loop finds the rate of the last IVA tax |
| PosDte.LatestIvaFound | l10n_cl_dte_point_of_sale/models/point_of_sale.py:450-454 | the rate changes only on an IVA tax, to its rounded amount |
| PosDte.IvaRateFromIvaTax | l10n_cl_dte_point_of_sale/models/point_of_sale.py:449-454 | a rate exists iff some line has an IVA tax, and it is such a tax's rounded amount |
| PosDte.Totales | l10n_cl_dte_point_of_sale/models/point_of_sale.py:429-476 | the method computes `TotalesSpec` |
| PosDte.TotalesRefusals | l10n_cl_dte_point_of_sale/models/point_of_sale.py:438-460 | user errors exactly for taxes on exempt classes or a taxless boleta; UnboundLocalError exactly for `tax_detail` without IVA |
| PosDte.TotalesMntTotal | l10n_cl_dte_point_of_sale/models/point_of_sale.py:432-436 | the total is the absolute rounded amount, 0 for `no_product` |
| PosDte.TotalesNetoNeedsIva | l10n_cl_dte_point_of_sale/models/point_of_sale.py:449-464 | net only with an IVA tax, with rate and IVA for non-boletas; a plain boleta carries none |
| PosDte.ScanLineTaxes | l10n_cl_dte_point_of_sale/models/point_of_sale.py:501-507 | the loop computes the line's exempt flag and included flag |
| PosDte.TakeOfPrefix | l10n_cl_dte_point_of_sale/models/point_of_sale.py:252-258 | `_acortar_str`'s result is the clamped prefix |
| PosDte.BuildLine | l10n_cl_dte_point_of_sale/models/point_of_sale.py:493-543 | the loop body computes `LineStep` |
| PosDte.InvoiceLines | l10n_cl_dte_point_of_sale/models/point_of_sale.py:486-549 | the method computes `InvoiceLinesSpec` |
| PosDte.FoldLines | l10n_cl_dte_point_of_sale/models/point_of_sale.py:492-543 | the loop over the order lines computes `LinesFold`, stopping at the first line that fails |
| PosDte.NextLine | l10n_cl_dte_point_of_sale/models/point_of_sale.py:493-543 | one pass of the loop extends the fold by the next line |
| PosDte.FoldStaysFailed | l10n_cl_dte_point_of_sale/models/point_of_sale.py:492-543 | the first error is the one raised |
| PosDte.FoldShape | l10n_cl_dte_point_of_sale/models/point_of_sale.py:492-543 | numbering from 1, non-negative amounts, positive quantities, no zero price, and `NO_PRODUCT` sticks |
| PosDte.InvoiceLinesShape | l10n_cl_dte_point_of_sale/models/point_of_sale.py:486-549 | one detail per line with those properties |
| PosDte.NoProductFirstFailsAsWritten | l10n_cl_dte_point_of_sale/models/point_of_sale.py:528-537 | as written, a first `NO_PRODUCT` line fails on `price` (or `PrcItem` with a discount) |
| PosDte.CorrectedFailsOnlyOnDiscount | l10n_cl_dte_point_of_sale/models/point_of_sale.py:528-537 | corrected, the lines fail exactly for a discount on a no-product line |
| PosDte.CorrectedStepFails | l10n_cl_dte_point_of_sale/models/point_of_sale.py:520-530 | corrected, one line fails exactly when it carries a discount and `NO_PRODUCT` has been seen (no `PrcItem` to read) |
| PosDte.FoldNoProduct | l10n_cl_dte_point_of_sale/models/point_of_sale.py:493-494 | the `no_product` flag is set exactly from the `NO_PRODUCT` line on |
| PosDte.NoExemptNoMntExe | l10n_cl_dte_point_of_sale/models/point_of_sale.py:502-505 | without exempt taxes, no exempt amount and no `IndExe` |
| PosDte.NoExemptFlags | l10n_cl_dte_point_of_sale/models/point_of_sale.py:502-505 | a line without exempt taxes adds nothing exempt |
| PosDte.ServerOrder.ProcessOrder | l10n_cl_dte_point_of_sale/models/point_of_sale.py:261-290 | a numbered order raises its class's session counter to its number, takes its class and folio, keeps its signature when it can sign; an invoice gets class 33 or 34 |
| PosDte.ServerOrder.ActionPosOrderPaid | l10n_cl_dte_point_of_sale/models/point_of_sale.py:934-940 | a paid order with a sequence, no XML, no folio and no signature takes the next folio; nothing else changes |
| PosDte.PaidTwiceTakesOneFolio | l10n_cl_dte_point_of_sale/models/point_of_sale.py:934-940 | paying twice consumes at most one folio |
| InvoiceLine.DiscountAmountBounds | l10n_cl_fe/models/account_invoice_line.py:14-18 | within half a peso of the share; 0 without discount; non-negative for non-negative inputs; the whole amount at 100% |
| InvoiceLine.CheckTaxes | l10n_cl_fe/models/account_invoice_line.py:40-48 | the loop computes the checks |
| InvoiceLine.CheckFromOkIff | l10n_cl_fe/models/account_invoice_line.py:40-48 | passes iff every unit category matches and every tax agrees on price_include |
| InvoiceLine.CheckTaxesOkIff | l10n_cl_fe/models/account_invoice_line.py:40-48 | passes iff units match and all taxes agree with the first; a failure is a UserError |
| InvoiceLine.CheckFromErr | l10n_cl_fe/models/account_invoice_line.py:41-46 | every failure is a UserError |
| InvoiceLine.AccountInvoiceLine.SetDiscountAmount | l10n_cl_fe/models/account_invoice_line.py:14-18 | sets `discount_amount` and nothing else |
| InvoiceLine.AccountInvoiceLine.ComputePrice | l10n_cl_fe/models/account_invoice_line.py:33-74 | after the checks, subtotal is total_excluded, signed for refunds, and total is max(total_included, 0) |
| InvoiceLine.GetTaxDetail | l10n_cl_fe/models/account_invoice_line.py:77-115 | the method computes `TaxDetailSpec` |
| InvoiceLine.FoldExempt | l10n_cl_fe/models/account_invoice_line.py:92-94 | the exempt amount is the rounded subtotal once per exempt tax |
| InvoiceLine.FoldTaxed | l10n_cl_fe/models/account_invoice_line.py:95-106 | one entry per taxed tax, with its code and rate |
| InvoiceLine.FoldAmountTotal | l10n_cl_fe/models/account_invoice_line.py:96-97 | boletas add the line total once per taxed tax |
| InvoiceLine.TaxDetailExempt | l10n_cl_fe/models/account_invoice_line.py:87-94 | `MntExe` counts each exempt tax, and `IndExe` iff there is one |
| InvoiceLine.ExtraIffPositive | l10n_cl_fe/models/account_invoice_line.py:107 | the extra entry appears exactly for a boleta with a taxed tax and a positive total |
| InvoiceLine.TaxDetailEntries | l10n_cl_fe/models/account_invoice_line.py:87-114 | the taxed entries, plus the named entry of the last tax when the total is positive |
| InvoiceLine.FoldAdditional | l10n_cl_fe/models/account_invoice_line.py:88-90 | an additional-tax code is recorded iff a non-boleta has one |
| InvoiceLine.TaxDetailAdditional | l10n_cl_fe/models/account_invoice_line.py:87-90 | the recorded code is one of 26, 27, 28, 35, 271, exactly for non-boletas that carry one |

## Left out

- User interface: popups, dialogs, `get_remote_data` and the partner form's screens. Popups are represented only by their return value.
- Cryptography: `forge` signing, `pdf417`, base64 and XML decoding. A signature is a function parameter, and a CAF is a record of its fields.
- ORM searches, `sudo`, `browse`, and records looked up by id. The model receives them as parameters (`secuencias`, the database of partners, the next folio from `next_by_id`).
- Clock and locale: `context_today`, `time_stamp` and `validation_date` are parameters.
- Multi-currency: the branches of `compute_invoice_totals`, `_gdr` and `_compute_price` that convert to another currency. The model covers the company currency only.
- Floating point: amounts are exact reals, and rounding is an explicit function. Float error is not modelled.
- JavaScript division by zero and `NaN`: `get_next_number` and `_compute_all` are stated over integers and reals.
- Upper-casing is ASCII only.
- JSON values are ints, booleans and strings, not untyped objects.
- `verify_mepco`, `prepare_mepco`, `check_cafs`, `solicitar_caf`: these fetch from the network or cron.
- `do_validate`, `_crear_envio`, `do_dte_send` and the send/status calls: these talk to the tax authority.
- `_timbrar` of `pos.order` (point_of_sale.py:596-615): it signs locally through the external `fe.timbrar` library and raises a `UserError` carrying the library's error. That library is not part of this model, so neither the stamp nor that error path is modelled.
- `load_caf`'s `decode_caf` is a parameter. The CAF it parses is given as a record.
- `_compute_amount` (the Odoo base tax amount) is a parameter of `ServerTaxes`.
- `compute_factor` for codes 28 and 35 is the `factor` field of `DetailTax`.
- `es_boleta()` and `_nc_boleta()` are parameters.
- PosFolio.NextNumber: the recursion of `get_next_number` is bounded by a `fuel` parameter. Running out of fuel gives `FuelExhausted`, which the source would not return.
- IrSequence.CafFilesCorrect: CAFs are taken as loaded. The reload (`load_caf`) of CAFs whose start is 0 (ir_sequence.py:169-173) is not modelled, nor are the errors it logs and swallows. Such a CAF is filtered on the range it already has.
- IrSequence.Sequence.GetCafFiles: the same reload of start-0 CAFs, and its swallowed errors, are left out of the loop.
- PosTaxes.ComputeAllSpec: the fiscal-position mapping (`_map_tax_fiscal_position`) is a parameter. It must return a tax no larger than its input, so that recursion through group taxes terminates. A mapping that grows a group is not modelled.
- Partner.PosAcceptsIffServerAccepts: stated only for inputs that keep at most 9 RUT characters. Longer inputs are cut differently by the POS (`slice`) and the server (`len != 9`).
- Libro.Boletas.MontoTotal: when the rate is not positive, the source leaves `monto_impuesto` unassigned. The model keeps the old value.
- PosDte.ServerOrder.ProcessOrder: the line copy and `sequence_number` fix-up at lines 262-268 are ORM bookkeeping and are not modelled.
- The `gdr_detail` of an entry being `None` is the empty detail.

## Findings

| source | as written | input that shows it | evidently intended | confidence | as-written member | corrected member |
|---|---|---|---|---|---|---|
| l10n_cl_dte_point_of_sale/static/src/js/ClientDetailsEdit.js:307-310 | `revisarDigito2` returns the popup Promise, which is truthy, on a wrong check digit | `validar_rut("12345678-4", false)` is accepted | a wrong digit rejects the RUT | high (not executed) | RutPos.AsWrittenAcceptsWrongDigit | RutPos.ValidarRut |
| l10n_cl_fe/models/account_tax.py:74-82 | a group tax reads `ret['retencion']` from a result dict that has no such key | any group tax whose children compute | the group adopts its children's totals | high (not executed) | ServerTaxes.GroupKeyErrorAsWritten | ServerTaxes.GroupAdoptsChildren |
| l10n_cl_fe/models/account_invoice.py:1559-1561 | `sii_code == "34"` compares an int with a string | an exempt invoice (34) that references a 34 never sets `IndExeDR` | compare with the int 34 | high (not executed) | Invoice.GdrNeverMarksAsWritten | Invoice.GdrMarksOnlyExempt |
| l10n_cl_dte_point_of_sale/models/point_of_sale.py:528-537 | `price` is read although no branch assigns it when the first line is `NO_PRODUCT` | one `NO_PRODUCT` line with discount 0 raises `UnboundLocalError` | a no-product line has amount 0 | high (not executed) | PosDte.NoProductFirstFailsAsWritten | PosDte.CorrectedFailsOnlyOnDiscount |
