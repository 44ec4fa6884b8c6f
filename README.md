# Ultra GST Invoice: the invoice ledger and the coupon engine in Dafny

This project models the two parts of the Ultra GST Invoice WordPress plugin that carry real logic, and proves properties of them.

**The invoice ledger** (`includes/class-invoice.php`) covers:

- **Totals.** An invoice's totals are a loop over its lines: quantity × rate less the line discount, tax at the line's rate, and their sums. The tax is split into CGST + SGST when the customer's state is exactly the company's state, and into IGST otherwise.
- **Numbering.** The invoice number is the configured prefix followed by one past the largest existing suffix, never below the start number, left-padded with zeros to four digits. This holds as the numbering query reads suffixes for a prefix of ASCII characters without quotes. A prefix with other characters is the subject of the finding below.
- **Transactions.** Create, update and delete are transactions over four tables: invoices, invoice items, payments and product stock. Each one commits all of its writes or rolls all of them back. Stock moves with every line that names a product, and nothing stops it going negative.

**The coupon engine** (`includes/class-coupons.php`) covers:

- **Creation.** Coupons are stored under a unique upper-case code. The numeric fields are taken as submitted: a value for which PHP's `empty()` holds counts as missing, but one typed as "0.00" does not. Such a maximum discount is therefore stored as 0 and caps the discount at 0. The duplicate check compares the code as typed, but the row stores it upper-cased. A lower-case twin of an existing code therefore passes the check and is refused by the unique key instead. The model reports this as `InsertFailed`, not `CodeExists`.
- **Validation.** A coupon is looked up by the upper-cased code among active coupons. Then an ordered chain of checks runs and the first failure wins: expired, not yet active, usage limit reached, order below the minimum, customer not on the allow-list, no product on the allow-list.
- **Discount.** The discount depends on the coupon type. A percentage is capped by the maximum discount when one is set. A fixed amount is capped by the order total. Free shipping gives 0.
- **Redemption.** Using a coupon adds one to its use count without re-checking the limit, and appends a usage record. This also happens for an id that matches no coupon: the counter update then touches no row, but the record is still written.
- **Bulk generation.** This makes `count` independent creations of single-use coupons that expire after the requested number of days. A failed creation is skipped. Each attempt is create_coupon on the table the earlier attempts left.
- **Deletion.** Deleting removes one coupon and leaves the usage log alone.

Modules:

- `Optional` (option type).
- `Numerals`: PHP's decimal rendering, `str_pad`, and MySQL's `CAST(... AS UNSIGNED)`.
- `Tax`: the totals loop and its specification.
- `Numbering`: invoice-number syntax, the next number, its freshness, and the byte-offset reading of the numbering query.
- `Ledger`: the `InvoiceStore` class, with the stock and item-row functions that specify it.
- `Coupons`: pure lookup, validation and discount functions, plus the `CouponStore` class.

External inputs become parameters:

- the clock is `now` (seconds);
- the current user is `user`;
- the random suffixes of `wp_generate_password` are a sequence of strings;
- plugin options are a `Settings` value;
- whether the store accepts a write is a boolean `storeOk`, or `stored` for each bulk attempt.

Amounts are exact `real`s. A customer or product id of 0 stands for PHP's "empty". An empty allow-list stands for SQL NULL.

## Model

| member | source | states |
|---|---|---|
| Numerals.Digits | includes/class-invoice.php:461 | The rendering of a natural number is a non-empty string of decimal digits, with no leading zero unless the number is 0. |
| Numerals.LeadingDigits | includes/class-invoice.php:452-456 | What `CAST(... AS UNSIGNED)` reads is the longest prefix of the string made only of digits: it stops at the first non-digit. |
| Numerals.ValueOfDigits | includes/class-invoice.php:461 | Reading back the rendering of n gives n. |
| Numerals.ValueIgnoresLeadingZeros | includes/class-invoice.php:461 | Left-padding a numeral with zeros keeps it all digits and keeps its value. |
| Numerals.LeadingDigitsOfNumeral | includes/class-invoice.php:452-456 | On a string of digits the cast reads the whole string. |
| Numerals.PaddedRoundTrip | includes/class-invoice.php:452-461 | Zero-padding n to a width gives at least that many digits, and the cast reads n back. |
| Numbering.NextNumber | includes/class-invoice.php:459 | The next sequence number is above the last suffix and at least the start number, and it is one of the two. |
| Numbering.Suffix | includes/class-invoice.php:454 | The suffix of a number with the prefix is read right after the prefix. When everything after the prefix is digits, it is the value of those digits. |
| Numbering.InvoiceNumber | includes/class-invoice.php:461 | A generated number starts with the prefix and has at least four characters after it, all digits. |
| Numbering.QuerySuffix | includes/class-invoice.php:454 | As written, the query reads the leading digits starting at the character whose index is the prefix's length in bytes; when that index is at or past the end, it reads 0. `AsciiQuerySuffix` and `MultibytePrefixRepeatsNumber` compare this with `Suffix`. |
| Numbering.AsciiQuerySuffix | includes/class-invoice.php:454 | For an ASCII prefix, the query's byte-offset reading of the suffix is exactly `Suffix`. |
| Numbering.MultibytePrefixRepeatsNumber | includes/class-invoice.php:454-461 | With the prefix "№-", the query reads "№-0099" as 99 and "№-0100" as 0. The next number after both is "№-0100" again, whose intended suffix is 100. |
| Numbering.NextInvoiceNumberIsNext | includes/class-invoice.php:448-462 | Rendering max(last + 1, start), with `last` the largest existing suffix or 0, gives the next number. It has the prefix and canonical form, its suffix is at least 1 and at least the start number, it is above every existing suffix, and it is the start number, 1, or one past an existing suffix. |
| Numbering.NextNumberIsUnique | includes/class-invoice.php:459 | Those conditions pin the next number down: two numbers that both meet them are equal. |
| Numbering.InvoiceNumberRoundTrip | includes/class-invoice.php:449-461 | A generated number starts with the prefix and has at least four digits after it. Reading its suffix back gives the sequence number. |
| Numbering.InvoiceNumberInjective | includes/class-invoice.php:461 | Different sequence numbers give different invoice numbers. |
| Numbering.NextInvoiceNumberIsFresh | includes/class-invoice.php:448-462 | The next number's suffix is strictly above every existing suffix, so the new number is none of the existing ones. |
| Tax.LineAmount | includes/class-invoice.php:413 | A line's amount plus its own discount is quantity × rate; with no discount the amount is quantity × rate. |
| Tax.LineTax | includes/class-invoice.php:414-415 | A zero-rated line carries no tax. On a non-negative amount at a rate between 0 and 100 percent, the tax is non-negative and at most the amount. |
| Tax.IsInterstate | includes/class-invoice.php:410 | The supply is intrastate exactly when the customer's state is a string equal to the company's state. A NULL state is never equal under `!==`, so it is always interstate. |
| Tax.CalculateTotals | includes/class-invoice.php:390-443 | The loop's totals: subtotal and total tax are the sums over the lines. Intrastate gives IGST 0 and CGST = SGST = half the tax; interstate gives CGST = SGST = 0 and IGST = the tax. CGST + SGST + IGST = total tax, and at most one kind is non-zero. The total is subtotal + tax − header discount. |
| Tax.SubtotalConcat | includes/class-invoice.php:412-422 | Subtotal and total tax of two lists of lines joined together are the sums of their parts. |
| Tax.RemoveLine | includes/class-invoice.php:412-422 | Taking one line out of a list takes its amount out of the subtotal and its tax out of the total tax. |
| Tax.SubtotalPermutation | includes/class-invoice.php:412-422 | Any reordering of the lines (the same lines, as a multiset) gives the same subtotal and the same total tax. |
| Tax.UniformRateTax | includes/class-invoice.php:412-421 | When every line has the same rate, the total tax is the subtotal at that rate. |
| Tax.IntrastateExample | includes/class-invoice.php:390-443 | Two 18% lines (2 × 100 and 1 × 50) in the company's own state give subtotal 250, CGST 22.5, SGST 22.5, IGST 0, tax 45 and total 295. |
| Ledger.Adjust | includes/class-invoice.php:467-477 | A stock update changes at most one product and never adds or drops a product. |
| Ledger.Deduct | includes/class-invoice.php:79-103 | Selling the lines changes no product's presence in the stock table. |
| Ledger.Restock | includes/class-invoice.php:341-345 | Taking lines back changes no product's presence in the stock table. |
| Ledger.DeductEffect | includes/class-invoice.php:99-102 | Selling lowers each product by the total quantity of the lines naming it, with no floor. |
| Ledger.RestockEffect | includes/class-invoice.php:341-345 | Taking lines back raises each product by the total quantity of the lines naming it. |
| Ledger.QuantityOfUnreferenced | includes/class-invoice.php:99-102 | A product that no line names has total quantity 0, so its stock is left alone. |
| Ledger.DeductThenRestock | includes/class-invoice.php:335-345 | Taking back exactly the lines that were sold restores every product's stock. |
| Ledger.UpdateStockEffect | includes/class-invoice.php:170-213 | After an update, each product's stock is its old stock plus the old lines' quantity minus the new lines' quantity. |
| Ledger.Rows | includes/class-invoice.php:79-97 | One item row per submitted line, each owned by the new invoice. |
| Ledger.LinesOf | includes/class-invoice.php:335-338 | Selecting an invoice's items yields at most one line per item row. Which lines, and in what order, is stated by `LinesOfConcat` (the select over joined tables is the join of the selects) together with `LinesOfRows` and `LinesOfAbsent` on the parts, and by `CreatedItemsReadBack`. |
| Ledger.WithoutInvoice | includes/class-invoice.php:347-352 | Deleting an invoice's items never adds rows. Which rows survive is stated by `WithoutInvoiceKeepsOthers`. |
| Ledger.WithoutInvoiceKeepsOthers | includes/class-invoice.php:347-352 | A row survives the delete of an invoice's items exactly when it belongs to another invoice. |
| Ledger.PaymentsWithout | includes/class-invoice.php:354-359 | Deleting an invoice's payments keeps exactly the payments of the other invoices. |
| Ledger.CreatedItemsReadBack | includes/class-invoice.php:335-338 | Selecting the items of a newly created invoice gives back exactly the submitted lines, in order. |
| Ledger.CreateDeleteRoundTrip | includes/class-invoice.php:335-345 | Restocking the items of an invoice created from some lines gives back the stock from before the creation. |
| Ledger.CreatedItemsRemoved | includes/class-invoice.php:347-352 | Deleting the items of a newly created invoice gives back the item rows from before the creation. |
| Ledger.InvoiceStore.CustomerState | includes/class-invoice.php:399-407 | With an empty or unknown customer id the state read is ''. A found customer gives its stored state column, so a NULL state (None) can only come from a found customer whose column is NULL. |
| Ledger.InvoiceStore.MissingCustomerIsBlankState | includes/class-invoice.php:399-410 | With no customer (id empty or not found) the state compares as ''. The supply is then interstate exactly when a company state is configured. |
| Ledger.InvoiceStore.UpdateProductStock | includes/class-invoice.php:467-477 | Adds the change to that product's stock, if the product exists. No other table changes. |
| Ledger.InvoiceStore.RestockLines | includes/class-invoice.php:341-345 | The loop over the item rows leaves the stock the lines taken back, and changes nothing else. |
| Ledger.InvoiceStore.InsertLines | includes/class-invoice.php:79-103 | The loop over the submitted lines appends one item row per line and sells each line. |
| Ledger.InvoiceStore.LastInvoiceSuffix | includes/class-invoice.php:452-456 | The result bounds the suffix of every number that carries the prefix. It is 0 when there is none, or else it comes from some existing invoice. |
| Ledger.InvoiceStore.GenerateNextInvoiceNumber | includes/class-invoice.php:448-462 | The result is the next number over the existing invoice numbers (`IsNextNumber`): the prefix, then max(last + 1, start) zero-padded to at least four digits. It is not an existing invoice number. |
| Ledger.InvoiceStore.CalculateInvoiceTotals | includes/class-invoice.php:390-443 | The totals of the lines, interstate exactly when the customer's stored state (or '') is not the company state. The three tax parts sum to the total tax. |
| Ledger.InvoiceStore.CreateInvoice | includes/class-invoice.php:28-118 | Fails, changing nothing, exactly when the customer is empty, the lines are empty or the store refuses the write. On success it adds one invoice and its items and sells its lines; see the notes below the table. |
| Ledger.InvoiceStore.UpdateInvoice | includes/class-invoice.php:123-229 | Fails, changing nothing, exactly when the invoice does not exist or the store refuses the write. On success it rewrites the header and totals, replaces the items with the new lines, and changes stock by old lines back, new lines out. |
| Ledger.InvoiceStore.RemoveInvoiceRows | includes/class-invoice.php:334-359 | The writes before the invoice row is deleted: the invoice's lines go back into stock, and its items and payments are deleted. Nothing else changes. |
| Ledger.InvoiceStore.DeleteInvoice | includes/class-invoice.php:327-385 | Succeeds exactly when the invoice exists and the store accepts the delete. It then removes the invoice, its items and its payments and takes its lines back into stock. Otherwise the rollback leaves every table as it was. |
| Ledger.CreateThenDelete | includes/class-invoice.php:327-385 | Creating an invoice and deleting it straight away leaves the invoices, the item rows and every product's stock as they were. |
| Coupons.FindActive | includes/class-coupons.php:88-95 | Finds nothing exactly when no active coupon has the code. Otherwise it returns the active coupon stored under that code. |
| Coupons.IsExpired | includes/class-coupons.php:97-100 | A coupon without an end date never expires; an expired one has its end date before now. |
| Coupons.NotYetStarted | includes/class-coupons.php:102-105 | A coupon without a start date is never "not yet active"; one that is has its start date after now. |
| Coupons.LimitReached | includes/class-coupons.php:107-110 | No limit, or a limit of 0 (falsy in PHP), is never reached; a reached limit is at most the use count. |
| Coupons.BelowMinimum | includes/class-coupons.php:112-121 | The minimum check fails exactly when a positive minimum is set and the total is below it; a minimum of 0 or less never fails. |
| Coupons.CustomerExcluded | includes/class-coupons.php:123-129 | No allow-list or no customer means the check is skipped; a customer on the allow-list passes. |
| Coupons.ProductsExcluded | includes/class-coupons.php:131-146 | No allow-list or no products means the check is skipped; an order naming any listed product passes. |
| Coupons.CheckCoupon | includes/class-coupons.php:97-148 | The check chain reports the first of all failing checks, in the order expired, not yet active, limit, minimum, customer, products. It accepts exactly when no check fails. |
| Coupons.NewCoupon | includes/class-coupons.php:46-62 | The inserted row has the upper-cased code and no uses, and it is active. The submitted discount value is kept. The cap and the usage limit are set exactly when they were not empty as submitted, and then hold the submitted number, so a typed "0.00" is stored as 0. |
| Coupons.ValidateCoupon | includes/class-coupons.php:84-149 | "Invalid code" exactly when no active coupon has the upper-cased code. Otherwise the result is that of the check chain on the stored coupon: accepted exactly when it passes every check, and otherwise refused for the first failing check. |
| Coupons.ExhaustedCouponRejected | includes/class-coupons.php:108-110 | A coupon whose set, non-zero limit is used up is refused for the limit once the date checks pass. |
| Coupons.CreatedCouponIsFound | includes/class-coupons.php:88-95 | After creation, validating with the code in any letter case finds the new coupon. |
| Coupons.DeletedCouponNotFound | includes/class-coupons.php:343-353 | After deletion the coupon's code is an invalid code, and the remaining codes stay unique. |
| Coupons.Discount | includes/class-coupons.php:165-188 | A percentage discount is total × value / 100, lowered to the maximum discount when one is set and exceeded. A fixed discount is the value or the total, whichever is smaller. Every other type gives 0. |
| Coupons.DiscountWithinTotal | includes/class-coupons.php:165-188 | On a non-negative total, with a percentage of at most 100, the discount never exceeds the total, so the final amount is not negative. |
| Coupons.ApplyCoupon | includes/class-coupons.php:154-196 | A refused coupon passes the refusal through unchanged. An accepted one yields its discount, and final amount = total − discount. |
| Coupons.Save10Example | includes/class-coupons.php:166-173 | 10% capped at 50 on an order of 1000 gives a discount of 50. |
| Coupons.BulkCouponShape | includes/class-coupons.php:246-256 | A bulk coupon is stored under the upper-cased `prefix-SUFFIX` with usage limit 1 and no uses, ends `expiry_days` after creation, and has no start date, cap or allow-lists. |
| Coupons.UsedBulkCouponRefused | includes/class-coupons.php:246-256 | A bulk coupon used once is refused for its usage limit until its end date, and as expired after that. |
| Coupons.BulkCode | includes/class-coupons.php:247 | The bulk code is the prefix, then "-", then the upper-cased suffix, so its length is their lengths plus one, and it is never empty in PHP's sense. |
| Coupons.BulkData | includes/class-coupons.php:249-256 | A bulk creation submits the `prefix-SUFFIX` code. Its required fields are missing exactly when the discount type is empty or the value is 0, because the code always contains "-". |
| Coupons.SucceededCodes | includes/class-coupons.php:259-262 | No more codes are reported than creations were attempted. |
| Coupons.CreateOutcome | includes/class-coupons.php:31-77 | create_coupon's decision: "missing fields" exactly when a required field is empty; created exactly when nothing is missing, neither the raw nor the upper-cased code is taken and the store accepts, and then under the next id. |
| Coupons.BulkRun | includes/class-coupons.php:246-268 | After k attempts there are k outcomes, each the create_coupon outcome on the table the earlier attempts left. |
| Coupons.BulkRunKeeps | includes/class-coupons.php:246-268 | A bulk run keeps every earlier coupon unchanged and adds only ids below its next id. |
| Coupons.BulkRunReportsNewIds | includes/class-coupons.php:259-262 | Every coupon a bulk run adds has an id that one of its attempts reported as created. |
| Coupons.BulkRunRecorded | includes/class-coupons.php:246-262 | Each successful attempt left the bulk coupon built from its own suffix and number in the table. |
| Coupons.BulkRunCreates | includes/class-coupons.php:246-262 | Suppose a discount type and a non-zero value, the store accepts every insert, and the upper-cased codes are new and distinct. Then every attempt creates its coupon, and the table keeps only upper-case codes that are old ones or the run's own. |
| Coupons.BulkAllCreated | includes/class-coupons.php:246-269 | Under the same conditions, all `count` codes are reported. |
| Coupons.CouponStore.CreateCoupon | includes/class-coupons.php:27-79 | Outcomes in check order: "missing fields" exactly when the code, type or value is empty, including a value of 0; "exists" exactly when the raw code is taken; "insert failed" exactly when the upper-cased code is taken or the store refuses. Otherwise it inserts the upper-cased, unused, active coupon under a fresh id. The outcome is `CreateOutcome` on the old table. Codes stay unique and upper-case. |
| Coupons.CouponStore.UseCoupon | includes/class-coupons.php:201-214 | Adds exactly one to that coupon's use count, without a limit check, and leaves every other coupon alone. It appends exactly one usage record and returns true. |
| Coupons.CouponStore.LogCouponUsage | includes/class-coupons.php:219-232 | Appends exactly one usage record (coupon, invoice, user) and changes nothing else. |
| Coupons.CouponStore.BulkGenerateCoupons | includes/class-coupons.php:237-270 | Exactly `count` attempts, none retried. The table, the next id and the outcomes are those of `BulkRun`: each attempt is create_coupon on the table the earlier ones left. The reported codes are those of the successful attempts, so there are at most `count`, and the table grows by their number. Earlier coupons are untouched, and each new coupon is the bulk coupon built from its own suffix and number. |
| Coupons.CouponStore.AttemptAll | includes/class-coupons.php:246-268 | The loop runs one create_coupon per suffix and leaves the state of `BulkRun` after `count` attempts. |
| Coupons.CouponStore.DeleteCoupon | includes/class-coupons.php:343-353 | Removes only the coupon with that id, even when there is no such coupon, unless the query fails; the usage log is kept. |

CreateInvoice on success:

- the new invoice has a fresh id and a number unused so far: exactly the next number over the numbers before the call (`IsNextNumber`);
- it has the submitted header, status draft, paid amount 0 and the totals of its lines;
- the item rows gain exactly its lines;
- stock loses the lines' quantities.

## Left out

- Collation: codes, invoice numbers and states are compared exactly, as a binary collation would; MySQL's default case-insensitive collation is not modelled.
- `LIKE` wildcards: an invoice prefix containing `%` or `_` is read as a plain prefix.
- PHP floats and `decimal(10,2)` rounding: amounts are exact reals.
- Field defaults (`?? 'Nos'`, `?? 0`, `?? 'BULK'`, `?? 30`) and the text sanitisers are taken as already applied by the caller. Coupon input keeps what matters of the raw values: each of the three numeric fields is `Blank` when `empty()` holds for it, otherwise the number `floatval`/`intval` gives.
- The `varchar(50)` limit on coupon codes and other column widths.
- Dates are whole seconds; `strtotime("+N days")` is `now + N × 86400`, ignoring daylight-saving shifts; created/updated timestamps are not stored.
- `update_status`, `get_invoice`/`get_invoices`, `get_coupon_stats`/`get_coupons`, PDF generation, e-mail, `do_action` hooks, shortcodes and the AJAX handlers. The constructor hooks `generate_invoice_number` (includes/class-invoice.php:22), which the class does not define, so on PHP 8 the `do_action` at includes/class-invoice.php:109 raises an Error after the COMMIT that the `catch (Exception $e)` does not catch, and create_invoice never returns the id; the model returns the id.
- Concurrency: two requests numbering invoices or redeeming a coupon at the same time; the model is sequential.
- Per-row write failures inside a transaction (an item insert, a stock update) that the source does not check; only the checked writes fail, through `storeOk`.
- Numbering.Suffix: the query offsets SUBSTRING, which counts characters, by LENGTH, which counts bytes. `Suffix` reads right after the prefix, which agrees with the query only for an ASCII prefix (`AsciiQuerySuffix`; see Findings).
- Numbering.Suffix: the prefix is spliced into the SQL unescaped, and a prefix containing a quote breaks the query. The model assumes a prefix without quotes.
- Numbering.Suffix: `CAST(... AS UNSIGNED)` also skips leading spaces and reads a sign. The model reads leading digits only, which is all that the numbers the plugin writes contain.
- Coupons.CouponStore.UseCoupon: the usage-record insert and the counter update are taken to succeed; the source ignores their failure and returns true either way.
- Ledger.InvoiceStore.CreateInvoice: the freshness of the new number holds for a prefix of ASCII characters without quotes. For other prefixes the insert can be refused by the unique key (see Findings); the model's `storeOk` covers that refusal.
- Ledger.InvoiceStore.CreateInvoice: the item `amount` and `tax_amount` columns are whatever the caller submitted (the computed values are not written back), so no contract relates stored items to the invoice totals.

## Findings

| source | as written | input that shows it | evidently intended | confidence | as-written member | corrected member |
|---|---|---|---|---|---|---|
| includes/class-invoice.php:454 | The numbering query starts SUBSTRING, which counts characters, at LENGTH(prefix) + 1, and LENGTH counts bytes. | Prefix "№-" (two characters, four bytes), with "№-0099" and "№-0100" stored. The query reads them as 99 and 0, so the next number is "№-0100" again and the unique key refuses it: no further invoice can be created. | Read the digits right after the prefix's characters, as CHAR_LENGTH would. | high; not executed | Numbering.MultibytePrefixRepeatsNumber | Numbering.NextInvoiceNumberIsFresh |
