# GameBook receipt ledger — a Dafny model

GameBook is a bookkeeping application for vendors who run daily game
markets. A vendor keeps a list of customers. For every customer and day the
vendor writes a receipt of game rows: o, jod and ko amounts with a
multiplier, pan, gun and special pairs, and an income. From these rows the
application derives a money cascade: the payment, a 10% deduction, the
amount after the deduction, the remaining balance and total due, the jama
total, the total after chuk and the final total. The server stores the
receipts and customers, and it answers reports. These are weekly, monthly
and yearly summaries, a twelve-month trend, income by game type, payment
statistics and daily totals per company. It also keeps two staging tables:
the per-market details of a customer and the per-day global values. Every
request passes a bearer-token gate and a maintenance switch.

This project models:

- the client's shortcut screen:
  - the totals cascade;
  - the row editors;
  - the payload it saves;
  - the reload of saved receipts;
- the server controllers for receipts, reports, authentication, market
  details, customers, bulk incomes and daily global values;
- the authentication middleware.

Stores are sequences and maps owned by classes whose methods change them in
place. Money is a real number and the 10% rate is exact. Text is
`seq<char>`. JavaScript's `trim`, `parseFloat`, `Number`, `parseInt`,
`split` and the regular expressions the code uses are written out in module
`JsText`.

Modules, one per source file:

| module | models |
|---|---|
| `ShortcutTab` | the client screen |
| `ReceiptExpression`, `ReceiptController` | receiptController.js |
| `ShortcutController` | shortcutController.js |
| `CustomerController` | customerController.js |
| `ReportController` | reportController.js |
| `MarketDetails` | marketDetailsController.js |
| `DailyGlobalValues` | dailyGlobalValuesController.js |
| `AuthController` | authController.js |
| `AuthMiddleware` | authMiddleware.js |

`ReceiptModel`, `Database` and `SysHealth` hold the records of the Mongoose
models. `Common`, `JsText` and `Sorting` hold shared definitions and lemmas.
A sort in a query is modelled by `Sorting.SortBy`, a stable insertion sort
over the query's order. The database does not order documents whose sort keys
tie, so for a database sort this is one of the admissible orders (see
"## Left out"); JavaScript's own sort is stable.

The model follows the code where the code and its documentation differ, and
says where the code is modelled both as written and as intended:

- The daily totals of the code count receipts, not customers (Finding 1):
  `ReceiptController.CustomerCountAsWritten` models that count and
  `ReceiptController.CustomerCountDiscrepancy` exhibits it, while
  `ReceiptController.GroupTotals` models the intended distinct-customer counts.
- The customer listing of the reports reads `advanceAmount` from the
  receipt's own field. The customer controller reads it from `finalTotal`.
  Both are modelled, and `ReportController.BalanceListingsCompared` states
  exactly when they differ.
- The payment statistics subtract the payments and the jama but not the
  10% deductions.
- The shortcut screen reloads an old row without a multiplier through the
  fallback as written (Finding 2): `ShortcutTab.LoadedRow` uses
  `ShortcutTab.FallbackAsWritten`, which gives 8 to both old types, while
  `ShortcutTab.Fallback` is the corrected definition, which gives 'को.' 9.
- A balance update for a customer without receipts fails with 500 in the
  code as written, because the receipt it creates lacks two required fields
  (Finding 3): `CustomerController.NoReceiptAsWrittenFails` models that
  request. `CustomerController.UpdateCustomerBalance` and
  `CustomerController.WriteBalance` model the corrected request, which
  appends `CustomerController.BalanceReceipt` and answers 200.

## Model

| member | source | states |
|---|---|---|
| ShortcutTab.CalculateCustomerTotals | game-book-client/src/components/VendorDashboard/ShortcutTab.jsx:888-978 | the loop over the rows returns exactly the totals of the draft as specified by TotalsOf |
| ShortcutTab.SumCategories | game-book-client/src/components/VendorDashboard/ShortcutTab.jsx:899-926 | the forEach accumulation yields, per category, the sum over all rows of that row's part (o·m, jod·m·10, ko·m with a defined multiplier, raw values without; val1·val2 for the pairs) |
| ShortcutTab.SumIncome | game-book-client/src/components/VendorDashboard/ShortcutTab.jsx:929-932 | the reduce yields the sum of every row's `Number(income) \|\| 0` |
| ShortcutTab.TotalsCascade | game-book-client/src/components/VendorDashboard/ShortcutTab.jsx:935-958 | payment is the sum of the six categories; deduction is 10% of income; remainingBalance = totalDue = afterDeduction − payment; jama, chuk, advance and cutting are each subtracted in turn, a missing one counting 0 |
| ShortcutTab.AdjustmentsSubtract | game-book-client/src/components/VendorDashboard/ShortcutTab.jsx:949-958 | the final total is the unadjusted one minus jama, chuk, advance and cutting; raising jama by d lowers jamaTotal, finalTotalAfterChuk and finalTotal by exactly d (nothing is clamped) |
| ShortcutTab.EditRowOnlyNamedCell | game-book-client/src/components/VendorDashboard/ShortcutTab.jsx:788-818 | an edit sets exactly the named cell (or nested pair side, or the multiplier) and leaves every other cell, the multiplier and the pair tags as they were |
| ShortcutTab.HandleGameRowChange | game-book-client/src/components/VendorDashboard/ShortcutTab.jsx:788-818 | only the row at rowIndex of that customer's draft changes, by that edit; row count, other rows, other draft fields and other customers are unchanged |
| ShortcutTab.AddGameRow | game-book-client/src/components/VendorDashboard/ShortcutTab.jsx:820-846 | exactly one new row is appended after the existing rows; everything else is kept |
| ShortcutTab.NewRowIsEmpty | game-book-client/src/components/VendorDashboard/ShortcutTab.jsx:820-846 | a new row has only its type set; its multiplier is 8 iff the type is 'आ.', 9 iff 'कु.', undefined otherwise |
| ShortcutTab.AddGameRowKeepsTotals | game-book-client/src/components/VendorDashboard/ShortcutTab.jsx:820-846 | appending an empty row changes none of the computed totals |
| ShortcutTab.NewRowPartsZero | game-book-client/src/components/VendorDashboard/ShortcutTab.jsx:820-846 | every category part and the income of a new row are 0 |
| ShortcutTab.Without | game-book-client/src/components/VendorDashboard/ShortcutTab.jsx:980-993 | dropping index k keeps the other elements in order and shortens by one; an index out of range changes nothing |
| ShortcutTab.RemoveGameRow | game-book-client/src/components/VendorDashboard/ShortcutTab.jsx:980-993 | only that customer's row list changes, losing exactly the indexed row |
| ShortcutTab.SumOfWithout | game-book-client/src/components/VendorDashboard/ShortcutTab.jsx:980-993 | a sum over the list without row k is the full sum minus row k's term |
| ShortcutTab.RemoveGameRowTotals | game-book-client/src/components/VendorDashboard/ShortcutTab.jsx:980-993 | removing row k lowers the payment by that row's contribution and the income by its income |
| ShortcutTab.InitializeDefaultRows | game-book-client/src/components/VendorDashboard/ShortcutTab.jsx:848-886 | a draft with rows is left as it is; one without rows gets the default rows and nothing else changes |
| ShortcutTab.InitializeDefaultRowsIdempotent | game-book-client/src/components/VendorDashboard/ShortcutTab.jsx:848-886 | applying it twice equals applying it once, the draft then has rows, and a fresh draft gets exactly 'आ.'(8) then 'कु.'(9) |
| ShortcutTab.FindCustomer | game-book-client/src/components/VendorDashboard/ShortcutTab.jsx:1015-1016 | the customer found has that id; none is found iff no customer has it |
| ShortcutTab.SavedRowsKeepCells | game-book-client/src/components/VendorDashboard/ShortcutTab.jsx:1020-1031 | saved rows correspond one to one with the draft rows, keep every cell and the pairs, get id now+i and drop the multiplier |
| ShortcutTab.PayloadMoney | game-book-client/src/components/VendorDashboard/ShortcutTab.jsx:1036-1070 | the payload stores payment 0 and zero category totals, remainingBalance = totalDue = the after-deduction amount, while jamaTotal still subtracts the computed payment; the adjustments are the parsed inputs |
| ShortcutTab.PayloadCascadeIffNoPayment | game-book-client/src/components/VendorDashboard/ShortcutTab.jsx:1036-1070 | the stored receipt satisfies the receipt cascade iff the computed payment is 0; the final-total step always holds |
| ShortcutTab.SavedRowPaymentIgnoresMultiplier | game-book-client/src/components/VendorDashboard/ShortcutTab.jsx:1020-1031 | because the multiplier is not saved, the server's row payment of a saved row is o+jod+ko plus the pair products, whatever the draft's multiplier |
| ShortcutTab.CreateReceiptsSends | game-book-client/src/components/VendorDashboard/ShortcutTab.jsx:995-1102 | once confirmed, a payload is sent for a customer iff its draft has content and it is in the customer list; the payload carries that customer's company and the saved rows |
| ShortcutTab.LatestIndex | game-book-client/src/components/VendorDashboard/ShortcutTab.jsx:1131-1137 | the chosen receipt has the greatest updatedAt, and it is the first of those tied |
| ShortcutTab.LatestOfFiltered | game-book-client/src/components/VendorDashboard/ShortcutTab.jsx:1122-1137 | the latest of the same-day receipts is one of them and no same-day receipt is more recently updated |
| ShortcutTab.SaveCustomerRequiresContent | game-book-client/src/components/VendorDashboard/ShortcutTab.jsx:1108-1111 | the 'common.required' warning is given iff the draft is missing or has no content |
| ShortcutTab.SaveCustomerPayload | game-book-client/src/components/VendorDashboard/ShortcutTab.jsx:1113-1193 | a request is made only with a company chosen, and its payload carries that company and the saved rows |
| ShortcutTab.SaveCustomerCreatesOnlyWhenNone | game-book-client/src/components/VendorDashboard/ShortcutTab.jsx:1195-1209 | a new receipt is posted only when no receipt of that day, customer and company exists |
| ShortcutTab.SaveCustomerUpdatesLatest | game-book-client/src/components/VendorDashboard/ShortcutTab.jsx:1122-1209 | an update targets a receipt of that day, customer and company that no other such receipt postdates |
| ShortcutTab.FallbackAsWrittenNeverNine | game-book-client/src/components/VendorDashboard/ShortcutTab.jsx:216-223 | the fallback as written never yields 9; an old 'को.' row gets 8 |
| ShortcutTab.FallbackMatchesNewRows | game-book-client/src/components/VendorDashboard/ShortcutTab.jsx:216-223 | the corrected fallback gives 'ओ.' the multiplier of a new 'आ.' row and 'को.' that of a new 'कु.' row, and is defined only for those two types |
| ShortcutTab.SavedRowReloads | game-book-client/src/components/VendorDashboard/ShortcutTab.jsx:214-236 | reloading a saved row gives back the draft row with the multiplier replaced by the fallback as written (8 for both old types), so new 'आ.'/'कु.' rows come back without their 8/9 |
| ShortcutTab.FirstFor | game-book-client/src/components/VendorDashboard/ShortcutTab.jsx:252-262 | the receipt chosen for a customer's defaults is that customer's first receipt in the list sorted newest first, so the newest by date; none iff the customer has none |
| ShortcutTab.DayGroupNonEmpty | game-book-client/src/components/VendorDashboard/ShortcutTab.jsx:195-202 | every customer seen on the day has a non-empty group |
| ShortcutTab.DayGroupEmpty | game-book-client/src/components/VendorDashboard/ShortcutTab.jsx:195-202 | a customer not seen on the day has an empty group |
| ShortcutTab.GroupByDay | game-book-client/src/components/VendorDashboard/ShortcutTab.jsx:182-202 | the map built in place has exactly the day's customers as keys, each mapped to its receipts of that day in order |
| ShortcutTab.LoadGroups | game-book-client/src/components/VendorDashboard/ShortcutTab.jsx:205-249 | each grouped customer gets the draft of its most recently updated receipt, its rows read with the fallback as written |
| ShortcutTab.AddDefaults | game-book-client/src/components/VendorDashboard/ShortcutTab.jsx:265-303 | customers without a draft get the default draft; drafts already loaded are kept |
| ShortcutTab.LoadDrafts | game-book-client/src/components/VendorDashboard/ShortcutTab.jsx:165-311 | the drafts cover the day's customers and the customer list; a day customer gets the latest receipt's draft (rows read with the fallback as written), every other customer the default draft from its newest receipt by date |
| ReceiptExpression.Evaluate | game-book-server/controllers/receiptController.js:103-121 | a missing or blank input, or one that is empty after sanitising and stripping, evaluates to 0; any other input is worth the reference value of its tokens, and 0 when it does not lex |
| ReceiptExpression.TokensValueIsReference | game-book-server/controllers/receiptController.js:116-117 | for every token sequence, the parser rejects it iff the one-pass reference (a sum of terms, each a left fold of * and /) finds it malformed, a zero divisor leaves no finite value in both, and the value is the reference value (0 for every failure) |
| ReceiptExpression.ReferenceIsParsed | game-book-server/controllers/receiptController.js:116-117 | parsing then evaluating a token sequence has the same outcome as the reference pass |
| ReceiptExpression.ReferenceExamples | game-book-server/controllers/receiptController.js:116-117 | on the reference pass a + b * c is a + (b * c), and a / 0 + b has no finite value |
| ReceiptExpression.SanitizeIsFilter | game-book-server/controllers/receiptController.js:109 | the sanitised string holds only 0-9 + - * / . and keeps each of those characters as often as the input does |
| ReceiptExpression.SanitizeIdempotent | game-book-server/controllers/receiptController.js:109 | sanitising twice equals sanitising once |
| ReceiptExpression.StripTrailing | game-book-server/controllers/receiptController.js:111 | the result is a prefix that does not end in + - * / . and what was cut consists only of those characters |
| ReceiptExpression.StripTrailingIdempotent | game-book-server/controllers/receiptController.js:111 | stripping twice equals stripping once |
| ReceiptExpression.SanitizedNotBlank | game-book-server/controllers/receiptController.js:104-109 | an input with something left after sanitising was not blank |
| ReceiptExpression.EvaluateIgnoresForeignCharacters | game-book-server/controllers/receiptController.js:109 | evaluating an input equals evaluating its sanitised form |
| ReceiptExpression.EvaluateDigits | game-book-server/controllers/receiptController.js:103-121 | a numeral evaluates to its decimal value |
| ReceiptExpression.EvaluateBinary | game-book-server/controllers/receiptController.js:116-117 | a op b evaluates to the sum, difference, product or quotient, and to 0 on division by zero |
| ReceiptExpression.EvaluateDropsTrailingOperators | game-book-server/controllers/receiptController.js:111 | a numeral followed by any run of trailing operators evaluates to the numeral |
| ReceiptExpression.ParseProductFirst | game-book-server/controllers/receiptController.js:116 | * binds tighter than + |
| ReceiptExpression.ParseLeftAssociative | game-book-server/controllers/receiptController.js:116 | a − b − c groups as (a − b) − c |
| ReceiptExpression.ParseSignedOperand | game-book-server/controllers/receiptController.js:116 | a unary minus is allowed on an operand |
| ReceiptExpression.DoubledSignIsError | game-book-server/controllers/receiptController.js:116-120 | a doubled sign between numerals (`++`, `--`) is a syntax error and yields 0 |
| ReceiptExpression.LineCommentEndsInput | game-book-server/controllers/receiptController.js:116 | `//` starts a comment, so a//b evaluates to a |
| ReceiptExpression.CommentEnd | game-book-server/controllers/receiptController.js:116 | a block comment found ends with `*/` inside the input |
| ReceiptExpression.ExampleSum | game-book-server/controllers/receiptController.js:103 | "10+20" evaluates to 30 |
| ReceiptExpression.ExampleTrailingOperator | game-book-server/controllers/receiptController.js:111 | "10+" evaluates to 10 |
| ReceiptExpression.ExampleDivisionByZero | game-book-server/controllers/receiptController.js:117 | "10/0" evaluates to 0 |
| ReceiptExpression.ExampleNotAnExpression | game-book-server/controllers/receiptController.js:104-112 | "abc", a blank string and a non-string evaluate to 0 |
| ReceiptController.CeilDiv | game-book-server/controllers/receiptController.js:179 | the page count is the least q with q·limit ≥ total |
| ReceiptController.Paginate | game-book-server/controllers/receiptController.js:158-202 | the query succeeds iff page ≥ 1 and 1 ≤ limit ≤ 100, with the two 400 messages otherwise; skip = (page−1)·limit, totalPages is the ceiling of total/limit, hasNextPage iff page < totalPages, hasPrevPage iff page > 1 |
| ReceiptController.PaginateDefaults | game-book-server/controllers/receiptController.js:161-162 | missing parameters mean page 1 and limit 100, and so do "0" and a non-number |
| ReceiptController.PaginateHexPage | game-book-server/controllers/receiptController.js:161 | parseInt has no radix, so page "0x2" is page 2, and a bare "0x" falls back to page 1 |
| ReceiptController.ZeroMultiplierCountsAsOne | game-book-server/controllers/receiptController.js:331 | a stored multiplier of 0 weighs the row like a multiplier of 1 |
| ReceiptController.MultiplierOneScalesJod | game-book-server/controllers/receiptController.js:337-343 | a defined multiplier of 1 still scales jod by 10, so the row pays 9·jod more than one without a multiplier |
| ReceiptController.AddRows | game-book-server/controllers/receiptController.js:308-360 | after the loop each game type's count, income and payment are the old ones plus the sums over the rows of that type, and a type appears iff it had one or has a row now |
| ReceiptController.GroupByCompany | game-book-server/controllers/receiptController.js:284-365 | the loop leaves every company's accumulator holding the sums, counts, customers and breakdown of exactly that company's receipts, companies listed in first-seen order |
| ReceiptController.ReportBreakdown | game-book-server/controllers/receiptController.js:368-371 | a reported game type breakdown holds exactly the types with rows, each with its totals over the company's receipts |
| ReceiptController.SumCompanies | game-book-server/controllers/receiptController.js:374-384 | summing the per-company totals gives the totals over all receipts |
| ReceiptController.GroupTotals | game-book-server/controllers/receiptController.js:284-384 | companies in first-seen order, a blank company as "No Company"; each company's income, payment, receipt count, distinct-customer count and per-type breakdown are those of its receipts; grand totals are the sums, the receipt count and the distinct customers over all receipts |
| ReceiptController.DailyTotals | game-book-server/controllers/receiptController.js:284-384 | the grouping with the code's own row valuation (each row counts its income, its row payment and once): the company order, per-company sums, counts and per-type breakdown, and the grand totals; the customer counts are the corrected distinct counts of Finding 1, where the code as written counts receipts (`ReceiptController.CustomerCountDiscrepancy`) |
| ReceiptController.AllCustomersAreIds | game-book-server/controllers/receiptController.js:364 | the customer set holds exactly the customer ids of the receipts |
| ReceiptController.CustomerCountDiscrepancy | game-book-server/controllers/receiptController.js:305-371 | for two receipts of one customer the code's count is 2 while the distinct customers number 1 |
| ShortcutController.IncomeRow | game-book-server/controllers/shortcutController.js:25-30 | a new income row has only id, type and income set |
| ShortcutController.IncomeRows | game-book-server/controllers/shortcutController.js:22-30 | at most two rows are built per entry |
| ShortcutController.IncomeRowsShape | game-book-server/controllers/shortcutController.js:25-30 | an 'आ.' row exists iff Number(aamdanIncome) > 0 and comes first with id timestamp; a 'कु.' row exists iff Number(kulanIncome) > 0 and comes last with id timestamp+1 |
| ShortcutController.IncrementOf | game-book-server/controllers/shortcutController.js:34-38 | deduction is 10% of the total and afterDeduction is the total minus it |
| ShortcutController.IncrementCountsSkippedIncome | game-book-server/controllers/shortcutController.js:34 | the total is the income of the built rows plus any income that made no row (zero or negative) |
| ShortcutController.ApplyIncrement | game-book-server/controllers/shortcutController.js:47-55 | the seven named fields rise by the total, the deduction or the after-deduction amount; every other field is kept |
| ShortcutController.IncrementKeepsCascade | game-book-server/controllers/shortcutController.js:47-55 | an increment keeps the receipt cascade of a receipt that satisfied it |
| ShortcutController.IncrementFinalTotal | game-book-server/controllers/shortcutController.js:47-55 | because finalTotal is not incremented, the final-total step stays true iff the after-deduction change is 0 |
| ShortcutController.AddIncome | game-book-server/controllers/shortcutController.js:45-64 | an existing receipt gets the new rows appended, the increment applied and updatedAt set to the time of the update (the schema keeps timestamps); nothing else changes |
| ShortcutController.Upserted | game-book-server/controllers/shortcutController.js:56-64 | an inserted receipt carries the customer, vendor, "Default Business", the trimmed customer name and date, only the new rows and the increment over zero money, and passes the schema when the customer's name is not blank |
| ShortcutController.UpsertedKeepsCascade | game-book-server/controllers/shortcutController.js:56-64 | an inserted receipt satisfies the receipt cascade |
| ShortcutController.DayReceipt | game-book-server/controllers/shortcutController.js:42 | the receipt updated is the first with that customer id and a date in the day, whatever its vendor; none iff no such receipt |
| ShortcutController.ApplyEntry | game-book-server/controllers/shortcutController.js:18-64 | an entry adds at most one receipt; an unknown customer or an entry without rows changes nothing; otherwise the customer's first receipt of the day gets the rows appended, the increment applied and updatedAt set to now, every other receipt unchanged, or, without one, a receipt with the next id, the customer, the rows and updatedAt now is appended |
| ShortcutController.ApplyEntryKeeps | game-book-server/controllers/shortcutController.js:18-64 | an entry keeps the stored receipts valid and keeps the cascade if all receipts had it |
| ShortcutController.ApplyEntriesKeeps | game-book-server/controllers/shortcutController.js:15-66 | the same holds for the whole list of entries |
| ShortcutController.SaveManualIncomes | game-book-server/controllers/shortcutController.js:5-74 | 401 without a vendor, 400 for a missing or empty list, both leaving the store unchanged; otherwise 200 with every entry applied in order (each updated receipt stamped with the time of the update) and the customers unchanged |
| CustomerController.MaxSrNo | game-book-server/controllers/customerController.js:26 | the largest srNo among the vendor's customers, none iff the vendor has no customers |
| CustomerController.NextSrNo | game-book-server/controllers/customerController.js:26-27 | greater than every srNo of the vendor, and 1 for a vendor without customers |
| CustomerController.NextSrNoKeepsUnique | game-book-server/models/Customer.js:30 | adding a customer numbered NextSrNo keeps (vendorId, srNo) unique |
| CustomerController.CreateCustomer | game-book-server/controllers/customerController.js:10-48 | 400 without a name, 400 when the trimmed name is one the vendor already uses (the schema trims the query filter too), 500 for a name that is only whitespace; otherwise 201 and the trimmed customer with the next srNo is appended, its name not taken before; the store stays valid |
| CustomerController.PaddedNameIsTaken | game-book-server/controllers/customerController.js:20 | a name sent as " Bob " is a duplicate of a stored "Bob" |
| CustomerController.LatestReceipt | game-book-server/controllers/customerController.js:170-173 | the customer's receipt latest by date then creation time, first of ties; none iff the customer has none |
| CustomerController.LatestReceiptUnique | game-book-server/controllers/customerController.js:170-173 | any index with the latest-receipt properties is the one chosen |
| CustomerController.BalanceOf | game-book-server/controllers/customerController.js:64-71 | the latest receipt's finalTotalAfterChuk and finalTotal, or (0, 0) without receipts |
| CustomerController.SortedCustomers | game-book-server/controllers/customerController.js:58 | a permutation of the vendor's customers |
| CustomerController.SortedCustomersContents | game-book-server/controllers/customerController.js:58 | exactly the vendor's customers, in ascending srNo |
| CustomerController.ListCustomers | game-book-server/controllers/customerController.js:55-82 | one entry per sorted customer, with latestBalance and advanceAmount the customer's balance |
| CustomerController.Edited | game-book-server/controllers/customerController.js:100-101 | name and address are replaced (trimmed) only when the new value is non-empty; id, vendor and srNo are kept |
| CustomerController.EditedNothingIsIdentity | game-book-server/controllers/customerController.js:100-101 | an edit with nothing given changes nothing |
| CustomerController.UpdateCustomer | game-book-server/controllers/customerController.js:89-110 | 404 for a customer the vendor does not own; 500 for a whitespace-only name; otherwise 200 and only that customer is edited |
| CustomerController.DeleteCustomer | game-book-server/controllers/customerController.js:117-130 | 404 for a customer the vendor does not own; otherwise exactly that customer is removed |
| CustomerController.FinalBalance | game-book-server/controllers/customerController.js:162-167 | positive iff yene > 0, then equal to yene; negative iff yene ≤ 0 and dene > 0, then equal to −dene; otherwise 0 |
| CustomerController.WithBalance | game-book-server/controllers/customerController.js:175-179 | the rewritten receipt has the new balance and advance and is otherwise unchanged |
| CustomerController.BalanceMoney | game-book-server/controllers/customerController.js:182-192 | the money of a created balance receipt holds the balance and the advance |
| CustomerController.BalanceReceiptAsWritten | game-book-server/controllers/customerController.js:182-192 | the receipt the code creates lacks fields the schema requires |
| CustomerController.CreateReply | game-book-server/controllers/customerController.js:180-212 | creating a receipt succeeds iff it passes the schema, otherwise the handler answers 500 |
| CustomerController.NoReceiptAsWrittenFails | game-book-server/controllers/customerController.js:180-193 | for a customer without receipts the request as written ends in 500 |
| CustomerController.BalanceReceipt | game-book-server/controllers/customerController.js:180-193 | the corrected receipt belongs to the customer, holds the balance and the trimmed names, and passes the schema when neither name is blank |
| CustomerController.NoReceiptCorrectedSucceeds | game-book-server/controllers/customerController.js:180-193 | with the corrected receipt the request succeeds whenever the customer's name and the business name are not blank |
| CustomerController.BalanceAfterRewrite | game-book-server/controllers/customerController.js:175-179 | after rewriting the latest receipt the customer's balance is the new one |
| CustomerController.BalanceAfterCreate | game-book-server/controllers/customerController.js:180-193 | after adding a receipt to a customer without one the balance is that receipt's |
| CustomerController.WriteBalance | game-book-server/controllers/customerController.js:170-193 | rewrites the latest receipt or appends the corrected one, after which the customer's balance is (balance, advance) |
| CustomerController.UpdateCustomerBalance | game-book-server/controllers/customerController.js:137-213 | 404 for an unknown customer, 400 when both yene and dene are positive (store unchanged); otherwise 200, the customer's balance becomes (FinalBalance, advance), and the receipts are exactly the old ones with the latest receipt rewritten, or with one balance receipt appended when there was none (the code as written answers 500 here, Finding 3) |
| ReportController.CalculateSummary | game-book-server/controllers/reportController.js:15-47 | income is the sum over the vendor's receipts in the period, profit is income minus payments; {0, 0} when there are none |
| ReportController.SummaryProfitIsSumOfProfits | game-book-server/controllers/reportController.js:42-46 | the profit equals the sum of each receipt's income minus payment |
| ReportController.GetSummary | game-book-server/controllers/reportController.js:55-103 | 401 iff there is no vendor id, otherwise the summary of the period |
| ReportController.TrendOf | game-book-server/controllers/reportController.js:156-164 | a month's entry carries its label and that month's income and profit |
| ReportController.GetMonthlyTrends | game-book-server/controllers/reportController.js:150-170 | 401 iff there is no vendor; otherwise exactly 12 entries, entry j for the month 11−j months back |
| ReportController.TrendsOldestFirst | game-book-server/controllers/reportController.js:155-165 | when each month ends before the next begins, entry j's month ends before entry k's starts for j < k, and every receipt counted in entry j is dated before every receipt counted in entry k |
| ReportController.TypeTotals | game-book-server/controllers/reportController.js:238-248 | one entry per game type in first-seen order, with the summed row income of that type |
| ReportController.IncomeByType | game-book-server/controllers/reportController.js:238-252 | a permutation of the per-type totals |
| ReportController.IncomeByTypeSorted | game-book-server/controllers/reportController.js:250-252 | incomes are in non-increasing order |
| ReportController.IncomeByTypeDistinct | game-book-server/controllers/reportController.js:238-248 | each game type appears once |
| ReportController.IncomeByTypeEntries | game-book-server/controllers/reportController.js:238-248 | each entry names a type of some row and holds the summed income of that type |
| ReportController.IncomeByTypeCovers | game-book-server/controllers/reportController.js:238-248 | every row's type has an entry (missing types as 'Unknown'); types naming `Object.prototype` members are outside the model (see Left out) |
| ReportController.IncomeByTypeTotal | game-book-server/controllers/reportController.js:238-252 | the entries' incomes add up to the total row income; types naming `Object.prototype` members are outside the model (see Left out) |
| ReportController.IncomeByTypeFromTotals | game-book-server/controllers/reportController.js:250-252 | every sorted entry is one of the per-type totals |
| ReportController.AddIncome | game-book-server/controllers/reportController.js:242-246 | adding one row keeps the accumulator equal to the grouped sums and first-seen keys of the rows seen |
| ReportController.AccumulateRows | game-book-server/controllers/reportController.js:240-248 | the inner loop keeps the accumulator equal to the grouped sums of all rows seen |
| ReportController.AccumulatedTotals | game-book-server/controllers/reportController.js:249-251 | the accumulator read in key order is exactly the per-type totals |
| ReportController.GetIncomeByGameType | game-book-server/controllers/reportController.js:229-258 | 401 iff there is no vendor; otherwise the sorted per-type incomes over all rows of the vendor's receipts |
| ReportController.CalculatePaymentStats | game-book-server/controllers/reportController.js:264-313 | sums of income, payment (as deductions) and jama (as received); net balance = totalPending = income − deductions − received; zeros and no chuk total without receipts |
| ReportController.NetBalanceIsSumOfNets | game-book-server/controllers/reportController.js:298 | the net balance is the sum of each receipt's income − payment − jama |
| ReportController.NetBalanceExceedsJamaTotals | game-book-server/controllers/reportController.js:298 | on receipts that keep the cascade, the net balance is their jama totals plus their 10% deductions |
| ReportController.GetPaymentStats | game-book-server/controllers/reportController.js:264-313 | 401 iff there is no vendor, otherwise the statistics |
| ReportController.AllCustomerBalances | game-book-server/controllers/reportController.js:110-144 | customers by srNo, each with the latest receipt's finalTotalAfterChuk and its advanceAmount field, 0 without receipts |
| ReportController.BalanceListingsCompared | game-book-server/controllers/reportController.js:129-132 | it agrees with the customer listing except that advanceAmount differs iff the latest receipt's advanceAmount differs from its finalTotal |
| ReportController.StatusCode | game-book-server/controllers/reportController.js:340 | 1 iff enabled, 0 iff disabled |
| ReportController.GetHealthStatus | game-book-server/controllers/reportController.js:330-350 | a missing record is created enabled; the reply is the record's status code, reason and time |
| ReportController.UpdateHealthStatus | game-book-server/controllers/reportController.js:352-380 | enabled iff the status is the number 1; a given reason replaces the old one; without one an existing reason stays and a new record gets the maintenance message |
| MarketDetails.KeyOf | game-book-server/models/MarketDetails.js:29-81 | the key is (vendor, customer, trimmed company name, date) |
| MarketDetails.KeyIndex | game-book-server/controllers/marketDetailsController.js:73-85 | the position of the record with that key, none iff no record has it |
| MarketDetails.OwnedIndex | game-book-server/controllers/marketDetailsController.js:172-183 | the position of the record with that id and vendor, none iff there is none |
| MarketDetails.Provided | game-book-server/controllers/marketDetailsController.js:28-32 | a given value is stored trimmed, a missing one keeps the stored value |
| MarketDetails.Merged | game-book-server/controllers/marketDetailsController.js:20-48 | only the given fields change; id, key and creation time are kept |
| MarketDetails.Inserted | game-book-server/controllers/marketDetailsController.js:35-48 | a new record has the given fields and "" for missing texts |
| MarketDetails.MergedNothing | game-book-server/controllers/marketDetailsController.js:28-32 | an update with no fields only touches updatedAt |
| MarketDetails.MergedIdempotent | game-book-server/controllers/marketDetailsController.js:28-48 | repeating an update is the same as doing it once |
| MarketDetails.InsertedIsMergedIntoEmpty | game-book-server/controllers/marketDetailsController.js:35-48 | an insert equals an update of an empty record |
| MarketDetails.GetMarketDetails | game-book-server/controllers/marketDetailsController.js:68-99 | 200 with the record iff a record with the key exists, otherwise 404 |
| MarketDetails.GetMarketDetailsByDate | game-book-server/controllers/marketDetailsController.js:139-162 | a permutation of the vendor's records on that date |
| MarketDetails.GetMarketDetailsByDateContents | game-book-server/controllers/marketDetailsController.js:144-147 | exactly those records, each once, sorted by company name then customer |
| MarketDetails.CompanyThenCustomerPreorder | game-book-server/controllers/marketDetailsController.js:147 | the company-then-customer order is a total preorder |
| MarketDetails.GetCustomerMarketDetails | game-book-server/controllers/marketDetailsController.js:104-134 | a permutation of the customer's records for the vendor on that date |
| MarketDetails.GetCustomerMarketDetailsContents | game-book-server/controllers/marketDetailsController.js:104-134 | exactly those records, newest first |
| MarketDetails.NewerFirstPreorder | game-book-server/controllers/marketDetailsController.js:104-134 | the newest-first order is a total preorder |
| MarketDetails.IndexedDistinct | game-book-server/models/MarketDetails.js:81 | a table with unique keys and ids holds no record twice |
| MarketDetails.MarketTable.Upsert | game-book-server/controllers/marketDetailsController.js:6-63 | 400 when customer, company or date is missing, 500 when the company name trims to empty, otherwise the keyed record is merged or inserted and returned |
| MarketDetails.UpsertedIndexed | game-book-server/models/MarketDetails.js:81 | an upsert keeps the keys unique |
| MarketDetails.UpsertedFinds | game-book-server/controllers/marketDetailsController.js:35-48 | after an upsert the key is found; holding the merged record if it existed, otherwise a new one with the next id |
| MarketDetails.UpsertedKeepsOthers | game-book-server/controllers/marketDetailsController.js:35-48 | records with other keys are unchanged |
| MarketDetails.MarketTable.DeleteById | game-book-server/controllers/marketDetailsController.js:167-197 | 404 iff the vendor owns no record with that id; otherwise exactly that record is removed |
| MarketDetails.MarketTable.DeleteByKey | game-book-server/controllers/marketDetailsController.js:202-241 | 400 for a missing key part, 404 iff the key is absent; otherwise exactly that record is removed and the key is gone |
| MarketDetails.RemovePreservesIndexed | game-book-server/controllers/marketDetailsController.js:172-226 | removing a record keeps the keys unique |
| MarketDetails.RemoveKeyGone | game-book-server/controllers/marketDetailsController.js:214-226 | after removal the key is no longer found |
| MarketDetails.MarketTable.ClearByDate | game-book-server/controllers/marketDetailsController.js:246-269 | removes exactly the vendor's records on that date, keeping the rest in order, and reports how many were removed |
| MarketDetails.ClearByDateEffect | game-book-server/controllers/marketDetailsController.js:251-259 | a record survives iff it is not the vendor's on that date |
| MarketDetails.ClearCount | game-book-server/controllers/marketDetailsController.js:251-259 | the records dropped are counted exactly |
| MarketDetails.FilterPreservesIndexed | game-book-server/controllers/marketDetailsController.js:251 | a clear keeps the keys unique |
| MarketDetails.MarketTable.constructor | game-book-server/models/MarketDetails.js:29-81 | the table starts empty and valid |
| DailyGlobalValues.KeyOf | game-book-server/models/DailyGlobalValues.js:4-39 | the key is (vendor, trimmed date) |
| DailyGlobalValues.Saved | game-book-server/controllers/dailyGlobalValuesController.js:16-26 | the stored values are the given ones trimmed, "" when missing; only the creation time of a previous record survives |
| DailyGlobalValues.SavedIgnoresPrevious | game-book-server/controllers/dailyGlobalValuesController.js:16-26 | a save is a full overwrite: the previous record shows through only in its creation time |
| DailyGlobalValues.MissingValueClears | game-book-server/controllers/dailyGlobalValuesController.js:21-23 | a value left out clears the stored one |
| DailyGlobalValues.GetDailyGlobalValues | game-book-server/controllers/dailyGlobalValuesController.js:42-68 | always 200; values present iff the key is stored, then those values, otherwise null with the message |
| DailyGlobalValues.DailyTable.Upsert | game-book-server/controllers/dailyGlobalValuesController.js:6-37 | 400 without a date and nothing changes; otherwise only the key's entry is set to the saved values |
| DailyGlobalValues.DailyTable.Delete | game-book-server/controllers/dailyGlobalValuesController.js:73-96 | 404 iff the key is absent; otherwise exactly that entry is removed |
| DailyGlobalValues.ReadAfterSave | game-book-server/controllers/dailyGlobalValuesController.js:42-68 | a read after a save returns what was saved |
| DailyGlobalValues.ReadAfterDelete | game-book-server/controllers/dailyGlobalValuesController.js:73-96 | a read after a delete finds nothing and other keys are untouched |
| DailyGlobalValues.StoreTrimmed | game-book-server/models/DailyGlobalValues.js:15-32 | storing trimmed values keeps every stored value trimmed |
| DailyGlobalValues.DailyTable.constructor | game-book-server/models/DailyGlobalValues.js:4-39 | the table starts empty |
| AuthController.Identifier | game-book-server/controllers/authController.js:31 | the first truthy of identifier, email, mobile and username; truthy iff one of them is |
| AuthController.CleanCredentials | game-book-server/controllers/authController.js:19-62 | 400 for an empty body, for a missing identifier or password, and for one empty after trimming; otherwise the trimmed non-empty pair |
| AuthController.BlankCredentialsRejected | game-book-server/controllers/authController.js:53-62 | a whitespace-only identifier is rejected as empty |
| AuthController.NormalizeMobileFilters | game-book-server/controllers/authController.js:82 | no whitespace, '-', '(' or ')' remains and every other character is kept as often as before |
| AuthController.NormalizeMobileIdempotent | game-book-server/controllers/authController.js:82 | normalising twice equals normalising once |
| AuthController.DigitsKept | game-book-server/controllers/authController.js:82 | a string of digits is unchanged |
| AuthController.SeparatorDropped | game-book-server/controllers/authController.js:82 | a separator is simply removed between the two sides |
| AuthController.FormattedMobileLooksLikeMobile | game-book-server/controllers/authController.js:82-110 | digits split by a separator, ten or more in all, normalise to the digits and count as a mobile number |
| AuthController.AdminIndex | game-book-server/controllers/authController.js:70 | the first admin with that username, none iff there is none |
| AuthController.VendorIndex | game-book-server/controllers/authController.js:78-88 | the first vendor whose mobile is one of the two candidates, none iff there is none |
| AuthController.AccountFor | game-book-server/controllers/authController.js:64-95 | an admin by username first, then a vendor by exact mobile, then by normalised mobile; none iff none of the three matches |
| AuthController.AdminComesFirst | game-book-server/controllers/authController.js:64-75 | when an admin matches, the vendors do not matter |
| AuthController.FindAccount | game-book-server/controllers/authController.js:64-95 | the step-by-step lookup finds exactly AccountFor's account |
| AuthController.StatusMessage | game-book-server/controllers/authController.js:125-138 | the 403 message for a pending vendor, and the generic one for an unknown status |
| AuthController.PayloadOf | game-book-server/controllers/authController.js:177-179 | {id} for a vendor, {user: {id, role: "admin"}} for an admin |
| AuthController.Decide | game-book-server/controllers/authController.js:107-201 | 401 for an unknown user (message by the mobile classifier), 403 for a vendor not approved, 200 with the payload iff the user may log in, has a hash and the password matches, 401 otherwise |
| AuthController.Login | game-book-server/controllers/authController.js:8-209 | 400 for bad credentials, 503 when the lookup fails, otherwise the decision for the account found |
| AuthController.UnapprovedVendorRefused | game-book-server/controllers/authController.js:125-138 | a vendor not approved gets 403 whatever the password |
| AuthController.PayloadMatchesAccount | game-book-server/controllers/authController.js:177-179 | a vendor payload is issued only to that approved vendor, an admin payload only to an admin |
| AuthMiddleware.TokenOf | game-book-server/middleware/authMiddleware.js:13 | the second space-separated field, present iff there are two or more, and free of spaces |
| AuthMiddleware.BearerToken | game-book-server/middleware/authMiddleware.js:8-13 | the token of "Bearer t" is t |
| AuthMiddleware.VendorById | game-book-server/middleware/authMiddleware.js:17 | the vendor with that id, none iff there is none |
| AuthMiddleware.Protect | game-book-server/middleware/authMiddleware.js:5-31 | the request passes iff the header starts with "Bearer", has a non-empty token, the token verifies to a vendor payload and that vendor exists; it then carries that vendor without password; otherwise 401 with one of the three messages |
| AuthMiddleware.EmptyTokenFails | game-book-server/middleware/authMiddleware.js:13-15 | "Bearer " with an empty token answers 401 "token failed" whatever the key, as jsonwebtoken refuses an empty token |
| AuthMiddleware.AdminTokenRejected | game-book-server/middleware/authMiddleware.js:15-21 | a token signed for an admin never passes |
| AuthMiddleware.VendorTokenAccepted | game-book-server/middleware/authMiddleware.js:15-23 | a token signed for an existing vendor passes with that vendor |
| AuthMiddleware.GluedBearerFails | game-book-server/middleware/authMiddleware.js:8-13 | "Bearerabc" passes the prefix test but fails for want of a token |
| AuthMiddleware.BlockMessage | game-book-server/middleware/authMiddleware.js:49-54 | the stored reason, or the default message when it is empty |
| AuthMiddleware.ValidateSystemHealth | game-book-server/middleware/authMiddleware.js:33-67 | bypassed paths and database failures pass with the record unchanged; otherwise a missing record is created enabled and the request is stopped with 503 iff the record is disabled, the message being its stored reason |
| AuthMiddleware.LoginAlwaysPasses | game-book-server/middleware/authMiddleware.js:36-39 | any path containing '/login' is bypassed |
| SysHealth.HealthStore.Create | game-book-server/models/Counter.js:9-27 | a created record has the given flag, the given reason or "..", and the current time |
| SysHealth.HealthStore.Save | game-book-server/models/Counter.js:24-27 | saving stamps the current time |
| ReceiptModel.NewReceipt | game-book-server/models/Receipt.js:43-94 | a new receipt has the schema defaults and its two names trimmed; it passes validation iff both references are non-empty and neither name is blank (empty after trimming); with zero money it satisfies the cascade |
| Database.CustomerIndex | game-book-server/controllers/shortcutController.js:18-20 | the first customer with that id, none iff there is none |
| Database.OwnedCustomerIndex | game-book-server/controllers/customerController.js:92 | the customer with that id and vendor, none iff there is none |
| JsText.TrimEmptyIffBlank | game-book-server/controllers/authController.js:53-62 | a string trims to empty iff it is all whitespace |
| JsText.TrimIdempotent | game-book-server/models/DailyGlobalValues.js:15-32 | trimming twice equals trimming once |
| JsText.ParseIntOr | game-book-server/controllers/receiptController.js:161-162 | the integer parseInt reads without a radix (decimal, or hexadecimal after 0x), or the default when missing, unparsable or 0 |
| JsText.ParseIntHex | game-book-server/controllers/receiptController.js:161-162 | "0x" followed by hexadecimal digits reads as their base-16 value |
| JsText.ParseIntBareHexPrefix | game-book-server/controllers/receiptController.js:161-162 | "0x" without digits is NaN |
| JsText.TrailingGarbage | game-book-client/src/components/VendorDashboard/ShortcutTab.jsx:900-916 | parseFloat reads "12a" as 12 and Number reads it as 0 |
| JsText.NumberAgreesWithParseFloat | game-book-client/src/components/VendorDashboard/ShortcutTab.jsx:900-916 | on a whole numeral the two parsers agree |
| Sorting.SortBySorted | game-book-server/controllers/reportController.js:250-252 | the stable sort of a sequence under a total preorder is sorted |

## Left out

- Express, HTTP and Mongoose: a handler is a function or method returning a status and message; the extra reply fields (`success`, `hint`, the user summary, counts echoed back) are not modelled.
- The 500 answers of the `catch` blocks for database failures, and ObjectId cast errors, are left out, except where a failure is a parameter (login's 503, the middleware's fail-open path).
- bcrypt and jsonwebtoken are oracle parameters: a password matcher and a token verifier. Signing and expiry are not modelled.
- Clock readings, `moment` and `Date` day and month ranges are parameters (`now`, `dayStart`/`dayEnd`, `monthStart`/`monthEnd`, `dayOf`); time zones are not modelled.
- Concurrency: `Promise.all` fan-out, the srNo max+1 race, upsert atomicity and partial failure of bulk saves.
- IEEE-754 arithmetic, NaN and Infinity, `toFixed` and `Math.abs` display: money is exact reals, and `|| 0` is modelled by the parse yielding 0.
- ReceiptExpression.Evaluate: the exponentiation operator `**` is read as two `*` tokens, so an input such as "2**3" evaluates to 0 where JavaScript computes the power; powers need not be rational (2 ** 0.5) and exact reals cannot hold them.
- Numerals: exponent, hexadecimal and `Infinity` forms are not recognised by the modelled `Number`/`parseFloat`; the evaluator reads legacy octal such as `010` as decimal. The modelled `parseInt` does read the `0x` form.
- Ties in database sorts: MongoDB leaves the order of documents with equal sort keys unspecified. `Sorting.SortBy`, `CustomerController.LatestReceipt` and `ShortcutTab.LatestIndex` fix the stable choice (insertion order among ties), so what they state about which tied document comes first holds for that one admissible order only. This concerns the market-details listings, the customer and report listings and the latest-receipt lookups.
- JavaScript object key order: `Object.entries` lists integer-like keys first; the model keeps first-seen order for every key.
- ReceiptController.GroupTotals: company names and game types are keys of plain objects, and a key naming an `Object.prototype` member (`constructor`, `toString`, `__proto__` and the like) reads the inherited value. A receipt of company "constructor" finds `Object`, gets no entry, and the `.customers.add` call throws, so `getDailyTotals` answers 500; a row of such a type likewise breaks or skips the breakdown. The model treats these as ordinary keys and reports ordinary totals.
- ReceiptController.DailyTotals: the same prototype-key collisions as `ReceiptController.GroupTotals` are not modelled.
- ReportController.TypeTotals: a row whose type names an `Object.prototype` member is not modelled as the code runs it: for "__proto__" the assignment is a no-op and the type is missing from the result; for "constructor" and the like the inherited value is concatenated into a string. The model sums such a type like any other.
- ReportController.IncomeByType: inherits the gap of `ReportController.TypeTotals`; so `ReportController.IncomeByTypeCovers` and `ReportController.IncomeByTypeTotal` hold only when no row's type names an `Object.prototype` member.
- ReportController.IncomeByTypeCovers: does not hold in the code for a row of type "__proto__", which gets no entry.
- ReportController.IncomeByTypeTotal: does not hold in the code for a row of type "__proto__", whose income is dropped from the result.
- `getShortcuts` and `saveShortcutsBulk` (game-book-server/controllers/shortcutController.js:77-123) use a model the repository never defines.
- `createReceipt`, `updateReceipt` and `deleteReceipt` (game-book-server/controllers/receiptController.js:126-257) store the request body as given; only their schema validation (`ReceiptModel`) is modelled.
- `getDailyTotals`: the 400 for a missing date and the day range are not modelled; the receipts of the day are the input to `ReceiptController.GroupTotals`.
- `getTopCustomers` (game-book-server/controllers/reportController.js:176-222) is not modelled.
- Activity logging, vendor and activity controllers, routes, server wiring, `createAdmin.js` and `utils/` are not part of this model. The market-details and daily-values routes are never mounted by the server, and that is not modelled either.
- The React screen's rendering, toasts, focus handling, WhatsApp link, timers and its market-details helpers are not part of this model.
- Row edits are typed values naming a cell, not field-name strings, because the screen only passes literal names.
- A draft's missing field is modelled as "" (both are falsy and read as 0).
- `updatedAt || createdAt` is modelled as `updatedAt`, which the schema's timestamps always set.
- Each `StoredRow` multiplier on the server is a number or absent; a stored string multiplier is not modelled.
- SysHealth.HealthStore.Create: requires a non-empty reason when one is given, since every caller passes either nothing or a truthy reason.
- ShortcutTab.HandleGameRowChange: requires the row index to be in range, since the screen only passes indices of rendered rows.
- CustomerController.UpdateCustomerBalance: requires the vendor's business name not to be blank, since the corrected receipt needs it and the receipt schema trims it before its required test; the vendor schema does not trim, so a vendor with a blank-only business name is outside this model. The code as written does not use the name (Finding 3).
- CustomerController.CreateCustomer: requires a non-empty id, standing for the id Mongo assigns; that the id is unused is not required.

## Findings

| source | as written | input that shows it | evidently intended | confidence | as-written member | corrected member |
|---|---|---|---|---|---|---|
| game-book-server/controllers/receiptController.js:305-371 | each company's customer set and the overall set receive `receipt.customerId`, an ObjectId object, and a JavaScript Set compares objects by identity, so every receipt adds a new member | two receipts of the same customer and company on the day | customerCount and totalCustomers count distinct customers | not executed | ReceiptController.CustomerCountDiscrepancy | ReceiptController.GroupTotals |
| game-book-client/src/components/VendorDashboard/ShortcutTab.jsx:216-223 | both branches of the multiplier fallback test for 'ओ.' or 'को.', so the second branch (9) is unreachable | an old row of type 'को.' with no multiplier reloads with 8 | 'ओ.' gets 8 like a new 'आ.' row and 'को.' gets 9 like a new 'कु.' row | not executed | ShortcutTab.FallbackAsWrittenNeverNine | ShortcutTab.FallbackMatchesNewRows |
| game-book-server/controllers/customerController.js:182-192 | a customer without receipts gets a receipt created without `businessName` and `customerName`, which the schema requires (game-book-server/models/Receipt.js:52-53), so validation fails and the request answers 500 | a balance update for a newly created customer | the receipt is created with the vendor's business name and the customer's name, and the request succeeds | not executed | CustomerController.NoReceiptAsWrittenFails | CustomerController.NoReceiptCorrectedSucceeds |
