# Bank account kata: money, ledger service and statement table

This project models in Dafny the core of a small bank-account ledger written
in Java, and proves properties of the model. The core has three parts.

- **`Amount`** (`amount.dfy`, module `Amounts`). This is the money value.
  - Java keeps a `BigDecimal` at scale 2, rounded half to even. The model keeps a natural number of cents, so the type itself rules out negative money.
  - Inputs are BigDecimal-like pairs `Decimal(unscaled, scale)`.
  - The validating factory `amountOf` checks the sign first and rounds second.
  - `plus` is exact.
  - `minus` refuses a negative difference.
  - `equals` and `compareTo` follow the numeric order.
  - `amountValueToString` prints `<digits>.<two digits>`.
- **`TransactionService`** (`transaction_service.dfy`, module `Ledger`). The service works against an abstract
  `TransactionsDAO` (`transactions_dao.dfy`, module `Persistence`).
  - The DAO is a class holding one history per account. It also keeps a ghost log of the calls made to it, so the call order the tests check can be stated.
  - `getCurrentBalance` reads the balance left by the last entry, or 0.00 when there is none.
  - `deposit` builds the DEPOSIT entry and saves it.
  - `withdrawal` follows the service's tests.
  - A ledger invariant, `LedgerValid`, says that every entry's balance follows from the entry before it. Both operations preserve it.
  - The `Transaction` record and `TypeTransaction` are in `transaction.dfy`. The two exceptions become the error datatype `LedgerError` in `exceptions.dfy`.
- **`TableTransactionFormatter`** (`table_transaction_formatter.dfy`, module `Formatting`). This renders a statement.
  - The header has two hyphen-framed banners, an empty line, and the column titles.
  - Each transaction gets one row, padded to fixed column widths, with a "-" in front of a withdrawal's amount. An empty list gets one "No data found" row.
  - The row-filling loop is a method. It is proved equal to the function `BodyLines`.

## Model

| member | source | states |
|---|---|---|
| Amounts.SetScaleHalfEven | src/main/java/amount/Amount.java:13-15 | For a non-negative decimal, gives the whole number of cents that `IsHalfEvenRounding` describes: exact at scale ≤ 2; otherwise within half a cent, and even on a tie |
| Amounts.FromDecimal | src/main/java/amount/Amount.java:13-15 | The private constructor's Amount is the half-even rounding of its input |
| Amounts.HalfEvenRoundingIsUnique | src/main/java/amount/Amount.java:14 | The reference predicate holds for exactly one cent count, the one `SetScaleHalfEven` computes (both directions) |
| Amounts.RoundHalfEvenIsNearest | src/main/java/amount/Amount.java:14 | Integer half-even division is within half a unit of the quotient and even on a tie |
| Amounts.HalfEvenExamples | src/main/java/amount/Amount.java:14 | 0.005 → 0.00, 0.015 → 0.02, 0.025 → 0.02, 0.026 → 0.03 |
| Amounts.AmountOf | src/main/java/amount/Amount.java:17-20 | Fails exactly when the input is below zero, and then with NegativeAmount; otherwise the half-even rounding of the input |
| Amounts.IsNegative | src/main/java/amount/Amount.java:18 | `compareTo(BigDecimal.ZERO) < 0`, decided by the sign of the unscaled value. It has no contract of its own: `AmountOf` and `Minus` state the refusals it decides |
| Amounts.AmountOfChecksSignBeforeRounding | src/test/java/amount/AmountTest.java:30-47 | −0.001 and −10.00 are refused even though −0.001 would round to zero; 0.001 gives 0.00 |
| Amounts.AmountOfKeepsTwoDecimals | src/main/java/amount/Amount.java:13-20 | An input with at most two fractional digits is kept exactly |
| Amounts.AmountOfIsIdempotent | src/test/java/amount/AmountTest.java:21-28 | Reading an Amount's own value back through the factory gives the same Amount |
| Amounts.Plus | src/main/java/amount/Amount.java:40-42 | The exact sum in cents, never below either operand |
| Amounts.Add | src/main/java/amount/Amount.java:41 | `BigDecimal.add`, aligned on the larger scale. Its contract states the equal-scale case, the only one `Plus` uses: the unscaled values add |
| Amounts.Subtract | src/main/java/amount/Amount.java:45-46 | `BigDecimal.subtract`, aligned on the larger scale. Its contract states the equal-scale case, the only one `Minus` uses: the unscaled values subtract |
| Amounts.Minus | src/main/java/amount/Amount.java:44-47 | Succeeds exactly when the subtrahend is at most the minuend, and then with the exact difference; otherwise NegativeAmount |
| Amounts.MinusUndoesPlus | src/main/java/amount/Amount.java:40-47 | `a.plus(b).minus(b)` succeeds and gives `a` |
| Amounts.PlusUndoesMinus | src/main/java/amount/Amount.java:40-47 | Adding `b` back to a successful `a.minus(b)` gives `a` |
| Amounts.ArithmeticExamples | src/test/java/amount/AmountTest.java:49-85 | 20.00 + 45.00 = 65.00, 100.00 − 45.00 = 55.00, 30.00 − 45.00 fails with NegativeAmount, and "50" (the input at src/test/java/transaction/TransactionServiceTest.java:131) is read as 50.00 |
| Amounts.CompareTo | src/main/java/amount/Amount.java:49-52 | Returns −1, 0 or 1: negative, zero, positive exactly when the first amount is less than, equal to or greater than the second (both directions) |
| Amounts.DecimalCompare | src/main/java/amount/Amount.java:51 | `BigDecimal.compareTo` as the sign of the aligned difference. It has no contract of its own: `CompareTo` states the order it gives on Amounts |
| Amounts.Equals | src/main/java/amount/Amount.java:22-28 | True exactly when the Amounts are equal, and exactly when `compareTo` gives 0 |
| Amounts.CompareToIsTotalOrder | src/main/java/amount/Amount.java:49-52 | `compareTo` is antisymmetric and transitive, and agrees with `equals` |
| Amounts.NatToString | src/main/java/amount/Amount.java:36-38 | The integer part of the text is one or more decimal digits |
| Amounts.NatToStringDenotes | src/main/java/amount/Amount.java:36-38 | Those digits read back as the number, with no leading zero |
| Amounts.AmountValueToString | src/main/java/amount/Amount.java:36-38 | Digits, a point, and exactly two digits |
| Amounts.AmountValueToStringDenotes | src/main/java/amount/Amount.java:36-38 | The text reads back as the Amount's cents; it starts with "0" only when it is "0.xx" |
| Amounts.AmountValueToStringIsInjective | src/main/java/amount/Amount.java:36-38 | Two Amounts with the same text are equal |
| Amounts.AmountValueToStringExamples | src/test/java/utils/TableTransactionFormatterTest.java:30-31 | 10.00, 0.05 and 465.00 print as "10.00", "0.05" and "465.00" |
| Amounts.AmountValueToStringMoreExamples | src/test/java/utils/TableTransactionFormatterTest.java:31 | 0.00, 30.00 and 455.00 print as "0.00", "30.00" and "455.00" |
| Exceptions.Message | src/main/java/exceptions/NegativeAmountException.java:4-8 | The message each exception carries. It has no contract of its own: `MessagesDistinguishErrors` states that the two messages tell the errors apart |
| Exceptions.MessagesDistinguishErrors | src/main/java/exceptions/NotEnoughMoneyException.java:5-9 | The two exception messages differ, so a message identifies its error |
| Transactions.TypeName | src/main/java/utils/TableTransactionFormatter.java:55 | An entry type's name is at most 10 characters, so it fits the 20-character type column |
| Persistence.TransactionsDao.constructor | src/main/java/transaction/TransactionsDAO.java:7-10 | A new store holds no history and has logged no call |
| Persistence.TransactionsDao.Save | src/main/java/transaction/TransactionsDAO.java:8 | Appends the entry to that account's history only, and logs the call |
| Persistence.TransactionsDao.FindLast | src/main/java/transaction/TransactionsDAO.java:9 | Changes no history and logs the call; returns none exactly when the account's history is empty, and its last entry otherwise |
| Ledger.BalanceOf | src/main/java/transaction/TransactionService.java:34-36 | No transaction gives 0.00; otherwise the found transaction's `balanceAfterExecution` |
| Ledger.CurrentBalance | src/main/java/transaction/TransactionService.java:33-37 | The balance of an account's history: 0.00 when it is empty, otherwise the last entry's `balanceAfterExecution` |
| Ledger.ConsistentBalanceIsNetFlow | src/main/java/transaction/TransactionService.java:26-28 | In a history that satisfies the ledger invariant, the current balance is deposits minus withdrawals |
| Ledger.AppendKeepsConsistent | src/main/java/transaction/TransactionService.java:26-29 | Appending an entry that follows from the current balance keeps the history consistent, and makes that entry's balance the current one |
| Ledger.AppendKeepsLedgerValid | src/main/java/transaction/TransactionService.java:26-29 | Such an append to the right account keeps the whole store valid |
| Ledger.TransactionService.constructor | src/main/java/transaction/TransactionService.java:19-22 | The service uses the DAO it is given |
| Ledger.TransactionService.GetCurrentBalance | src/main/java/transaction/TransactionService.java:33-37 | Exactly one findLast, no change to any history, and the account's current balance (0.00 when empty) |
| Ledger.TransactionService.Deposit | src/main/java/transaction/TransactionService.java:24-31 | Returns the DEPOSIT entry for that account, dated now, holding the amount and the prior balance plus the amount. The log shows findLast, then one save of that same entry. Only that account's history gets the entry appended. The ledger invariant is preserved |
| Ledger.TransactionService.Withdrawal | src/test/java/transaction/TransactionServiceTest.java:88-137 | Refused with NotEnoughMoney exactly when the amount exceeds the current balance, and then only findLast is logged and nothing is saved. Otherwise it returns the WITHDRAWAL entry whose balance is the prior balance minus the amount, after findLast and one save of it. Other accounts are untouched and the invariant is preserved |
| Ledger.DepositScenario | src/test/java/transaction/TransactionServiceTest.java:54-75 | Prior balance 20.00, deposit 10.00: a DEPOSIT of 10.00 leaving 30.00 |
| Ledger.WithdrawalScenario | src/test/java/transaction/TransactionServiceTest.java:88-108 | Prior balance 30.00, withdrawal 10.00: a WITHDRAWAL of 10.00 leaving 20.00 |
| Ledger.RefusedWithdrawalScenario | src/test/java/transaction/TransactionServiceTest.java:110-137 | Withdrawing 10.00 from a balance of 5.00, or from an empty history, fails with NotEnoughMoney |
| Formatting.Repeat | src/main/java/utils/TableTransactionFormatter.java:65 | `String.repeat`: n copies of the character |
| Formatting.Hyphens | src/main/java/utils/TableTransactionFormatter.java:64-66 | (23 + 20 + 29) / 2 = 36 hyphens |
| Formatting.HyphensText | src/main/java/utils/TableTransactionFormatter.java:64-66 | The hyphen run is the 36-hyphen literal of the expected output |
| Formatting.PadString | src/main/java/utils/TableTransactionFormatter.java:68-70 | Length is the larger of the field width and the text's length, so it never truncates |
| Formatting.PadStringLeftJustifies | src/main/java/utils/TableTransactionFormatter.java:68-70 | The text comes first, followed only by spaces |
| Formatting.PadStringIs | src/main/java/utils/TableTransactionFormatter.java:68-70 | Any string of the field's width that starts with the text and continues with spaces is the padded text |
| Formatting.BannerShape | src/main/java/utils/TableTransactionFormatter.java:34-35 | A banner is "\|", 36 hyphens, the text, 36 hyphens, "\|" |
| Formatting.Banner | src/main/java/utils/TableTransactionFormatter.java:34-35 | A hyphen-framed banner line. It has no contract of its own: `BannerShape` states its layout |
| Formatting.TitleBanner | src/main/java/utils/TableTransactionFormatter.java:34 | The welcome banner. It has no contract of its own: `TitleBannerText` states its text |
| Formatting.BalanceText | src/main/java/utils/TableTransactionFormatter.java:30-32 | The balance shown in the second banner. It has no contract of its own: `BalanceBannerShowsFirstBalance` states what it shows |
| Formatting.BalanceBanner | src/main/java/utils/TableTransactionFormatter.java:35 | The balance banner. It has no contract of its own: `BalanceBannerOutput` and `EmptyBalanceBannerText` state its text for the tests' inputs |
| Formatting.ColumnTitles | src/main/java/utils/TableTransactionFormatter.java:37-40 | The column-title line. It has no contract of its own: `ColumnTitlesText` and `TitleSeparators` state its text and layout |
| Formatting.CreateHeader | src/main/java/utils/TableTransactionFormatter.java:29-42 | Four lines, the third one empty |
| Formatting.BalanceBannerShowsFirstBalance | src/main/java/utils/TableTransactionFormatter.java:30-32 | The banner shows the FIRST listed transaction's `balanceAfterExecution` followed by "€ ", and the empty list shows the zero Amount's text |
| Formatting.GetImpactOnBalance | src/main/java/utils/TableTransactionFormatter.java:72-75 | The impact text. It has no contract of its own: `ImpactShowsSignedAmount` states it |
| Formatting.ImpactShowsSignedAmount | src/main/java/utils/TableTransactionFormatter.java:72-75 | The impact text starts with "-" exactly for a withdrawal, and the rest is the amount's text |
| Formatting.Row | src/main/java/utils/TableTransactionFormatter.java:53-58 | The row of one transaction. It has no contract of its own: `RowCells` and `RowSeparators` state its cells and layout |
| Formatting.NoDataRow | src/main/java/utils/TableTransactionFormatter.java:46-50 | The "No data found" row. It has no contract of its own: `NoDataRowText` and `NoDataSeparators` state its text and layout |
| Formatting.Rows | src/main/java/utils/TableTransactionFormatter.java:52-59 | One row per transaction |
| Formatting.RowsAt | src/main/java/utils/TableTransactionFormatter.java:52-59 | Row k is the row of transaction k, so the input order is kept |
| Formatting.BodyLines | src/main/java/utils/TableTransactionFormatter.java:44-61 | The body. It has no contract of its own: `CreateBodyWithTransactionsFormatted` computes it by the source's loop, and `FormatShape` states its shape |
| Formatting.CreateBodyWithTransactionsFormatted | src/main/java/utils/TableTransactionFormatter.java:44-62 | The loop's list is `BodyLines`: "No data found" for no transaction, else the rows in input order |
| Formatting.Format | src/main/java/utils/TableTransactionFormatter.java:22-27 | The header followed by the body. It has no contract of its own: `FormatShape` states it |
| Formatting.FormatShape | src/main/java/utils/TableTransactionFormatter.java:22-27 | The header's 4 lines and then 1 "No data found" line or one row per transaction in order, so 4 + max(1, n) lines. The third line is empty |
| Formatting.RowCells | src/main/java/utils/TableTransactionFormatter.java:53-58 | Every cell of a row starts with "\|" and is at least 23 / 20 / 29 / 29 characters |
| Formatting.ColumnsAlign | src/main/java/utils/TableTransactionFormatter.java:37-57 | When the cells fit, rows and the "No data found" row are 101 characters and the titles 105, because the last title column is 33 wide. All have "\|" at 0, 23, 43 and 72 |
| Formatting.RowSeparators | src/main/java/utils/TableTransactionFormatter.java:53-58 | A fitting row's separators sit at 0, 23, 43, 72, and the row is 101 long |
| Formatting.TitleSeparators | src/main/java/utils/TableTransactionFormatter.java:37-40 | The titles' separators are at the same places, and the line is 105 long |
| Formatting.NoDataSeparators | src/main/java/utils/TableTransactionFormatter.java:46-50 | The "No data found" row has the row's separators and length |
| Formatting.EmptyHistoryOutput | src/test/java/utils/TableTransactionFormatterTest.java:50-65 | The five lines expected for an empty history, character for character |
| Formatting.TitleBannerText | src/test/java/utils/TableTransactionFormatterTest.java:57 | The welcome banner as the tests expect it |
| Formatting.EmptyBalanceBannerText | src/test/java/utils/TableTransactionFormatterTest.java:58 | The "0.00€ " balance banner of an empty history as the tests expect it |
| Formatting.ColumnTitlesText | src/test/java/utils/TableTransactionFormatterTest.java:60 | The column-title line as the tests expect it |
| Formatting.NoDataRowText | src/test/java/utils/TableTransactionFormatterTest.java:61 | The "No data found" row as the tests expect it |
| Formatting.BalanceBannerOutput | src/test/java/utils/TableTransactionFormatterTest.java:30-38 | A list whose first balance is 465.00 gets the expected balance banner |
| Formatting.DepositRowOutput | src/test/java/utils/TableTransactionFormatterTest.java:30-41 | The expected row for a deposit of 10.00 leaving 465.00 |
| Formatting.WithdrawalRowOutput | src/test/java/utils/TableTransactionFormatterTest.java:31-42 | The expected row for a withdrawal of 30.00 leaving 455.00, with "-30.00€" |
| Formatting.TitleCells | src/test/java/utils/TableTransactionFormatterTest.java:40 | The four padded column titles as the tests expect them |
| Formatting.TypeCells | src/test/java/utils/TableTransactionFormatterTest.java:41-42 | The padded DEPOSIT and WITHDRAWAL cells as the tests expect them |
| Formatting.DateCell | src/test/java/utils/TableTransactionFormatterTest.java:41 | A date rendered as "1970-01-01 02:00:00" gives the expected padded cell |

## Left out

The core reads a clock and renders dates. Beyond those, the model leaves out the following.

### Ledger
- The clock. `LocalDateTime.now(clock)` becomes the `now` parameter of `Deposit` and `Withdrawal`.
- `java.util.UUID` and `LocalDateTime`. Both are abstract types that support only equality (`AccountId`, `DateTime`).
- Persistence. No DAO implementation exists, only its two-method interface.
  - The store is an in-memory map with a ghost call log.
  - Nothing is claimed about durability.
  - `save`'s return value is ignored by the service, so `Save` returns nothing.
- Ledger.TransactionService.Withdrawal: the method is not in the service's source. It follows only what the service's tests assert.
  - The equal-amount case is untested. The model lets it succeed, because `compareTo(...) > 0` is taken as the refusal rule.
- The deposit of a negative amount. The service's test `shouldNotDepositAmountInBankAccountBecauseOfNegativeDeposit` (src/test/java/transaction/TransactionServiceTest.java:77-86) expects a NegativeAmount for a −10.00 deposit, but in the source an `Amount` can never be negative. That exception is raised by `amountOf` inside the test's lambda, before `deposit` is called. The model follows the code: `Deposit` cannot fail, and the refusal is stated by `AmountOfChecksSignBeforeRounding`.
- `printStatement`, `findByAccountId` and the four-argument service constructor. Only tests use them; they are absent from the source.
- `ConsoleStatementPrinter`. It is console output.
- Concurrency. The code has none.
- `TypeTransaction.java` is not among the available sources; the enum's two constants and their `toString` names are taken from the tests' expected output.

### Amount
- `Amount.hashCode`. It is a Java hashing detail.
- Amounts.Add: the contract states only the equal-scale case, because the model only ever adds two Amounts at scale 2. The alignment of operands at different scales is in the body but not stated.
- Amounts.Subtract: the contract states only the equal-scale case, for the same reason as `Add`.
- Amounts.Equals: Java's reference-identity and class checks (`this == o`, `getClass()`) are not modelled. Only Amounts are compared.

### Formatter
- Date formatting with `DateTimeFormatter` ("yyyy-MM-dd HH:mm:ss") is a library call. It becomes the parameter `render: DateTime -> string`.
- Java `String.format` padding is modelled on characters. "€" is one character, as it is one UTF-16 unit in Java.
- The formatter's four-row history test is stated by its parts, not as one equation over all eight lines. Those parts are `FormatShape`, `BalanceBannerOutput`, `DepositRowOutput` and `WithdrawalRowOutput`. The two remaining deposit rows (15.00/485.00, 42.00/470.00) are instances of the same `Row` function and are not written out.
- The balance banner shows the first listed transaction's balance. That is the current balance only when the list is newest-first. The model states this behaviour as written and claims nothing about list order.
