/**
 * `TableTransactionFormatter`: renders an account's transactions as a table,
 * four header lines followed by one row per transaction (or one "No data
 * found" row). Date rendering (DateTimeFormatter "yyyy-MM-dd HH:mm:ss") is a
 * library call and is taken as a parameter `render`.
 */
module Formatting {
  import opened Wrappers
  import opened Amounts
  import opened Transactions
  import Ledger

  const DateWidth := 23
  const TypeWidth := 20
  const AmountWidth := 29
  const BalanceHeaderWidth := 33
  const RowWidth := DateWidth + TypeWidth + AmountWidth

  /** `c` written n times (String.repeat). */
  function Repeat(c: char, n: nat): (s: string)
    ensures |s| == n
    ensures forall i :: 0 <= i < n ==> s[i] == c
  {
    if n == 0 then [] else [c] + Repeat(c, n - 1)
  }

  /** `padString`: left-justified in a field of `width` characters (format "%-<width>s"); never truncates. */
  function PadString(s: string, width: nat): (r: string)
    ensures |r| == if |s| >= width then |s| else width
  {
    if |s| >= width then s else s + Repeat(' ', width - |s|)
  }

  /** `returnCorrectNumberOfHyphens`: half the row width in hyphens. */
  function Hyphens(): (r: string)
    ensures |r| == 36
    ensures forall i :: 0 <= i < |r| ==> r[i] == '-'
  {
    Repeat('-', RowWidth / 2)
  }

  /** The balance shown in the second banner: that of the first transaction given, or "0.00". */
  function BalanceText(transactions: seq<Transaction>): string
  {
    if |transactions| == 0 then "0.00€ "
    else AmountValueToString(transactions[0].balanceAfterExecution) + "€ "
  }

  /** A framed banner line: "|", 36 hyphens, the text, 36 hyphens, "|". */
  function Banner(text: string): string
  {
    "|" + Hyphens() + text + Hyphens() + "|"
  }

  /** The first banner line. */
  function TitleBanner(): string
  {
    Banner(" WELCOME TO YOUR BANK ACCOUNT HISTORY ")
  }

  /** The second banner line, with the balance of the first transaction given. */
  function BalanceBanner(transactions: seq<Transaction>): string
  {
    Banner(" CURRENT BALANCE OF USER : " + BalanceText(transactions))
  }

  /** The column titles; the last column is padded to 33 rather than 29. */
  function ColumnTitles(): string
  {
    PadString("|Transaction date", DateWidth)
      + PadString("|Transaction type", TypeWidth)
      + PadString("|Impact on the balance", AmountWidth)
      + PadString("|Balance after the transaction", BalanceHeaderWidth)
  }

  /** `createHeader`: two banners, an empty line and the column titles. */
  function CreateHeader(transactions: seq<Transaction>): (header: seq<string>)
    ensures |header| == 4 && header[2] == ""
  {
    [TitleBanner(), BalanceBanner(transactions), "", ColumnTitles()]
  }

  /** `getImpactOnBalance`: the amount, with a "-" in front for a withdrawal. */
  function GetImpactOnBalance(t: Transaction): string
  {
    if t.kind == DEPOSIT then AmountValueToString(t.amount)
    else "-" + AmountValueToString(t.amount)
  }

  /** The row of one transaction. */
  function Row(t: Transaction, render: DateTime -> string): string
  {
    PadString("|" + render(t.date), DateWidth)
      + PadString("|" + TypeName(t.kind), TypeWidth)
      + PadString("|" + GetImpactOnBalance(t) + "€", AmountWidth)
      + PadString("|" + AmountValueToString(t.balanceAfterExecution) + "€", AmountWidth)
  }

  /** The row written when there is no transaction. */
  function NoDataRow(): string
  {
    PadString("|No data found", DateWidth)
      + PadString("|No data found", TypeWidth)
      + PadString("|No data found", AmountWidth)
      + PadString("|No data found", AmountWidth)
  }

  /** The row renderer handed to the body loop. */
  function RowOf(render: DateTime -> string): Transaction -> string
  {
    t => Row(t, render)
  }

  /** The rows of the transactions, in order. */
  function Rows(transactions: seq<Transaction>, rowOf: Transaction -> string): (rows: seq<string>)
    ensures |rows| == |transactions|
  {
    if transactions == [] then []
    else Rows(transactions[..|transactions| - 1], rowOf) + [rowOf(transactions[|transactions| - 1])]
  }

  /** The body: one row per transaction in order, or the single "No data found" row. */
  function BodyLines(transactions: seq<Transaction>, render: DateTime -> string): seq<string>
  {
    if |transactions| == 0 then [NoDataRow()]
    else Rows(transactions, RowOf(render))
  }

  /** `createBodyWithTransactionsFormatted`: fills the list row by row. */
  method CreateBodyWithTransactionsFormatted(transactions: seq<Transaction>, render: DateTime -> string)
    returns (transactionsFormatted: seq<string>)
    ensures transactionsFormatted == BodyLines(transactions, render)
  {
    transactionsFormatted := [];
    if |transactions| == 0 {
      transactionsFormatted := transactionsFormatted + [NoDataRow()];
    } else {
      for i := 0 to |transactions|
        invariant transactionsFormatted == Rows(transactions[..i], RowOf(render))
      {
        assert transactions[..i + 1][..i] == transactions[..i];
        transactionsFormatted := transactionsFormatted + [Row(transactions[i], render)];
      }
      assert transactions[..|transactions|] == transactions;
    }
  }

  /** `format`: the header followed by the body. */
  function Format(transactions: seq<Transaction>, render: DateTime -> string): seq<string>
  {
    CreateHeader(transactions) + BodyLines(transactions, render)
  }

  // ---------------------------------------------------------------- lemmas

  /** Row k of the body is the row of transaction k. */
  lemma {:induction false} RowsAt(transactions: seq<Transaction>, rowOf: Transaction -> string, k: nat)
    requires k < |transactions|
    ensures Rows(transactions, rowOf)[k] == rowOf(transactions[k])
  {
    var n := |transactions|;
    if k < n - 1 {
      var earlier := transactions[..n - 1];
      RowsAt(earlier, rowOf, k);
      assert earlier[k] == transactions[k];
    }
  }

  /** 4 header lines, then one row per transaction in input order, or one "No data found" row. */
  lemma FormatShape(transactions: seq<Transaction>, render: DateTime -> string)
    ensures var lines := Format(transactions, render);
      && |lines| == 4 + (if |transactions| == 0 then 1 else |transactions|)
      && lines[..4] == CreateHeader(transactions)
      && lines[2] == ""
      && (|transactions| == 0 ==> lines[4] == NoDataRow())
      && (forall i :: 0 <= i < |transactions| ==> lines[4 + i] == Row(transactions[i], render))
  {
    var lines := Format(transactions, render);
    assert lines[..4] == CreateHeader(transactions);
    forall i | 0 <= i < |transactions|
      ensures lines[4 + i] == Row(transactions[i], render)
    {
      RowsAt(transactions, RowOf(render), i);
    }
  }

  /** The balance banner shows the first transaction's balance, and the hard-coded "0.00" is the zero Amount's text. */
  lemma BalanceBannerShowsFirstBalance(transactions: seq<Transaction>)
    ensures var shown := Ledger.BalanceOf(if |transactions| == 0 then None else Some(transactions[0]));
      BalanceText(transactions) == AmountValueToString(shown) + "€ "
  {
    if |transactions| == 0 {
      AmountValueToStringMoreExamples();
    }
  }

  /** The impact column's sign tells the kind apart, and the rest is the amount's text. */
  lemma ImpactShowsSignedAmount(t: Transaction)
    ensures var s := GetImpactOnBalance(t);
      && (s[0] == '-' <==> t.kind == WITHDRAWAL)
      && (if s[0] == '-' then s[1..] else s) == AmountValueToString(t.amount)
  {
  }

  /** Body rows and the header put their column separators at the same places; the header's last column is 4 wider. */
  lemma ColumnsAlign(t: Transaction, render: DateTime -> string)
    requires |render(t.date)| < DateWidth
    requires |AmountValueToString(t.amount)| + 3 <= AmountWidth
    requires |AmountValueToString(t.balanceAfterExecution)| + 2 <= AmountWidth
    ensures var row := Row(t, render);
      && |row| == 101
      && row[0] == '|' && row[23] == '|' && row[43] == '|' && row[72] == '|'
    ensures var title := CreateHeader([t])[3];
      && |title| == 105
      && title[0] == '|' && title[23] == '|' && title[43] == '|' && title[72] == '|'
    ensures |NoDataRow()| == 101
    ensures NoDataRow()[0] == '|' && NoDataRow()[23] == '|' && NoDataRow()[43] == '|' && NoDataRow()[72] == '|'
  {
    RowSeparators(t, render);
    TitleSeparators();
    NoDataSeparators();
  }

  lemma RowSeparators(t: Transaction, render: DateTime -> string)
    requires |render(t.date)| < DateWidth
    requires |AmountValueToString(t.amount)| + 3 <= AmountWidth
    requires |AmountValueToString(t.balanceAfterExecution)| + 2 <= AmountWidth
    ensures var row := Row(t, render);
      && |row| == 101
      && row[0] == '|' && row[23] == '|' && row[43] == '|' && row[72] == '|'
  {
    var c1 := PadString("|" + render(t.date), DateWidth);
    var c2 := PadString("|" + TypeName(t.kind), TypeWidth);
    var c3 := PadString("|" + GetImpactOnBalance(t) + "€", AmountWidth);
    var c4 := PadString("|" + AmountValueToString(t.balanceAfterExecution) + "€", AmountWidth);
    FirstCharOfPad("|" + render(t.date), DateWidth);
    FirstCharOfPad("|" + TypeName(t.kind), TypeWidth);
    FirstCharOfPad("|" + GetImpactOnBalance(t) + "€", AmountWidth);
    FirstCharOfPad("|" + AmountValueToString(t.balanceAfterExecution) + "€", AmountWidth);
    SeparatorsAt(c1, c2, c3, c4);
  }

  lemma TitleSeparators()
    ensures var title := ColumnTitles();
      && |title| == 105
      && title[0] == '|' && title[23] == '|' && title[43] == '|' && title[72] == '|'
  {
    FirstCharOfPad("|Transaction date", DateWidth);
    FirstCharOfPad("|Transaction type", TypeWidth);
    FirstCharOfPad("|Impact on the balance", AmountWidth);
    FirstCharOfPad("|Balance after the transaction", BalanceHeaderWidth);
    SeparatorsAt(PadString("|Transaction date", DateWidth), PadString("|Transaction type", TypeWidth),
      PadString("|Impact on the balance", AmountWidth), PadString("|Balance after the transaction", BalanceHeaderWidth));
  }

  lemma NoDataSeparators()
    ensures |NoDataRow()| == 101
    ensures NoDataRow()[0] == '|' && NoDataRow()[23] == '|' && NoDataRow()[43] == '|' && NoDataRow()[72] == '|'
  {
    var c1 := PadString("|No data found", DateWidth);
    var c2 := PadString("|No data found", TypeWidth);
    var c3 := PadString("|No data found", AmountWidth);
    FirstCharOfPad("|No data found", DateWidth);
    FirstCharOfPad("|No data found", TypeWidth);
    FirstCharOfPad("|No data found", AmountWidth);
    SeparatorsAt(c1, c2, c3, c3);
  }

  /** Whatever the row holds, each of its four cells starts with "|" and is at least its column width (23, 20, 29, 29). */
  lemma RowCells(t: Transaction, render: DateTime -> string)
    ensures var c1, c2, c3, c4 :=
        PadString("|" + render(t.date), DateWidth),
        PadString("|" + TypeName(t.kind), TypeWidth),
        PadString("|" + GetImpactOnBalance(t) + "€", AmountWidth),
        PadString("|" + AmountValueToString(t.balanceAfterExecution) + "€", AmountWidth);
      && Row(t, render) == c1 + c2 + c3 + c4
      && |c1| >= DateWidth && |c2| >= TypeWidth && |c3| >= AmountWidth && |c4| >= AmountWidth
      && c1[0] == '|' && c2[0] == '|' && c3[0] == '|' && c4[0] == '|'
  {
    FirstCharOfPad("|" + render(t.date), DateWidth);
    FirstCharOfPad("|" + TypeName(t.kind), TypeWidth);
    FirstCharOfPad("|" + GetImpactOnBalance(t) + "€", AmountWidth);
    FirstCharOfPad("|" + AmountValueToString(t.balanceAfterExecution) + "€", AmountWidth);
  }

  /** A padded cell that starts with "|" and fits its field keeps the "|" first. */
  lemma FirstCharOfPad(s: string, width: nat)
    requires 0 < |s| && s[0] == '|'
    ensures PadString(s, width)[0] == '|'
  {
    PadStringLeftJustifies(s, width);
    assert PadString(s, width)[0] == PadString(s, width)[..|s|][0];
  }

  /** Four cells of widths 23, 20, 29 and any, each led by "|", put "|" at 0, 23, 43 and 72. */
  lemma SeparatorsAt(c1: string, c2: string, c3: string, c4: string)
    requires |c1| == DateWidth && |c2| == TypeWidth && |c3| == AmountWidth && |c4| > 0
    requires c1[0] == '|' && c2[0] == '|' && c3[0] == '|' && c4[0] == '|'
    ensures var row := c1 + c2 + c3 + c4;
      && |row| == 72 + |c4|
      && row[0] == '|' && row[23] == '|' && row[43] == '|' && row[72] == '|'
  {
  }

  lemma HyphensText()
    ensures Hyphens() == "------------------------------------"
  {
    var lit := "------------------------------------";
    assert forall i :: 0 <= i < 36 ==> Hyphens()[i] == lit[i];
  }

  /** PadString keeps s in front and fills the rest of the field with spaces. */
  lemma PadStringLeftJustifies(s: string, width: nat)
    ensures var r := PadString(s, width);
      && r[..|s|] == s
      && forall i :: |s| <= i < |r| ==> r[i] == ' '
  {
  }

  /** PadString(s, width) is any string of length width that starts with s and continues with spaces. */
  lemma PadStringIs(s: string, width: nat, expected: string)
    requires |s| <= width && |expected| == width
    requires forall i :: 0 <= i < |s| ==> expected[i] == s[i]
    requires forall i :: |s| <= i < width ==> expected[i] == ' '
    ensures PadString(s, width) == expected
  {
    var r := PadString(s, width);
    PadStringLeftJustifies(s, width);
    assert forall i :: 0 <= i < |s| ==> r[i] == r[..|s|][i];
  }


  /** The output for an empty history, as the formatter's tests expect it (each line written cell by cell). */
  lemma EmptyHistoryOutput(render: DateTime -> string)
    ensures Format([], render) == [
      "|" + "------------------------------------" + " WELCOME TO YOUR BANK ACCOUNT HISTORY " + "------------------------------------" + "|",
      "|" + "------------------------------------" + (" CURRENT BALANCE OF USER : " + "0.00€ ") + "------------------------------------" + "|",
      "",
      "|Transaction date      " + "|Transaction type   " + "|Impact on the balance       " + "|Balance after the transaction   ",
      "|No data found         " + "|No data found      " + "|No data found               " + "|No data found               "]
  {
    TitleBannerText();
    EmptyBalanceBannerText();
    ColumnTitlesText();
    NoDataRowText();
    assert Format([], render) == [TitleBanner(), BalanceBanner([]), "", ColumnTitles(), NoDataRow()];
  }

  lemma TitleBannerText()
    ensures TitleBanner() == "|" + "------------------------------------" + " WELCOME TO YOUR BANK ACCOUNT HISTORY " + "------------------------------------" + "|"
  {
    HyphensText();
  }

  lemma EmptyBalanceBannerText()
    ensures BalanceBanner([]) == "|" + "------------------------------------" + (" CURRENT BALANCE OF USER : " + "0.00€ ") + "------------------------------------" + "|"
  {
    HyphensText();
  }

  lemma ColumnTitlesText()
    ensures ColumnTitles()
      == "|Transaction date      " + "|Transaction type   " + "|Impact on the balance       " + "|Balance after the transaction   "
  {
    TitleCells();
  }

  lemma NoDataRowText()
    ensures NoDataRow()
      == "|No data found         " + "|No data found      " + "|No data found               " + "|No data found               "
  {
    PadStringIs("|No data found", DateWidth, "|No data found         ");
    PadStringIs("|No data found", TypeWidth, "|No data found      ");
    PadStringIs("|No data found", AmountWidth, "|No data found               ");
  }

  /** The balance banner of the formatter's test, whose first transaction leaves 465.00. */
  lemma BalanceBannerOutput(transactions: seq<Transaction>)
    requires |transactions| > 0 && transactions[0].balanceAfterExecution == Amount(46500)
    ensures BalanceBanner(transactions)
      == "|" + "------------------------------------" + (" CURRENT BALANCE OF USER : " + "465.00€ ") + "------------------------------------" + "|"
  {
    assert BalanceText(transactions) == "465.00€ " by {
      AmountValueToStringExamples();
    }
    HyphensText();
  }

  /** The first row of the formatter's test: a deposit of 10.00 leaving 465.00. */
  lemma DepositRowOutput(t: Transaction, render: DateTime -> string)
    requires render(t.date) == "1970-01-01 02:00:00"
    requires t.amount == Amount(1000) && t.balanceAfterExecution == Amount(46500) && t.kind == DEPOSIT
    ensures Row(t, render)
      == "|1970-01-01 02:00:00   " + "|DEPOSIT            " + "|10.00€                      " + "|465.00€                     "
  {
    DateCell(render, t.date);
    TypeCells();
    ImpactCell(t, "|10.00€", "|10.00€                      ");
    BalanceCell(t, "|465.00€", "|465.00€                     ");
  }

  /** The second row of the formatter's test: a withdrawal of 30.00 leaving 455.00. */
  lemma WithdrawalRowOutput(t: Transaction, render: DateTime -> string)
    requires render(t.date) == "1970-01-01 02:00:00"
    requires t.amount == Amount(3000) && t.balanceAfterExecution == Amount(45500) && t.kind == WITHDRAWAL
    ensures Row(t, render)
      == "|1970-01-01 02:00:00   " + "|WITHDRAWAL         " + "|-30.00€                     " + "|455.00€                     "
  {
    DateCell(render, t.date);
    TypeCells();
    ImpactCell(t, "|-30.00€", "|-30.00€                     ");
    BalanceCell(t, "|455.00€", "|455.00€                     ");
  }

  lemma ImpactCell(t: Transaction, text: string, expected: string)
    requires "|" + GetImpactOnBalance(t) + "€" == text
    requires |text| <= AmountWidth && |expected| == AmountWidth
    requires forall i :: 0 <= i < |text| ==> expected[i] == text[i]
    requires forall i :: |text| <= i < AmountWidth ==> expected[i] == ' '
    ensures PadString("|" + GetImpactOnBalance(t) + "€", AmountWidth) == expected
  {
    PadStringIs(text, AmountWidth, expected);
  }

  lemma BalanceCell(t: Transaction, text: string, expected: string)
    requires "|" + AmountValueToString(t.balanceAfterExecution) + "€" == text
    requires |text| <= AmountWidth && |expected| == AmountWidth
    requires forall i :: 0 <= i < |text| ==> expected[i] == text[i]
    requires forall i :: |text| <= i < AmountWidth ==> expected[i] == ' '
    ensures PadString("|" + AmountValueToString(t.balanceAfterExecution) + "€", AmountWidth) == expected
  {
    PadStringIs(text, AmountWidth, expected);
  }

  /** A banner is framed by "|", with its text between two runs of 36 hyphens. */
  lemma BannerShape(text: string)
    ensures var r := Banner(text);
      && |r| == |text| + 74
      && r[0] == '|' && r[|r| - 1] == '|'
      && (forall i :: 1 <= i < 37 ==> r[i] == '-')
      && r[37..37 + |text|] == text
      && (forall i :: 37 + |text| <= i < 73 + |text| ==> r[i] == '-')
  {
    var r := Banner(text);
    assert r[37..37 + |text|] == text;
  }

  lemma TitleCells()
    ensures PadString("|Transaction date", DateWidth) == "|Transaction date      "
    ensures PadString("|Transaction type", TypeWidth) == "|Transaction type   "
    ensures PadString("|Impact on the balance", AmountWidth) == "|Impact on the balance       "
    ensures PadString("|Balance after the transaction", BalanceHeaderWidth) == "|Balance after the transaction   "
  {
    PadStringIs("|Transaction date", DateWidth, "|Transaction date      ");
    PadStringIs("|Transaction type", TypeWidth, "|Transaction type   ");
    PadStringIs("|Impact on the balance", AmountWidth, "|Impact on the balance       ");
    PadStringIs("|Balance after the transaction", BalanceHeaderWidth, "|Balance after the transaction   ");
  }

  lemma DateCell(render: DateTime -> string, date: DateTime)
    requires render(date) == "1970-01-01 02:00:00"
    ensures PadString("|" + render(date), DateWidth) == "|1970-01-01 02:00:00   "
  {
    assert "|" + render(date) == "|1970-01-01 02:00:00";
    PadStringIs("|1970-01-01 02:00:00", DateWidth, "|1970-01-01 02:00:00   ");
  }

  lemma TypeCells()
    ensures PadString("|" + TypeName(DEPOSIT), TypeWidth) == "|DEPOSIT            "
    ensures PadString("|" + TypeName(WITHDRAWAL), TypeWidth) == "|WITHDRAWAL         "
  {
    assert "|" + TypeName(DEPOSIT) == "|DEPOSIT";
    assert "|" + TypeName(WITHDRAWAL) == "|WITHDRAWAL";
    PadStringIs("|DEPOSIT", TypeWidth, "|DEPOSIT            ");
    PadStringIs("|WITHDRAWAL", TypeWidth, "|WITHDRAWAL         ");
  }
}
