/** PCI identifiers as the driver modules write them: "0x" followed by four
    lower-case hexadecimal digits (a class, vendor or device ID), and the
    facts about ordered ID tables that the driver modules rely on. */
module PciIds {

  predicate IsHexDigit(c: char) {
    '0' <= c <= '9' || 'a' <= c <= 'f'
  }

  /** "0x" and exactly four lower-case hexadecimal digits. */
  predicate IsPciId(s: string) {
    |s| == 6 && s[0] == '0' && s[1] == 'x' &&
    IsHexDigit(s[2]) && IsHexDigit(s[3]) && IsHexDigit(s[4]) && IsHexDigit(s[5])
  }

  /** Strict string order on well-formed IDs (what Python's `<` gives on them),
      spelled out digit by digit. */
  predicate Before(a: string, b: string)
    requires IsPciId(a) && IsPciId(b)
  {
    a[2] < b[2] || (a[2] == b[2] &&
    (a[3] < b[3] || (a[3] == b[3] &&
    (a[4] < b[4] || (a[4] == b[4] && a[5] < b[5])))))
  }

  predicate AllIds(s: seq<string>) {
    forall i :: 0 <= i < |s| ==> IsPciId(s[i])
  }

  /** Every entry is a well-formed ID and each entry comes strictly after the one before it. */
  predicate Ascending(s: seq<string>) {
    AllIds(s) && forall i :: 0 < i < |s| ==> Before(s[i - 1], s[i])
  }

  /** Ascending from position i on, unrolled one entry at a time, so that
      Dafny can check it on a short literal table by evaluation. */
  predicate AscendingFrom(s: seq<string>, i: nat)
    decreases |s| - i
  {
    i >= |s| ||
    (IsPciId(s[i]) && (i + 1 < |s| ==> IsPciId(s[i + 1]) && Before(s[i], s[i + 1])) && AscendingFrom(s, i + 1))
  }

  lemma {:induction false} AscendingFromIsAscending(s: seq<string>, i: nat)
    requires i <= |s|
    requires AscendingFrom(s, i)
    ensures Ascending(s[i..])
    decreases |s| - i
  {
    if i < |s| {
      AscendingFromIsAscending(s, i + 1);
      assert s[i..] == [s[i]] + s[i + 1..];
    }
  }

  /** Two ascending tables joined where the first ends before the second starts. */
  lemma AppendAscending(a: seq<string>, b: seq<string>)
    requires Ascending(a) && Ascending(b) && |a| > 0 && |b| > 0
    requires Before(a[|a| - 1], b[0])
    ensures Ascending(a + b)
    ensures (a + b)[0] == a[0] && (a + b)[|a + b| - 1] == b[|b| - 1]
  {
    var s := a + b;
    forall i | 0 < i < |s| ensures Before(s[i - 1], s[i]) {
      if i > |a| {
        assert s[i - 1] == b[i - 1 - |a|] && s[i] == b[i - |a|];
      } else if i < |a| {
        assert s[i - 1] == a[i - 1] && s[i] == a[i];
      }
    }
  }

  lemma BeforeTransitive(a: string, b: string, c: string)
    requires IsPciId(a) && IsPciId(b) && IsPciId(c)
    requires Before(a, b) && Before(b, c)
    ensures Before(a, c)
  {
  }

  /** In an ascending table every later entry comes after every earlier one. */
  lemma {:induction false} AscendingIsSorted(s: seq<string>, i: nat, j: nat)
    requires Ascending(s) && i < j < |s|
    ensures Before(s[i], s[j])
    decreases j - i
  {
    if i + 1 < j {
      AscendingIsSorted(s, i, j - 1);
      BeforeTransitive(s[i], s[j - 1], s[j]);
    }
  }

  /** An ascending table has no repeated entry. */
  lemma AscendingHasNoRepeats(s: seq<string>)
    requires Ascending(s)
    ensures forall i, j :: 0 <= i < j < |s| ==> s[i] != s[j]
  {
    forall i, j | 0 <= i < j < |s| ensures s[i] != s[j] {
      AscendingIsSorted(s, i, j);
    }
  }

  /** No well-formed ID that comes before the first entry of an ascending table is in it. */
  lemma BelowFirstIsAbsent(s: seq<string>, id: string)
    requires Ascending(s) && |s| > 0 && IsPciId(id) && Before(id, s[0])
    ensures id !in s
  {
    if id in s {
      var j :| 0 <= j < |s| && s[j] == id;
      if j > 0 {
        AscendingIsSorted(s, 0, j);
        BeforeTransitive(id, s[0], id);
      }
    }
  }

  /** One row of a table literal: ascending on its own and, when a next row
      follows, ending before that row begins. */
  predicate Fits(row: seq<string>, next: seq<string>) {
    |row| > 0 && Ascending(row) &&
    (|next| > 0 ==> IsPciId(next[0]) && Before(row[|row| - 1], next[0]))
  }

  /** Turns the unrolled check of a short row, which Dafny evaluates, into Fits. */
  lemma CheckRow(row: seq<string>, next: seq<string>)
    requires |row| > 0 && AscendingFrom(row, 0)
    requires |next| > 0 ==> IsPciId(row[|row| - 1]) && IsPciId(next[0]) && Before(row[|row| - 1], next[0])
    ensures Fits(row, next)
  {
    AscendingFromIsAscending(row, 0);
    assert row[0..] == row;
  }

  /** Putting a row that ends before the table starts in front of the table keeps it ascending. */
  lemma Prepend(row: seq<string>, table: seq<string>)
    requires Ascending(row) && |row| > 0
    requires Ascending(table) && |table| > 0
    requires IsPciId(table[0]) && Before(row[|row| - 1], table[0])
    ensures Ascending(row + table) && (row + table)[0] == row[0]
    ensures (row + table)[|row + table| - 1] == table[|table| - 1]
  {
    AppendAscending(row, table);
  }

  /** A part that fits an ascending rest joins it into one ascending table. */
  lemma Join(part: seq<string>, rest: seq<string>)
    requires Fits(part, rest) && Fits(rest, [])
    ensures Fits(part + rest, [])
  {
    AppendAscending(part, rest);
  }
}
