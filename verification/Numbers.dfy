/** The numbers in the column "ready" can be read back. */
module Numbers {
  import opened Types
  import opened Names

  predicate IsDigit(c: char) {
    '0' <= c <= '9'
  }

  predicate AreDigits(s: string) {
    forall i :: 0 <= i < |s| ==> IsDigit(s[i])
  }

  function Read(s: string): nat
    requires AreDigits(s)
  {
    if s == [] then 0 else 10 * Read(s[..|s| - 1]) + (s[|s| - 1] as int - '0' as int)
  }

  /** A printed number consists of digits, without a leading zero but for zero itself, and reads as the number. */
  lemma {:induction false} ReadDecimal(n: nat)
    ensures var s := Decimal(n);
            && AreDigits(s) && Read(s) == n && s != ""
            && (n > 0 ==> s[0] != '0') && (n == 0 ==> s == "0")
  {
    var s := Decimal(n);
    if n < 10 {
      assert s[..0] == [];
    } else {
      ReadDecimal(n / 10);
      ReadDecimal(n % 10);
      var front, last := Decimal(n / 10), Decimal(n % 10);
      assert |last| == 1 && s == front + last && s[..|s| - 1] == front && s[|s| - 1] == last[0];
      assert last == [last[0]] && last[..0] == [];
    }
  }

  /** A text with one slash, before it the number done, after it the total. */
  predicate Shows(text: string, done: nat, total: nat) {
    var parts := Split(text, '/');
    && |parts| == 2 && AreDigits(parts[0]) && AreDigits(parts[1])
    && Read(parts[0]) == done && Read(parts[1]) == total
  }

  /** The text before the one slash reads as the number done, the text after it as the total. */
  lemma ReadyReads(done: nat, total: nat)
    ensures Shows(Ready(done, total), done, total)
  {
    ReadDecimal(done);
    ReadDecimal(total);
    assert Ready(done, total) == Decimal(done) + ['/'] + Decimal(total);
    SplitAt(Decimal(done), Decimal(total), '/');
    SplitWhole(Decimal(done), '/');
    SplitWhole(Decimal(total), '/');
  }
}
