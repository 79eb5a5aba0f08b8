/**
 * Clean-up of an uploaded bank statement before matching (core/db.py, `verify_transactions`,
 * the "Data Cleaning" block). The statement is the two operator-chosen columns, each cell
 * already turned to text by `astype(str)`; `toNumeric` stands for `pd.to_numeric(errors='coerce')`,
 * giving `None` where pandas gives NaN.
 */
module BankStatement {
  import opened Wrappers
  import opened Seqs
  import opened Text
  import opened Money

  /** One statement row: the transaction-id cell and the amount cell, as text. */
  datatype BankRow = BankRow(id: string, amount: string)

  /** One row of the cleaned statement. */
  datatype CleanRow = CleanRow(id: string, amount: Amount)

  /** `.str.strip().str.strip("'\"")`: surrounding whitespace, then surrounding quote characters. */
  function Tidy(cell: string): string {
    Strip(Trim(cell), IsQuote)
  }

  /** A spreadsheet-export suffix is cut when the text is digits and dots only: "123.0" becomes "123". */
  function DropExportSuffix(t: string): string {
    if '.' in t && IsDigits(Remove(t, '.')) then Before(t, '.') else t
  }

  /** The transaction id under which a statement row is indexed. */
  function NormaliseId(cell: string): string {
    DropExportSuffix(Tidy(cell))
  }

  /** The amount of a statement row, or `None` when pandas cannot read it as a number. */
  function BankAmount(cell: string, toNumeric: string -> Option<Amount>): Option<Amount> {
    toNumeric(Tidy(cell))
  }

  function CleanRowOf(row: BankRow, toNumeric: string -> Option<Amount>): Option<CleanRow> {
    match BankAmount(row.amount, toNumeric)
    case None => None
    case Some(a) => Some(CleanRow(NormaliseId(row.id), a))
  }

  function Cleaner(toNumeric: string -> Option<Amount>): BankRow -> Option<CleanRow> {
    (row: BankRow) => CleanRowOf(row, toNumeric)
  }

  /** The statement after clean-up: ids normalised, rows with an unreadable amount dropped (`dropna`). */
  function Clean(rows: seq<BankRow>, toNumeric: string -> Option<Amount>): (r: seq<CleanRow>)
    ensures |r| <= |rows|
  {
    FilterMap(rows, Cleaner(toNumeric))
  }

  function HasId(id: string): CleanRow -> bool {
    (r: CleanRow) => r.id == id
  }

  /** The amount of the first cleaned row indexed under `id` (`.loc[[id]].iloc[0]`), if any. */
  function Lookup(batch: seq<CleanRow>, id: string): Option<Amount> {
    match First(batch, HasId(id))
    case None => None
    case Some(r) => Some(r.amount)
  }

  /** A raw row that survives clean-up and is indexed under `id`. */
  predicate Usable(row: BankRow, id: string, toNumeric: string -> Option<Amount>) {
    NormaliseId(row.id) == id && BankAmount(row.amount, toNumeric).Some?
  }

  // ---- Normalisation of ids ----

  predicate IsSpaceOrQuote(c: char) {
    IsSpace(c) || IsQuote(c)
  }

  /**
   * A numeric id survives any surrounding whitespace and quotes, and an export suffix
   * such as ".0" after it is cut: `NormaliseId(" '123456789012.0' ") == "123456789012"`.
   */
  lemma NormaliseNumericId(ws1: string, q1: string, digits: string, suffix: string, q2: string, ws2: string)
    requires All(ws1, IsSpace) && All(ws2, IsSpace) && All(q1, IsQuote) && All(q2, IsQuote)
    requires IsDigits(digits)
    requires suffix == [] || (suffix[0] == '.' && All(suffix[1..], IsDigit))
    ensures NormaliseId(ws1 + q1 + digits + suffix + q2 + ws2) == digits
  {
    var core := digits + suffix;
    assert ws1 + q1 + digits + suffix + q2 + ws2 == ws1 + q1 + core + q2 + ws2;
    var last := core[|core| - 1];
    assert last == '.' || IsDigit(last) by {
      if suffix != [] {
        assert last == suffix[|suffix| - 1];
        if |suffix| > 1 { assert suffix[|suffix| - 1] == suffix[1..][|suffix| - 2]; }
      }
    }
    TidyPadded(ws1, q1, core, q2, ws2);
    DropExportSuffixDigits(digits, suffix);
  }

  /** Whitespace outside, quotes inside: `Tidy` removes both layers around a core that starts and ends with neither. */
  lemma TidyPadded(ws1: string, q1: string, core: string, q2: string, ws2: string)
    requires All(ws1, IsSpace) && All(ws2, IsSpace) && All(q1, IsQuote) && All(q2, IsQuote)
    requires core != [] && !IsSpaceOrQuote(core[0]) && !IsSpaceOrQuote(core[|core| - 1])
    ensures Tidy(ws1 + q1 + core + q2 + ws2) == core
  {
    var inner := q1 + core + q2;
    assert ws1 + q1 + core + q2 + ws2 == ws1 + inner + ws2;
    assert inner[0] == if q1 == [] then core[0] else q1[0];
    assert inner[|inner| - 1] == if q2 == [] then core[|core| - 1] else q2[|q2| - 1];
    StripPadded(ws1, inner, ws2, IsSpace);
    StripPadded(q1, core, q2, IsQuote);
  }

  lemma TidyUnpadded(core: string)
    requires core != [] && !IsSpaceOrQuote(core[0]) && !IsSpaceOrQuote(core[|core| - 1])
    ensures Tidy(core) == core
  {
    StripUnpadded(core, IsSpace);
    StripUnpadded(core, IsQuote);
  }

  /** A bare numeric id, with or without an export suffix, normalises to its digits. */
  lemma NormaliseBareId(digits: string, suffix: string)
    requires IsDigits(digits)
    requires suffix == [] || (suffix[0] == '.' && All(suffix[1..], IsDigit))
    ensures NormaliseId(digits + suffix) == digits
  {
    var core := digits + suffix;
    var last := core[|core| - 1];
    assert last == '.' || IsDigit(last) by {
      if suffix != [] {
        assert last == suffix[|suffix| - 1];
        if |suffix| > 1 { assert suffix[|suffix| - 1] == suffix[1..][|suffix| - 2]; }
      }
    }
    TidyUnpadded(core);
    DropExportSuffixDigits(digits, suffix);
  }

  lemma DropExportSuffixDigits(digits: string, suffix: string)
    requires IsDigits(digits)
    requires suffix == [] || (suffix[0] == '.' && All(suffix[1..], IsDigit))
    ensures DropExportSuffix(digits + suffix) == digits
  {
    NoDotInDigits(digits);
    if suffix == [] {
      assert digits + suffix == digits;
    } else {
      var fraction := suffix[1..];
      assert digits + suffix == digits + ['.'] + fraction;
      IndexOfAfter(digits, '.', fraction);
      assert (digits + ['.'] + fraction)[..|digits|] == digits;
      RemoveDotsDigits(digits, fraction);
    }
  }

  lemma RemoveDotsDigits(digits: string, fraction: string)
    requires IsDigits(digits) && All(fraction, IsDigit)
    ensures IsDigits(Remove(digits + ['.'] + fraction, '.'))
  {
    NoDotInDigits(digits);
    NoDotInDigits(fraction);
    RemoveOne(digits, fraction, '.');
    forall k | 0 <= k < |digits + fraction| ensures IsDigit((digits + fraction)[k]) {
      if k >= |digits| { assert (digits + fraction)[k] == fraction[k - |digits|]; }
    }
  }

  lemma NoDotInDigits(s: string)
    requires All(s, IsDigit)
    ensures '.' !in s
  {
    assert forall k :: 0 <= k < |s| ==> IsDigit(s[k]);
  }

  /**
   * Normalisation either leaves the tidied cell as it is, or cuts it to a dot-free prefix made of
   * digits only; an id holding any character other than a digit or a dot is never cut.
   */
  lemma NormaliseIdShape(cell: string)
    ensures var t := Tidy(cell);
            var r := NormaliseId(cell);
            r == t || (r < t && '.' !in r && All(r, IsDigit))
    ensures (exists k :: 0 <= k < |Tidy(cell)| && !IsDigit(Tidy(cell)[k]) && Tidy(cell)[k] != '.') ==> NormaliseId(cell) == Tidy(cell)
  {
    var t := Tidy(cell);
    if '.' in t && IsDigits(Remove(t, '.')) {
      DigitsOrDots(t);
      var r := Before(t, '.');
      forall k | 0 <= k < |r| ensures IsDigit(r[k]) {
        assert r[k] == t[k];
      }
    }
  }

  /** Every character of a text whose dot-free part is all digits is a digit or a dot. */
  lemma {:induction false} DigitsOrDots(t: string)
    requires All(Remove(t, '.'), IsDigit)
    ensures forall k :: 0 <= k < |t| ==> IsDigit(t[k]) || t[k] == '.'
  {
    if t != [] {
      assert t == [t[0]] + t[1..];
      RemoveAppend([t[0]], t[1..], '.');
      if t[0] != '.' {
        assert Remove([t[0]], '.') == [t[0]];
        assert Remove(t, '.')[0] == t[0];
      }
      assert Remove(t[1..], '.') == Remove(t, '.')[|Remove([t[0]], '.')|..];
      DigitsOrDots(t[1..]);
      forall k | 1 <= k < |t| ensures IsDigit(t[k]) || t[k] == '.' {
        assert t[k] == t[1..][k - 1];
      }
    }
  }

  // ---- Clean-up of rows ----

  /**
   * A row whose amount cannot be read is dropped before matching: inserting it anywhere in a
   * statement leaves the cleaned statement, and so every approval and rejection, unchanged.
   */
  lemma UnreadableRowIgnored(before: seq<BankRow>, row: BankRow, after: seq<BankRow>, toNumeric: string -> Option<Amount>)
    requires BankAmount(row.amount, toNumeric).None?
    ensures Clean(before + [row] + after, toNumeric) == Clean(before + after, toNumeric)
  {
    assert Cleaner(toNumeric)(row).None?;
    FilterMapSkip(before, row, after, Cleaner(toNumeric));
  }

  /** A raw row is usable under `id` exactly when clean-up keeps it with that id. */
  lemma UsableIsKept(row: BankRow, id: string, toNumeric: string -> Option<Amount>)
    ensures Usable(row, id, toNumeric) == (Cleaner(toNumeric)(row).Some? && HasId(id)(Cleaner(toNumeric)(row).value))
  {
  }

  /** Looking an id up in the cleaned statement finds nothing exactly when no raw row is usable under it. */
  lemma LookupMisses(rows: seq<BankRow>, id: string, toNumeric: string -> Option<Amount>)
    ensures Lookup(Clean(rows, toNumeric), id).None? <==> forall j :: 0 <= j < |rows| ==> !Usable(rows[j], id, toNumeric)
  {
    FirstOfFilterMap(rows, Cleaner(toNumeric), HasId(id));
    forall j | 0 <= j < |rows| {
      UsableIsKept(rows[j], id, toNumeric);
    }
  }

  /**
   * Looking an id up in the cleaned statement finds the amount of the FIRST raw row that is
   * indexed under that id and has a readable amount.
   */
  lemma LookupFindsFirstUsable(rows: seq<BankRow>, id: string, toNumeric: string -> Option<Amount>, j: nat)
    requires j < |rows| && Usable(rows[j], id, toNumeric)
    requires forall i :: 0 <= i < j ==> !Usable(rows[i], id, toNumeric)
    ensures Lookup(Clean(rows, toNumeric), id) == BankAmount(rows[j].amount, toNumeric)
  {
    var f := Cleaner(toNumeric);
    var p := HasId(id);
    FirstOfFilterMap(rows, f, p);
    forall i | 0 <= i <= j {
      UsableIsKept(rows[i], id, toNumeric);
    }
    assert First(FilterMap(rows, f), p) == f(rows[j]);
  }
}
