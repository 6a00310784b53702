/** Upload checks and the expense-number format. The file itself is read
    only for its size, which arrives as a parameter; the date and the random
    part of an expense number arrive as parameters too. */
module FileHandler {

  import opened Wrappers
  import opened Strings
  import opened Settings

  /** `filename.split(".")[-1].lower()`: the text after the last dot, or the
      whole name when it has no dot, lower-cased. */
  function Extension(filename: string): (ext: string)
    ensures '.' !in ext
    ensures |ext| <= |filename|
    ensures '.' !in filename ==> ext == Lower(filename)
  {
    var last := LastPiece(filename, '.');
    assert forall i :: 0 <= i < |last| ==> Lower(last)[i] != '.';
    Lower(last)
  }

  /** The extension of `stem.e` is `e` lower-cased, whatever dots the stem holds. */
  lemma ExtensionOfDotted(stem: string, e: string)
    requires '.' !in e
    ensures Extension(stem + "." + e) == Lower(e)
  {
    var s := stem + "." + e;
    var last := LastPiece(s, '.');
    assert s[|s| - |e| - 1] == '.';
    assert last == s[|s| - |e|..] == e;
  }

  datatype FileError = ExtensionNotAllowed(ext: string) | TooLarge | Empty

  datatype FileVerdict = FileVerdict(isValid: bool, error: Option<FileError>)

  /** `validate_file` against a given allow-list and size limit: the
      extension first, then the upper bound, then emptiness. */
  function ValidateFileWith(allowed: seq<string>, maxSize: nat, filename: string, size: nat): (v: FileVerdict)
    ensures v.isValid <==> v.error.None?
    ensures v.isValid <==> Extension(filename) in allowed && 0 < size <= maxSize
    ensures Extension(filename) !in allowed ==> v.error == Some(ExtensionNotAllowed(Extension(filename)))
    ensures Extension(filename) in allowed && size > maxSize ==> v.error == Some(TooLarge)
    ensures Extension(filename) in allowed && size == 0 ==> v.error == Some(Empty)
  {
    var ext := Extension(filename);
    if ext !in allowed then FileVerdict(false, Some(ExtensionNotAllowed(ext)))
    else if size > maxSize then FileVerdict(false, Some(TooLarge))
    else if size == 0 then FileVerdict(false, Some(Empty))
    else FileVerdict(true, None)
  }

  /** `validate_file` with the application's settings: the parsed
      extension setting (see `AllowedExtensionsParsed`) and the size limit. */
  function ValidateFile(filename: string, size: nat): (v: FileVerdict)
    ensures v.isValid <==> Extension(filename) in AllowedExtensionNames && 0 < size <= MaxFileSize
    ensures v.isValid <==> v.error.None?
  {
    ValidateFileWith(AllowedExtensionNames, MaxFileSize, filename, size)
  }

  /** The extension is matched case-insensitively: renaming `.PDF` to
      `.pdf` changes no verdict. */
  lemma ExtensionCaseInsensitive(allowed: seq<string>, maxSize: nat, stem: string, e: string, size: nat)
    requires '.' !in e
    ensures ValidateFileWith(allowed, maxSize, stem + "." + Upper(e), size) == ValidateFileWith(allowed, maxSize, stem + "." + Lower(e), size)
  {
    SameExtension(stem, e);
  }

  lemma SameExtension(stem: string, e: string)
    requires '.' !in e
    ensures Extension(stem + "." + Upper(e)) == Extension(stem + "." + Lower(e))
  {
    var up := Upper(e);
    var low := Lower(e);
    assert forall i :: 0 <= i < |e| ==> up[i] != '.' && low[i] != '.';
    ExtensionOfDotted(stem, up);
    ExtensionOfDotted(stem, low);
    LowerOfUpper(e);
    LowerIdempotent(e);
  }

  predicate IsLowerHex(c: char)
  {
    '0' <= c <= '9' || 'a' <= c <= 'f'
  }

  predicate IsUpperHex(c: char)
  {
    '0' <= c <= '9' || 'A' <= c <= 'F'
  }

  lemma UpperOfLowerHex(c: char)
    requires IsLowerHex(c)
    ensures IsUpperHex(UpperChar(c))
  {
  }

  /** `strftime("%Y%m%d")` for a date of years 1 to 9999. */
  function DateStamp(year: nat, month: nat, day: nat): (stamp: string)
    requires 1 <= year <= 9999 && 1 <= month <= 12 && 1 <= day <= 31
    ensures |stamp| == 8 && AllDigits(stamp)
    ensures DecimalValue(stamp[..4]) == year && DecimalValue(stamp[4..6]) == month && DecimalValue(stamp[6..]) == day
  {
    DecimalLength(year, 4, Pow10(4));
    DecimalLength(month, 2, Pow10(2));
    DecimalLength(day, 2, Pow10(2));
    ZeroPaddedValue(year, 4);
    ZeroPaddedValue(month, 2);
    ZeroPaddedValue(day, 2);
    var y := ZeroPadded(year, 4);
    var m := ZeroPadded(month, 2);
    var d := ZeroPadded(day, 2);
    var stamp := y + m + d;
    assert stamp[..4] == y && stamp[4..6] == m && stamp[6..] == d;
    stamp
  }

  /** `generate_expense_number`: "EXP-", the date as YYYYMMDD, "-", and the
      first six characters of the hex form of a random UUID, upper-cased.
      `uuidHex` is `uuid4().hex`: 32 lower-case hex digits. The date can be
      read back out of the number. */
  function GenerateExpenseNumber(year: nat, month: nat, day: nat, uuidHex: string): (n: string)
    requires 1 <= year <= 9999 && 1 <= month <= 12 && 1 <= day <= 31
    requires |uuidHex| == 32 && forall i :: 0 <= i < |uuidHex| ==> IsLowerHex(uuidHex[i])
    ensures |n| == 19
    ensures n[..4] == "EXP-" && n[12] == '-'
    ensures AllDigits(n[4..12])
    ensures AllDigits(n[4..8]) && AllDigits(n[8..10]) && AllDigits(n[10..12])
    ensures DecimalValue(n[4..8]) == year && DecimalValue(n[8..10]) == month && DecimalValue(n[10..12]) == day
    ensures forall i :: 13 <= i < 19 ==> IsUpperHex(n[i])
  {
    var stamp := DateStamp(year, month, day);
    var unique := Upper(uuidHex[..6]);
    forall i | 0 <= i < 6
      ensures IsUpperHex(unique[i])
    {
      UpperOfLowerHex(uuidHex[i]);
    }
    NumberLayout(stamp, unique);
    "EXP-" + stamp + "-" + unique
  }

  /** Where the date stamp and the unique part sit in an expense number. */
  lemma NumberLayout(stamp: string, unique: string)
    requires |stamp| == 8 && |unique| == 6
    ensures var n := "EXP-" + stamp + "-" + unique;
            |n| == 19 && n[..4] == "EXP-" && n[12] == '-' &&
            n[4..12] == stamp && n[4..8] == stamp[..4] && n[8..10] == stamp[4..6] && n[10..12] == stamp[6..] &&
            forall i :: 13 <= i < 19 ==> n[i] == unique[i - 13]
  {
  }
}
