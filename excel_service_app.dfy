/**
 * `ExcelService.parse_uploaded_file` of the single-database backend: entries of seven or more
 * digits are kept, zero-padded to eight, in input order and with duplicates. A spreadsheet cell
 * loses its decimal tail first; a text line is only stripped.
 */
module ExcelServiceApp {
  import opened Wrappers
  import opened Text
  import ExcelService

  /** The acceptance test both paths share: `isdigit()` and at least seven characters. */
  predicate Accepted(clean: string)
  {
    PyIsDigit(clean) && |clean| >= 7
  }

  /** A spreadsheet cell: the text before the first '.', stripped. */
  function CleanCell(d: string): string
  {
    Strip(BeforeFirst(d, '.'))
  }

  /** The padded, accepted entries of a list of cleaned texts, in order. */
  function PaddedAccepted(cleaned: seq<string>): (r: seq<string>)
    ensures |r| <= |cleaned|
  {
    if cleaned == [] then []
    else
      var init := PaddedAccepted(cleaned[..|cleaned| - 1]);
      var c := cleaned[|cleaned| - 1];
      if Accepted(c) then init + [ZFill(c, 8)] else init
  }

  function CellsCleaned(raw: seq<string>): (r: seq<string>)
    ensures |r| == |raw|
  {
    seq(|raw|, k requires 0 <= k < |raw| => CleanCell(raw[k]))
  }

  function LinesCleaned(lines: seq<string>): (r: seq<string>)
    ensures |r| == |lines|
  {
    StripEach(lines)
  }

  lemma PaddedPrefix(cleaned: seq<string>, i: nat)
    requires i < |cleaned|
    ensures PaddedAccepted(cleaned[..i + 1]) ==
      if Accepted(cleaned[i]) then PaddedAccepted(cleaned[..i]) + [ZFill(cleaned[i], 8)] else PaddedAccepted(cleaned[..i])
  {
    assert cleaned[..i + 1][..i] == cleaned[..i];
  }

  /** One of the two append loops; `cleaned` holds the entries after the path's own cleaning. */
  method PadLoop(cleaned: seq<string>) returns (dnis: seq<string>)
    ensures dnis == PaddedAccepted(cleaned)
  {
    dnis := [];
    var i := 0;
    while i < |cleaned|
      invariant 0 <= i <= |cleaned|
      invariant dnis == PaddedAccepted(cleaned[..i])
    {
      PaddedPrefix(cleaned, i);
      var c := cleaned[i];
      if PyIsDigit(c) && |c| >= 7 {
        dnis := dnis + [ZFill(c, 8)];
      }
      i := i + 1;
    }
    assert cleaned[..i] == cleaned;
  }

  /** The entries to parse, by file name, as in the session-based service; other names give none. */
  function Entries(filename: string, sheet: Result<ExcelService.Sheet, string>, lines: Result<seq<string>, string>): Result<seq<string>, string>
  {
    if EndsWith(filename, ".xlsx") || EndsWith(filename, ".xls") then
      match sheet
      case Failure(e) => Failure(e)
      case Success(sh) =>
        (match ExcelService.SheetEntries(sh)
         case Failure(e) => Failure(e)
         case Success(es) => Success(CellsCleaned(es)))
    else if EndsWith(filename, ".txt") || EndsWith(filename, ".csv") then
      match lines
      case Failure(e) => Failure(e)
      case Success(ls) => Success(LinesCleaned(ls))
    else Success([])
  }

  /** `parse_uploaded_file`: any failure is re-raised as "Error parseando archivo: ...". */
  method ParseUploadedFile(filename: string, sheet: Result<ExcelService.Sheet, string>, lines: Result<seq<string>, string>)
    returns (r: Result<seq<string>, string>)
    ensures Entries(filename, sheet, lines).Failure? ==> r == Failure("Error parseando archivo: " + Entries(filename, sheet, lines).error)
    ensures Entries(filename, sheet, lines).Success? ==> r == Success(PaddedAccepted(Entries(filename, sheet, lines).value))
  {
    var es := Entries(filename, sheet, lines);
    if es.Failure? {
      return Failure("Error parseando archivo: " + es.error);
    }
    var dnis := PadLoop(es.value);
    r := Success(dnis);
  }

  /**
   * Every output is all digits and at least eight long; a seven-digit entry gains exactly one
   * leading zero and a longer one is kept as it is.
   */
  lemma {:induction false} OutputsAreDnis(cleaned: seq<string>)
    ensures forall k :: 0 <= k < |PaddedAccepted(cleaned)| ==>
      AllDigits(PaddedAccepted(cleaned)[k]) && |PaddedAccepted(cleaned)[k]| >= 8
  {
    if cleaned != [] {
      OutputsAreDnis(cleaned[..|cleaned| - 1]);
      var c := cleaned[|cleaned| - 1];
      if Accepted(c) {
        ZFillDigits(c, 8);
      }
    }
  }

  lemma PadShape(c: string)
    requires Accepted(c)
    ensures |c| == 7 ==> ZFill(c, 8) == "0" + c
    ensures |c| >= 8 ==> ZFill(c, 8) == c
  {
    ZFillDigits(c, 8);
  }

  /** The outputs keep input order and duplicates: one output per accepted entry. */
  lemma {:induction false} OneOutputPerAccepted(cleaned: seq<string>)
    requires forall k :: 0 <= k < |cleaned| ==> Accepted(cleaned[k])
    ensures PaddedAccepted(cleaned) == seq(|cleaned|, k requires 0 <= k < |cleaned| => ZFill(cleaned[k], 8))
  {
    if cleaned != [] {
      OneOutputPerAccepted(cleaned[..|cleaned| - 1]);
    }
  }

  /** A decimal tail is dropped on the spreadsheet path: "12345678.0" is accepted from a cell. */
  lemma CellAcceptsDecimal(d: string, tail: string)
    requires ExcelService.IsDni(d)
    ensures CleanCell(d + "." + tail) == d
    ensures Accepted(d)
  {
    assert Accepted(d);
    ExcelService.BeforeFirstDot(d, tail);
    DigitsAreStripped(d);
  }

  /** The text path only strips, so the same "12345678.0" is rejected from a line. */
  lemma LineRejectsDecimal(d: string, tail: string)
    requires ExcelService.IsDni(d) && AllDigits(tail)
    ensures !Accepted(Strip(d + "." + tail))
  {
    var s := d + "." + tail;
    assert IsDigit(s[0]) by { assert s[0] == d[0]; }
    if tail != [] {
      assert s[|s| - 1] == tail[|tail| - 1];
    }
    StripOfStripped(s);
    assert s[8] == '.';
  }
}
