/**
 * `ExcelService.parse_uploaded_file` of the session-based backend: the raw entries of an
 * uploaded file are cleaned and split into distinct valid DNIs (exactly eight digits) and the
 * invalid entries, in input order.
 */
module ExcelService {
  import opened Wrappers
  import opened Text
  import opened Seqs

  /** A spreadsheet with every cell already converted to text (a missing cell reads "nan"). */
  datatype Sheet = Sheet(columns: seq<(string, seq<string>)>)

  /** The text of an IndexError on the first column of an empty header. */
  const NoColumnError: string := "index 0 is out of bounds for axis 0 with size 0"

  /** The column read: the one named exactly `DNI` if present, else the first. */
  function SheetEntries(sh: Sheet): (r: Result<seq<string>, string>)
    ensures sh.columns == [] <==> r.Failure?
    ensures r.Success? ==> exists k :: 0 <= k < |sh.columns| && r.value == sh.columns[k].1
  {
    if sh.columns == [] then Failure(NoColumnError)
    else Success(sh.columns[DniColumnIndex(sh.columns)].1)
  }

  function DniColumnIndex(cols: seq<(string, seq<string>)>): (k: nat)
    requires cols != []
    ensures k < |cols|
    ensures (exists j :: 0 <= j < |cols| && cols[j].0 == "DNI") ==> cols[k].0 == "DNI"
    ensures (forall j :: 0 <= j < |cols| ==> cols[j].0 != "DNI") ==> k == 0
  {
    if cols[0].0 == "DNI" then 0
    else if |cols| == 1 then 0
    else
      var k := DniColumnIndex(cols[1..]);
      if cols[1..][k].0 == "DNI" then k + 1 else 0
  }

  /**
   * The raw entries by file name: a spreadsheet's chosen column, a text file's lines, nothing
   * for any other name. A failure while reading becomes "Error parseando archivo: ...".
   */
  function RawEntries(filename: string, sheet: Result<Sheet, string>, lines: Result<seq<string>, string>): (r: Result<seq<string>, string>)
    ensures r.Failure? ==> StartsWith(r.error, "Error parseando archivo: ")
    ensures !(EndsWith(filename, ".xlsx") || EndsWith(filename, ".xls") || EndsWith(filename, ".txt") || EndsWith(filename, ".csv"))
      ==> r == Success([])
  {
    if EndsWith(filename, ".xlsx") || EndsWith(filename, ".xls") then
      match sheet
      case Failure(e) => Failure("Error parseando archivo: " + e)
      case Success(sh) =>
        match SheetEntries(sh)
        case Failure(e) => Failure("Error parseando archivo: " + e)
        case Success(es) => Success(es)
    else if EndsWith(filename, ".txt") || EndsWith(filename, ".csv") then
      match lines
      case Failure(e) => Failure("Error parseando archivo: " + e)
      case Success(ls) => Success(ls)
    else Success([])
  }

  /** Strip, keep the text before the first '.', strip again: "12345678.0" becomes "12345678". */
  function Clean(raw: string): string
  {
    Strip(BeforeFirst(Strip(raw), '.'))
  }

  /** An empty cleaned entry or any casing of "nan" is skipped. */
  predicate Skipped(clean: string)
  {
    clean == "" || Lower(clean) == "nan"
  }

  /** `re.fullmatch(r'\d{8}', clean)`. */
  predicate IsDni(clean: string)
  {
    |clean| == 8 && AllDigits(clean)
  }

  /** The cleaned entries that are not skipped, in input order. */
  function Kept(raw: seq<string>): (r: seq<string>)
    ensures |r| <= |raw|
    ensures forall k :: 0 <= k < |r| ==> !Skipped(r[k])
  {
    if raw == [] then []
    else
      var c := Clean(raw[|raw| - 1]);
      if Skipped(c) then Kept(raw[..|raw| - 1]) else Kept(raw[..|raw| - 1]) + [c]
  }

  function DniEntries(kept: seq<string>): (r: seq<string>)
    ensures forall k :: 0 <= k < |r| ==> IsDni(r[k])
    ensures forall x :: x in r <==> x in kept && IsDni(x)
  {
    if kept == [] then []
    else
      var init := DniEntries(kept[..|kept| - 1]);
      var c := kept[|kept| - 1];
      assert kept == kept[..|kept| - 1] + [c];
      if IsDni(c) then init + [c] else init
  }

  function NonDniEntries(kept: seq<string>): (r: seq<string>)
    ensures forall k :: 0 <= k < |r| ==> !IsDni(r[k])
    ensures forall x :: x in r <==> x in kept && !IsDni(x)
  {
    if kept == [] then []
    else
      var init := NonDniEntries(kept[..|kept| - 1]);
      var c := kept[|kept| - 1];
      assert kept == kept[..|kept| - 1] + [c];
      if IsDni(c) then init else init + [c]
  }

  /** The `valid` list: each eight-digit entry once, in order of first occurrence. */
  function Valid(raw: seq<string>): seq<string>
  {
    Dedup(DniEntries(Kept(raw)))
  }

  /** The `invalid` list: every other kept entry, duplicates included. */
  function Invalid(raw: seq<string>): seq<string>
  {
    NonDniEntries(Kept(raw))
  }

  lemma KeptPrefix(raw: seq<string>, i: nat)
    requires i < |raw|
    ensures Kept(raw[..i + 1]) == if Skipped(Clean(raw[i])) then Kept(raw[..i]) else Kept(raw[..i]) + [Clean(raw[i])]
  {
    assert raw[..i + 1][..i] == raw[..i];
  }

  lemma DniEntriesSnoc(kept: seq<string>, c: string)
    ensures DniEntries(kept + [c]) == if IsDni(c) then DniEntries(kept) + [c] else DniEntries(kept)
    ensures NonDniEntries(kept + [c]) == if IsDni(c) then NonDniEntries(kept) else NonDniEntries(kept) + [c]
  {
    assert (kept + [c])[..|kept|] == kept;
  }

  /** How one more raw entry extends the two lists. */
  lemma ClassifyStep(raw: seq<string>, i: nat)
    requires i < |raw|
    ensures var c := Clean(raw[i]);
      Valid(raw[..i + 1]) == if !Skipped(c) && IsDni(c) && c !in Valid(raw[..i]) then Valid(raw[..i]) + [c] else Valid(raw[..i])
    ensures var c := Clean(raw[i]);
      Invalid(raw[..i + 1]) == if !Skipped(c) && !IsDni(c) then Invalid(raw[..i]) + [c] else Invalid(raw[..i])
  {
    KeptPrefix(raw, i);
    var c := Clean(raw[i]);
    var kept := Kept(raw[..i]);
    if !Skipped(c) {
      DniEntriesSnoc(kept, c);
      if IsDni(c) {
        DedupSnoc(DniEntries(kept), c);
      }
    }
  }

  /** The classification loop of `parse_uploaded_file`, with its `seen` set. */
  method Classify(raw: seq<string>) returns (valid: seq<string>, invalid: seq<string>)
    ensures valid == Valid(raw) && invalid == Invalid(raw)
  {
    valid := [];
    invalid := [];
    var seen: set<string> := {};
    var i := 0;
    while i < |raw|
      invariant 0 <= i <= |raw|
      invariant valid == Valid(raw[..i]) && invalid == Invalid(raw[..i])
      invariant forall x :: x in seen <==> x in valid
    {
      ClassifyStep(raw, i);
      var clean := Strip(BeforeFirst(Strip(raw[i]), '.'));
      if !(clean == "" || Lower(clean) == "nan") {
        if |clean| == 8 && AllDigits(clean) {
          if clean !in seen {
            seen := seen + {clean};
            valid := valid + [clean];
          }
        } else {
          invalid := invalid + [clean];
        }
      }
      i := i + 1;
    }
    assert raw[..i] == raw;
  }

  /** The response body `{"valid": ..., "invalid": ...}`. */
  datatype Parsed = Parsed(valid: seq<string>, invalid: seq<string>)

  /** `parse_uploaded_file`. */
  method ParseUploadedFile(filename: string, sheet: Result<Sheet, string>, lines: Result<seq<string>, string>)
    returns (r: Result<Parsed, string>)
    ensures RawEntries(filename, sheet, lines).Failure? ==> r == Failure(RawEntries(filename, sheet, lines).error)
    ensures RawEntries(filename, sheet, lines).Success? ==>
      var raw := RawEntries(filename, sheet, lines).value;
      r == Success(Parsed(Valid(raw), Invalid(raw)))
  {
    var entries := RawEntries(filename, sheet, lines);
    if entries.Failure? {
      return Failure(entries.error);
    }
    var valid, invalid := Classify(entries.value);
    r := Success(Parsed(valid, invalid));
  }

  /**
   * Every kept entry lands in exactly one of the two lists: the valid list holds each
   * eight-digit entry once, the invalid list every other kept entry, and no text is in both.
   */
  lemma Partition(raw: seq<string>)
    ensures forall x :: x in Valid(raw) || x in Invalid(raw) <==> x in Kept(raw)
    ensures forall x :: !(x in Valid(raw) && x in Invalid(raw))
    ensures NoDup(Valid(raw))
    ensures forall k :: 0 <= k < |Valid(raw)| ==> IsDni(Valid(raw)[k])
    ensures forall k :: 0 <= k < |Invalid(raw)| ==> !Skipped(Invalid(raw)[k])
  {
    var d := DniEntries(Kept(raw));
    var inv := Invalid(raw);
    forall k | 0 <= k < |inv| ensures !Skipped(inv[k]) {
      assert inv[k] in Kept(raw);
    }
  }

  /** A spreadsheet number read back as text ("12345678.0") is cleaned to its integer part. */
  lemma DecimalTailDropped(d: string, tail: string)
    requires IsDni(d) && AllDigits(tail)
    ensures Clean(d + "." + tail) == d
  {
    var s := d + "." + tail;
    assert IsDigit(d[0]);
    if tail != [] {
      assert s[|s| - 1] == tail[|tail| - 1];
      assert IsDigit(tail[|tail| - 1]);
    }
    StripOfStripped(s);
    BeforeFirstDot(d, tail);
    DigitsAreStripped(d);
  }

  lemma BeforeFirstDot(d: string, tail: string)
    requires IsDni(d)
    ensures BeforeFirst(d + "." + tail, '.') == d
  {
    var s := d + "." + tail;
    var r := BeforeFirst(s, '.');
    assert s[8] == '.' && s[..8] == d;
    assert r == d;
  }

  /** An entry that cleans to an eight-digit DNI is the whole valid list of a one-entry file. */
  lemma SingleValid(raw: string)
    requires IsDni(Clean(raw))
    ensures Valid([raw]) == [Clean(raw)]
    ensures Invalid([raw]) == []
  {
    OneValid(raw);
    NoneInvalid(raw);
  }

  lemma OneValid(raw: string)
    requires IsDni(Clean(raw))
    ensures Valid([raw]) == [Clean(raw)]
  {
    KeptOneDni(raw);
    OneDniEntry(Clean(raw));
  }

  lemma NoneInvalid(raw: string)
    requires IsDni(Clean(raw))
    ensures Invalid([raw]) == []
  {
    KeptOneDni(raw);
    OneDniEntry(Clean(raw));
  }

  lemma KeptOneDni(raw: string)
    requires IsDni(Clean(raw))
    ensures Kept([raw]) == [Clean(raw)]
  {
    DniNotSkipped(Clean(raw));
    assert [raw][..1] == [raw] && [raw][..0] == [];
    KeptPrefix([raw], 0);
  }

  lemma DniNotSkipped(d: string)
    requires IsDni(d)
    ensures !Skipped(d)
  {
    assert |Lower(d)| == 8;
  }

  lemma OneDniEntry(d: string)
    requires IsDni(d)
    ensures Dedup(DniEntries([d])) == [d] && NonDniEntries([d]) == []
  {
    assert [d][..0] == [];
  }

  /** Any casing of "nan", the text pandas writes for a missing cell, is skipped. */
  lemma NanSkipped()
    ensures Skipped("nan") && Skipped("NaN") && Skipped("NAN")
  {
  }
}
