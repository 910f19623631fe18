/**
 * `DniPeruBot._parsear`: reads the name fields out of the text the lookup page returns, one
 * `Label: value` line at a time, and builds the person record.
 */
module DniPeru {
  import opened Text

  /** `PersonaDNI`. */
  datatype PersonaDni = PersonaDni(
    dni: string, nombres: string, apellidoPaterno: string, apellidoMaterno: string,
    nombreCompleto: string, estado: string)

  datatype Campo = Nombres | Paterno | Materno

  /** The label that introduces each field, colon included. */
  function Label(f: Campo): string
  {
    match f
    case Nombres => "Nombres:"
    case Paterno => "Apellido Paterno:"
    case Materno => "Apellido Materno:"
  }

  /** The three values read so far. */
  datatype Campos = Campos(nombres: string, paterno: string, materno: string)

  function Get(c: Campos, f: Campo): string
  {
    match f
    case Nombres => c.nombres
    case Paterno => c.paterno
    case Materno => c.materno
  }

  /** `linea.split(":", 1)[1].strip()`: the text after the first colon, stripped. */
  function Value(linea: string): string
  {
    var parts := SplitFirst(linea, ':');
    if |parts| == 2 then Strip(parts[1]) else ""
  }

  /** The `if`/`elif` chain on one line. */
  function Read(c: Campos, linea: string): Campos
  {
    if StartsWith(linea, Label(Nombres)) then c.(nombres := Value(linea))
    else if StartsWith(linea, Label(Paterno)) then c.(paterno := Value(linea))
    else if StartsWith(linea, Label(Materno)) then c.(materno := Value(linea))
    else c
  }

  /** The values after reading every line, first to last, starting from three empty strings. */
  function Scan(lineas: seq<string>): Campos
  {
    if lineas == [] then Campos("", "", "") else Read(Scan(lineas[..|lineas| - 1]), lineas[|lineas| - 1])
  }

  /** The record `_parsear` returns for the lines it has read. */
  function Persona(dni: string, c: Campos): PersonaDni
  {
    PersonaDni(dni, c.nombres, c.paterno, c.materno,
               Strip(c.paterno + " " + c.materno + ", " + c.nombres),
               if c.nombres != "" then "OK" else "NO")
  }

  /** No line starts with two of the labels, so the order of the `elif` chain does not matter. */
  lemma LabelsExclusive(linea: string, f: Campo, g: Campo)
    requires StartsWith(linea, Label(f)) && StartsWith(linea, Label(g))
    ensures f == g
  {
    assert linea[0] == Label(f)[0] && linea[0] == Label(g)[0];
    if f != Nombres && g != Nombres {
      assert linea[9] == Label(f)[9] && linea[9] == Label(g)[9];
    }
  }

  /** A line changes exactly the field whose label it starts with, to its value. */
  lemma ReadField(c: Campos, linea: string, f: Campo)
    ensures Get(Read(c, linea), f) == if StartsWith(linea, Label(f)) then Value(linea) else Get(c, f)
  {
    if f != Nombres && StartsWith(linea, Label(f)) {
      if StartsWith(linea, Label(Nombres)) {
        LabelsExclusive(linea, f, Nombres);
      }
      if f == Materno && StartsWith(linea, Label(Paterno)) {
        LabelsExclusive(linea, f, Paterno);
      }
    }
  }

  /** A line with none of the labels leaves every field as it was. */
  lemma OtherLinesIgnored(lineas: seq<string>, linea: string)
    requires forall f :: !StartsWith(linea, Label(f))
    ensures Scan(lineas + [linea]) == Scan(lineas)
  {
    assert (lineas + [linea])[..|lineas|] == lineas;
    assert !StartsWith(linea, Label(Nombres)) && !StartsWith(linea, Label(Paterno)) && !StartsWith(linea, Label(Materno));
  }

  /**
   * A field holds the value of the last line that starts with its label, so later lines
   * override earlier ones.
   */
  lemma {:induction false} LastLineWins(lineas: seq<string>, f: Campo, k: nat)
    requires k < |lineas| && StartsWith(lineas[k], Label(f))
    requires forall m :: k < m < |lineas| ==> !StartsWith(lineas[m], Label(f))
    ensures Get(Scan(lineas), f) == Value(lineas[k])
    decreases |lineas|
  {
    var init := lineas[..|lineas| - 1];
    var last := lineas[|lineas| - 1];
    ReadField(Scan(init), last, f);
    if k < |lineas| - 1 {
      LastLineWins(init, f, k);
    }
  }

  /** Without a line for it, a field stays empty. */
  lemma {:induction false} MissingFieldEmpty(lineas: seq<string>, f: Campo)
    requires forall m :: 0 <= m < |lineas| ==> !StartsWith(lineas[m], Label(f))
    ensures Get(Scan(lineas), f) == ""
    decreases |lineas|
  {
    if lineas != [] {
      var init := lineas[..|lineas| - 1];
      ReadField(Scan(init), lineas[|lineas| - 1], f);
      MissingFieldEmpty(init, f);
    }
  }

  /** `_parsear(dni, texto)`. */
  method Parsear(dni: string, texto: string) returns (p: PersonaDni)
    ensures p == Persona(dni, Scan(SplitOn(texto, '\n')))
    ensures p.dni == dni
    ensures p.estado == "OK" <==> p.nombres != ""
    ensures p.estado == "NO" <==> p.nombres == ""
  {
    var nombres, apP, apM := "", "", "";
    var lineas := SplitOn(texto, '\n');
    var i := 0;
    while i < |lineas|
      invariant 0 <= i <= |lineas|
      invariant Campos(nombres, apP, apM) == Scan(lineas[..i])
    {
      var linea := lineas[i];
      assert lineas[..i + 1][..i] == lineas[..i];
      if StartsWith(linea, "Nombres:") {
        nombres := Value(linea);
      } else if StartsWith(linea, "Apellido Paterno:") {
        apP := Value(linea);
      } else if StartsWith(linea, "Apellido Materno:") {
        apM := Value(linea);
      }
      i := i + 1;
    }
    assert lineas[..i] == lineas;
    p := PersonaDni(dni, nombres, apP, apM, Strip(apP + " " + apM + ", " + nombres), if nombres != "" then "OK" else "NO");
  }

  /** A value with no whitespace at either end. */
  predicate Trimmed(s: string)
  {
    s != [] ==> !IsSpace(s[0]) && !IsSpace(s[|s| - 1])
  }

  /** Every field read is a stripped value. */
  lemma {:induction false} ScanTrimmed(lineas: seq<string>, f: Campo)
    ensures Trimmed(Get(Scan(lineas), f))
    decreases |lineas|
  {
    if lineas != [] {
      var init := lineas[..|lineas| - 1];
      ReadField(Scan(init), lineas[|lineas| - 1], f);
      ScanTrimmed(init, f);
    }
  }

  /**
   * With the last names and the given names present, the full name is
   * "Paterno Materno, Nombres" exactly: its ends are already free of whitespace.
   */
  lemma FullName(dni: string, lineas: seq<string>)
    requires Scan(lineas).paterno != [] && Scan(lineas).nombres != []
    ensures var c := Scan(lineas);
      Persona(dni, c).nombreCompleto == c.paterno + " " + c.materno + ", " + c.nombres
  {
    var c := Scan(lineas);
    ScanTrimmed(lineas, Paterno);
    ScanTrimmed(lineas, Nombres);
    JoinedNameStripped(c.paterno, c.materno, c.nombres);
  }

  /** "P M, N" with stripped, non-empty `P` and `N` has no whitespace at its ends. */
  lemma JoinedNameStripped(p: string, m: string, n: string)
    requires p != [] && n != [] && Trimmed(p) && Trimmed(n)
    ensures Strip(p + " " + m + ", " + n) == p + " " + m + ", " + n
  {
    var t := p + " " + m + ", " + n;
    assert t[0] == p[0];
    assert t[|t| - 1] == n[|n| - 1];
    StripOfStripped(t);
  }
}
