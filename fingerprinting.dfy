/** The run-wide choices `evalToTextFile` makes before the batch starts: which
    fingerprinter to use, which item separator to write, and the header line. */
module Fingerprinting {
  import opened Common
  import opened Options

  /** The fingerprinter implementations the worker can instantiate. */
  datatype Fingerprinter = Standard | Extended | GraphOnly | EState | MACCS | Substructure

  /** The option text that selects each fingerprinter. Substructure has no text of its
      own in the dispatch; any other text reaches it, its own name included. */
  function Label(k: Fingerprinter): string {
    match k
    case Standard => "Standard"
    case Extended => "Extended"
    case GraphOnly => "Graph only"
    case EState => "EState"
    case MACCS => "MACCS"
    case Substructure => "Substructure"
  }

  /** The labels the dispatch compares against. */
  predicate IsKnownLabel(s: string) {
    s == "Standard" || s == "Extended" || s == "Graph only" || s == "EState" || s == "MACCS"
  }

  /** The if/else chain over the selected fingerprint type; the final `else` makes
      every other string select Substructure. */
  function SelectFingerprinter(fptype: string): Fingerprinter {
    if fptype == "Standard" then Standard
    else if fptype == "Extended" then Extended
    else if fptype == "Graph only" then GraphOnly
    else if fptype == "EState" then EState
    else if fptype == "MACCS" then MACCS
    else Substructure
  }

  /** Substructure is chosen exactly when the text is none of the five labels. */
  lemma SelectDefault(fptype: string)
    ensures SelectFingerprinter(fptype) == Substructure <==> !IsKnownLabel(fptype)
  {
  }

  /** Each variant's label selects that variant. */
  lemma SelectLabel(k: Fingerprinter)
    ensures SelectFingerprinter(Label(k)) == k
  {
  }

  /** A variant other than Substructure is selected by its own label and by nothing
      else; Substructure is selected by exactly the strings that are no known label. */
  lemma SelectExactly(fptype: string, k: Fingerprinter)
    ensures k != Substructure ==> (SelectFingerprinter(fptype) == k <==> fptype == Label(k))
    ensures k == Substructure ==> (SelectFingerprinter(fptype) == k <==> !IsKnownLabel(fptype))
  {
  }

  /** Fully qualified name of each implementation, as printed in the header. */
  function ClassName(k: Fingerprinter): string {
    match k
    case Standard => "org.openscience.cdk.fingerprint.Fingerprinter"
    case Extended => "org.openscience.cdk.fingerprint.ExtendedFingerprinter"
    case GraphOnly => "org.openscience.cdk.fingerprint.GraphOnlyFingerprinter"
    case EState => "org.openscience.cdk.fingerprint.EStateFingerprinter"
    case MACCS => "org.openscience.cdk.fingerprint.MACCSFingerprinter"
    case Substructure => "org.openscience.cdk.fingerprint.SubstructureFingerprinter"
  }

  /** The item separator chosen from the output method: tab, comma, and a space for
      the space option and for every unrecognised value. */
  function Separator(outputFormat: string): string {
    if outputFormat == OUTPUT_TAB then "\t"
    else if outputFormat == OUTPUT_CSV then ","
    else if outputFormat == OUTPUT_SPC then " "
    else " "
  }

  /** Tab for the tab option, comma for the csv option, and a space for the space
      option and for every other value; each separator comes from exactly those. */
  lemma SeparatorChoice(outputFormat: string)
    ensures Separator(outputFormat) == "\t" <==> outputFormat == OUTPUT_TAB
    ensures Separator(outputFormat) == "," <==> outputFormat == OUTPUT_CSV
    ensures Separator(outputFormat) == " " <==> outputFormat != OUTPUT_TAB && outputFormat != OUTPUT_CSV
  {
  }

  /** A line handed to the report writer: the header, naming the fingerprinter and
      the bit length it reports, or the line of one fingerprinted molecule. */
  datatype ReportLine =
    | Header(printer: Fingerprinter, size: nat)
    | Data(title: string, sep: string, fingerprint: string)

  /** The text of a line, without the platform line separator. */
  function Text(line: ReportLine): string {
    match line
    case Header(k, size) => "CDKDescUI " + ClassName(k) + " " + NatToString(size) + " bits"
    case Data(title, sep, fingerprint) => title + sep + fingerprint
  }

  /** The header opens with the program's tag, names the fingerprinter's class after
      it, and ends with the bit length in decimal followed by " bits". */
  lemma HeaderShape(k: Fingerprinter, size: nat)
    ensures var h := Text(Header(k, size));
            var n := ClassName(k);
            var d := NatToString(size);
            && |h| == 16 + |n| + |d|
            && h[..10] == "CDKDescUI "
            && h[10..10 + |n|] == n
            && h[10 + |n|] == ' '
            && DecimalToNat(h[11 + |n|..|h| - 5]) == size
            && h[|h| - 5..] == " bits"
  {
    var n := ClassName(k);
    var d := NatToString(size);
    FiveParts("CDKDescUI ", n, " ", d, " bits");
    DecimalRoundTrip(size);
  }

  /** Where each part of a five-part concatenation sits. */
  lemma FiveParts(a: string, b: string, c: string, d: string, e: string)
    ensures var h := a + b + c + d + e;
            && |h| == |a| + |b| + |c| + |d| + |e|
            && h[..|a|] == a
            && h[|a|..|a| + |b|] == b
            && h[|a| + |b| + |c|..|h| - |e|] == d
            && h[|h| - |e|..] == e
  {
  }

  /** How many times `c` occurs in `s`. */
  function Occurrences(s: string, c: char): nat {
    if s == [] then 0 else Occurrences(s[..|s| - 1], c) + if s[|s| - 1] == c then 1 else 0
  }

  lemma {:induction false} OccurrencesConcat(a: string, b: string, c: char)
    ensures Occurrences(a + b, c) == Occurrences(a, c) + Occurrences(b, c)
  {
    if b != [] {
      assert (a + b)[..|a + b| - 1] == a + b[..|b| - 1];
      OccurrencesConcat(a, b[..|b| - 1], c);
    } else {
      assert a + b == a;
    }
  }

  lemma {:induction false} OccurrencesAbsent(s: string, c: char)
    requires forall i :: 0 <= i < |s| ==> s[i] != c
    ensures Occurrences(s, c) == 0
  {
    if s != [] {
      OccurrencesAbsent(s[..|s| - 1], c);
    }
  }

  /** A data line whose title and fingerprint text hold no separator character has
      exactly one separator, so its two fields can be told apart. */
  lemma OneSeparator(title: string, c: char, fingerprint: string)
    requires forall i :: 0 <= i < |title| ==> title[i] != c
    requires forall i :: 0 <= i < |fingerprint| ==> fingerprint[i] != c
    ensures Occurrences(Text(Data(title, [c], fingerprint)), c) == 1
  {
    OccurrencesConcat(title + [c], fingerprint, c);
    OccurrencesConcat(title, [c], c);
    OccurrencesAbsent(title, c);
    OccurrencesAbsent(fingerprint, c);
    assert [c][..0] == [];
  }
}
