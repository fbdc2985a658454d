/** What the batch loop of `evalToTextFile` produces, stated as functions of the
    molecules it reads: one outcome per visited molecule, from which the exception
    records and the report's data lines are drawn. */
module BatchSpec {
  import opened Common
  import opened Fingerprinting
  import opened Molecules

  /** One exception-list entry: the 1-based position of the molecule in the input,
      the molecule as it stood when the exception was thrown, why, and the free-text
      context (always empty in this pipeline). */
  datatype ExceptionInfo = ExceptionInfo(index: int, molecule: Molecule, failure: Failure, context: string)

  /** The run-wide choices: the fingerprinter, the item separator, and the 1-based
      positions of the molecules whose data-line write or the flush after it throws. */
  datatype RunConfig = RunConfig(printer: Fingerprinter, sep: string, writeFails: set<nat>)

  /** How one visited molecule ends: in the exception list, or as a report line. */
  datatype Outcome = Failed(info: ExceptionInfo) | Written(line: ReportLine)

  /** The title written for a molecule: its title property, or "Mol" and its 1-based
      position when it has none. */
  function Title(m: Molecule, index: nat): string {
    match m.title
    case Some(t) => t
    case None => "Mol" + NatToString(index)
  }

  /** An untitled molecule's title reads back as "Mol" followed by its position, so
      untitled molecules at different positions get different titles. */
  lemma UntitledTitle(m: Molecule, index: nat)
    requires m.title.None?
    ensures var t := Title(m, index);
            |t| > 3 && t[..3] == "Mol" && IsDecimal(t[3..]) && DecimalToNat(t[3..]) == index
  {
    var t := Title(m, index);
    assert t[3..] == NatToString(index);
    DecimalRoundTrip(index);
  }

  /** The report line of a molecule that was fingerprinted. */
  function DataLine(m: Molecule, cfg: RunConfig, index: nat): ReportLine
    requires cfg.printer in m.fingerprints
  {
    Data(Title(m, index), cfg.sep, m.fingerprints[cfg.printer])
  }

  /** One turn of the loop body for the molecule at 1-based position `index`:
      sanitise, then fingerprint, then write; each exception becomes a record. */
  function Step(m: Molecule, cfg: RunConfig, index: nat): Outcome {
    match Sanitize(m)
    case Err(f) => Failed(ExceptionInfo(index, m, f, ""))
    case Ok(c) =>
      if cfg.printer !in c.fingerprints then Failed(ExceptionInfo(index, c, FingerprintError, ""))
      else if index in cfg.writeFails then Failed(ExceptionInfo(index, c, WriteError, ""))
      else Written(DataLine(c, cfg, index))
  }

  /** A step fails with the molecule's own position and an empty context; it writes a
      line exactly when the molecule is sanitised, the chosen fingerprinter succeeds on
      the sanitised molecule, and the write does not throw. */
  lemma StepOutcome(m: Molecule, cfg: RunConfig, index: nat)
    ensures var o := Step(m, cfg, index);
            && (o.Failed? ==> o.info.index == index && o.info.context == "")
            && (o.Written? <==> Sanitize(m).Ok? && cfg.printer in Sanitize(m).value.fingerprints && index !in cfg.writeFails)
            && (Sanitize(m).Err? ==> o == Failed(ExceptionInfo(index, m, Sanitize(m).error, "")))
  {
  }

  /** The outcomes of visiting `ms` in order, the first at position 1. */
  function Outcomes(ms: seq<Molecule>, cfg: RunConfig): (os: seq<Outcome>)
    ensures |os| == |ms|
  {
    if ms == [] then []
    else Outcomes(ms[..|ms| - 1], cfg) + [Step(ms[|ms| - 1], cfg, |ms|)]
  }

  /** The exception records among the outcomes, in order. */
  function Records(os: seq<Outcome>): seq<ExceptionInfo> {
    if os == [] then []
    else
      var last := os[|os| - 1];
      Records(os[..|os| - 1]) + if last.Failed? then [last.info] else []
  }

  /** The data lines among the outcomes, in order. */
  function Lines(os: seq<Outcome>): seq<ReportLine> {
    if os == [] then []
    else
      var last := os[|os| - 1];
      Lines(os[..|os| - 1]) + if last.Written? then [last.line] else []
  }

  /** The number of molecules the loop reads before it stops: all of them, unless a
      stop lands before the check for the molecule at 0-based position `k < n`. */
  function Visited(n: nat, stopAt: Option<nat>): (v: nat)
    ensures v <= n
    ensures v == n <==> stopAt.None? || stopAt.value >= n
  {
    if stopAt.Some? && stopAt.value < n then stopAt.value else n
  }

  /** The outcome at each position is that molecule's step, numbered from 1. */
  lemma {:induction false} OutcomesAt(ms: seq<Molecule>, cfg: RunConfig)
    ensures forall i :: 0 <= i < |ms| ==> Outcomes(ms, cfg)[i] == Step(ms[i], cfg, i + 1)
  {
    if ms != [] {
      OutcomesAt(ms[..|ms| - 1], cfg);
    }
  }

  /** Visiting one more molecule appends its outcome. */
  lemma OutcomesStep(ms: seq<Molecule>, cfg: RunConfig, k: nat)
    requires k < |ms|
    ensures Outcomes(ms[..k + 1], cfg) == Outcomes(ms[..k], cfg) + [Step(ms[k], cfg, k + 1)]
  {
    assert ms[..k + 1][..k] == ms[..k];
  }

  /** One more outcome adds its record or its line. */
  lemma RecordsAndLinesAppend(os: seq<Outcome>, o: Outcome)
    ensures Records(os + [o]) == Records(os) + (if o.Failed? then [o.info] else [])
    ensures Lines(os + [o]) == Lines(os) + (if o.Written? then [o.line] else [])
  {
    assert (os + [o])[..|os|] == os;
  }

  /** Visiting a prefix gives a prefix of the outcomes. */
  lemma OutcomesPrefix(ms: seq<Molecule>, cfg: RunConfig, k: nat)
    requires k <= |ms|
    ensures Outcomes(ms[..k], cfg) == Outcomes(ms, cfg)[..k]
  {
    OutcomesAt(ms, cfg);
    OutcomesAt(ms[..k], cfg);
  }

  /** Every outcome is either a record or a line, never both: the counts add up to the
      number of molecules visited. */
  lemma {:induction false} CountsAddUp(os: seq<Outcome>)
    ensures |Records(os)| + |Lines(os)| == |os|
  {
    if os != [] {
      CountsAddUp(os[..|os| - 1]);
    }
  }

  /** Each failed outcome carries the 1-based position of its molecule. */
  predicate WellIndexed(os: seq<Outcome>) {
    forall i :: 0 <= i < |os| && os[i].Failed? ==> os[i].info.index == i + 1
  }

  lemma OutcomesWellIndexed(ms: seq<Molecule>, cfg: RunConfig)
    ensures WellIndexed(Outcomes(ms, cfg))
  {
  }

  /** Some record carries index `k`. */
  predicate HasRecord(rs: seq<ExceptionInfo>, k: int) {
    exists j :: 0 <= j < |rs| && rs[j].index == k
  }

  /** The records' indices are 1-based positions of visited molecules, strictly
      increasing along the list. */
  lemma {:induction false} RecordIndicesIncrease(os: seq<Outcome>)
    requires WellIndexed(os)
    ensures forall j :: 0 <= j < |Records(os)| ==> 1 <= Records(os)[j].index <= |os|
    ensures forall a, b :: 0 <= a < b < |Records(os)| ==> Records(os)[a].index < Records(os)[b].index
  {
    if os != [] {
      RecordIndicesIncrease(os[..|os| - 1]);
    }
  }

  /** A molecule has a record exactly when its outcome is a failure. */
  lemma {:induction false} RecordedIffFailed(os: seq<Outcome>, i: nat)
    requires WellIndexed(os) && i < |os|
    ensures HasRecord(Records(os), i + 1) <==> os[i].Failed?
  {
    var n := |os|;
    var init := os[..n - 1];
    var rs, ri := Records(os), Records(init);
    var tail := if os[n - 1].Failed? then [os[n - 1].info] else [];
    assert rs == ri + tail;
    RecordIndicesIncrease(init);
    if i < n - 1 {
      RecordedIffFailed(init, i);
      if HasRecord(rs, i + 1) {
        var j :| 0 <= j < |rs| && rs[j].index == i + 1;
        assert j < |ri|;
        assert ri[j] == rs[j];
      }
      if HasRecord(ri, i + 1) {
        var j :| 0 <= j < |ri| && ri[j].index == i + 1;
        assert rs[j] == ri[j];
      }
    } else {
      if HasRecord(rs, n) {
        var j :| 0 <= j < |rs| && rs[j].index == n;
        assert j >= |ri|;
      }
      if os[n - 1].Failed? {
        assert rs[|ri|].index == n;
      }
    }
  }

  /** A molecule with an "R" atom is recorded as Markush at its position and gives no
      report line. */
  lemma MarkushMoleculeRecorded(ms: seq<Molecule>, cfg: RunConfig, i: nat)
    requires i < |ms| && HasMarkushAtom(ms[i])
    ensures Outcomes(ms, cfg)[i] == Failed(ExceptionInfo(i + 1, ms[i], MarkushStructure, ""))
  {
  }

  /** When every molecule is sanitised, fingerprinted and written, there are no
      records and the report holds one line per molecule, in input order. */
  lemma {:induction false} AllWritten(ms: seq<Molecule>, cfg: RunConfig)
    requires forall i :: 0 <= i < |ms| ==> Step(ms[i], cfg, i + 1).Written?
    ensures Records(Outcomes(ms, cfg)) == []
    ensures |Lines(Outcomes(ms, cfg))| == |ms|
    ensures forall i :: 0 <= i < |ms| ==> Lines(Outcomes(ms, cfg))[i] == Step(ms[i], cfg, i + 1).line
  {
    if ms != [] {
      var init := ms[..|ms| - 1];
      AllWritten(init, cfg);
      assert Outcomes(ms, cfg)[..|ms| - 1] == Outcomes(init, cfg);
    }
  }

  /** A run whose stop lands before the molecule at 0-based position `k` has visited
      exactly `k` molecules: its records and data lines together number `k`, and the
      molecules from position `k` on leave no trace. */
  lemma CancelledRunVisitsPrefix(ms: seq<Molecule>, cfg: RunConfig, k: nat)
    requires k < |ms|
    ensures Visited(|ms|, Some(k)) == k
    ensures |Records(Outcomes(ms[..k], cfg))| + |Lines(Outcomes(ms[..k], cfg))| == k
    ensures Outcomes(ms[..k], cfg) == Outcomes(ms, cfg)[..k]
  {
    CountsAddUp(Outcomes(ms[..k], cfg));
    OutcomesPrefix(ms, cfg, k);
  }

  /** Two molecules, the first holding an "R" atom and the second going through:
      one record, for position 1, and one data line, the second molecule's. */
  lemma MarkushThenGood(m1: Molecule, m2: Molecule, cfg: RunConfig)
    requires HasMarkushAtom(m1) && Step(m2, cfg, 2).Written?
    ensures Records(Outcomes([m1, m2], cfg)) == [ExceptionInfo(1, m1, MarkushStructure, "")]
    ensures Lines(Outcomes([m1, m2], cfg)) == [Step(m2, cfg, 2).line]
  {
    var os := Outcomes([m1, m2], cfg);
    OutcomesAt([m1, m2], cfg);
    assert os[0] == Failed(ExceptionInfo(1, m1, MarkushStructure, ""));
    assert os == [os[0]] + [os[1]];
    RecordsAndLinesAppend([], os[0]);
    RecordsAndLinesAppend([os[0]], os[1]);
  }
}
