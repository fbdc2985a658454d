/** The fingerprint worker: format detection at construction, the progress flags the
    window polls, the sanitiser's atom scan, and the batch loop that writes the report.
    The background thread is not modelled: `Go` runs the task to its end, and the
    window's `Stop` is a deterministic input of the loop (see `EvalToTextFile`). */
module Worker {
  import opened Common
  import opened Options
  import opened Fingerprinting
  import opened Molecules
  import opened BatchSpec

  /** The input dialect recorded by the constructor. */
  datatype InputFormat = Smi | Mdl | Invalid

  /** The constructor's sniffing order: SMILES is tried first, MDL only when the input
      does not look like SMILES, and neither gives an invalid format. The two tests
      themselves belong to a helper class outside this model; their answers are the
      parameters. */
  function DetectFormat(looksLikeSmiles: bool, looksLikeMdl: bool): (f: InputFormat)
    ensures f == Smi <==> looksLikeSmiles
    ensures f == Mdl <==> !looksLikeSmiles && looksLikeMdl
    ensures f == Invalid <==> !looksLikeSmiles && !looksLikeMdl
  {
    if looksLikeSmiles then Smi else if looksLikeMdl then Mdl else Invalid
  }

  /** Where an `IOException` inside the run's `try` block comes from, if anywhere:
      opening the output file, opening the input file, writing the header, or closing
      the reader or the writer after the last molecule. */
  datatype IoFault = NoIoFault | WriterOpenFails | ReaderOpenFails | HeaderFails | CloseFails

  /** The run-wide choices `evalToTextFile` makes from the options. */
  function ConfigOf(fptype: string, outputFormat: string, writeFails: set<nat>): RunConfig {
    RunConfig(SelectFingerprinter(fptype), Separator(outputFormat), writeFails)
  }

  class FingerprintSwingWorker {
    var exceptionList: seq<ExceptionInfo>
    var inputFormat: InputFormat
    var molCount: int
    var done: bool
    var canceled: bool
    /** The lines the writer accepted, header first: the header, then the data line of
        every molecule whose write and flush both succeeded. */
    var report: seq<ReportLine>

    constructor (looksLikeSmiles: bool, looksLikeMdl: bool)
      ensures inputFormat == DetectFormat(looksLikeSmiles, looksLikeMdl)
      ensures done == canceled == (inputFormat == Invalid)
      ensures exceptionList == [] && molCount == 0 && report == []
    {
      exceptionList := [];
      molCount := 0;
      report := [];
      done := false;
      canceled := false;
      var format := Invalid;
      if looksLikeSmiles {
        format := Smi;
      } else if looksLikeMdl {
        format := Mdl;
      }
      inputFormat := format;
      if format == Invalid {
        done := true;
        canceled := true;
      }
    }

    method GetExceptionList() returns (r: seq<ExceptionInfo>)
      ensures r == exceptionList
    {
      r := exceptionList;
    }

    method GetInputFormat() returns (r: InputFormat)
      ensures r == inputFormat
    {
      r := inputFormat;
    }

    /** The progress the window shows: the number of molecules visited so far. */
    method GetCurrent() returns (r: int)
      ensures r == molCount
    {
      r := molCount;
    }

    /** A request to cancel; the loop sees it before its next read. */
    method Stop()
      modifies this`canceled
      ensures canceled
    {
      canceled := true;
    }

    method IsDone() returns (r: bool)
      ensures r == done
    {
      r := done;
    }

    method IsCancelled() returns (r: bool)
      ensures r == canceled
    {
      r := canceled;
    }

    /** `checkAndCleanMolecule`: scan the atoms for "R" with a flag and an early exit,
        then the component, atom-typing and aromaticity checks; an exception is the
        `Err` result. */
    method CheckAndCleanMolecule(molecule: Molecule) returns (r: Result<Molecule, Failure>)
      ensures r == Sanitize(molecule)
    {
      var i := 0;
      var isMarkush := false;
      while i < |molecule.atoms|
        invariant 0 <= i <= |molecule.atoms|
        invariant isMarkush <==> exists j :: 0 <= j < i && molecule.atoms[j] == "R"
      {
        var atom := molecule.atoms[i];
        i := i + 1;
        if atom == "R" {
          isMarkush := true;
          break;
        }
      }
      if isMarkush {
        return Err(MarkushStructure);
      }

      var m := molecule;
      if |m.fragments| > 1 {
        var fragments := m.fragments;
        if |fragments| > 2 {
          return Err(TooManyComponents);
        } else {
          var frag1, frag2 := fragments[0], fragments[1];
          if |frag1.atoms| > |frag2.atoms| {
            m := frag1;
          } else {
            m := frag2;
          }
        }
      }

      if !m.typingOk {
        return Err(AtomTypingError);
      }
      if !m.aromaticityOk {
        return Err(AromaticityError);
      }
      return Ok(m);
    }

    /** The body of the batch loop for one molecule just read: sanitise it, fingerprint
        it, write its line; any exception on the way becomes a record carrying the
        molecule's 1-based position. Exactly one of the three ends increments the
        counter. */
    method ProcessMolecule(molecule: Molecule, cfg: RunConfig)
      requires molCount >= 0
      modifies this`molCount, this`exceptionList, this`report
      ensures var o := Step(molecule, cfg, old(molCount) + 1);
              && molCount == old(molCount) + 1
              && exceptionList == old(exceptionList) + (if o.Failed? then [o.info] else [])
              && report == old(report) + (if o.Written? then [o.line] else [])
    {
      ghost var index := molCount + 1;
      var printer, itemSep := cfg.printer, cfg.sep;
      var cleaned := CheckAndCleanMolecule(molecule);
      if cleaned.Err? {
        exceptionList := exceptionList + [ExceptionInfo(molCount + 1, molecule, cleaned.error, "")];
        molCount := molCount + 1;
        return;
      }

      var m := cleaned.value;
      if printer !in m.fingerprints {
        exceptionList := exceptionList + [ExceptionInfo(molCount + 1, m, FingerprintError, "")];
        molCount := molCount + 1;
      } else {
        var fingerprint := m.fingerprints[printer];
        var title := if m.title.Some? then m.title.value else "Mol" + NatToString(molCount + 1);
        if molCount + 1 in cfg.writeFails {
          exceptionList := exceptionList + [ExceptionInfo(molCount + 1, m, WriteError, "")];
        } else {
          assert title == Title(m, index);
          report := report + [Data(title, itemSep, fingerprint)];
        }
        molCount := molCount + 1;
      }
    }

    /** One pass of the loop after the cancellation check: read the molecule at
        0-based position `pos` and process it, extending the records and lines of the
        first `pos` molecules to those of the first `pos + 1`. */
    method ReadNext(mols: seq<Molecule>, pos: nat, cfg: RunConfig,
                    ghost records0: seq<ExceptionInfo>, ghost report0: seq<ReportLine>)
      requires pos < |mols| && molCount == pos
      requires exceptionList == records0 + Records(Outcomes(mols[..pos], cfg))
      requires report == report0 + Lines(Outcomes(mols[..pos], cfg))
      modifies this`molCount, this`exceptionList, this`report
      ensures molCount == pos + 1
      ensures exceptionList == records0 + Records(Outcomes(mols[..pos + 1], cfg))
      ensures report == report0 + Lines(Outcomes(mols[..pos + 1], cfg))
    {
      var molecule := mols[pos];
      ghost var o := Step(molecule, cfg, pos + 1);
      OutcomesStep(mols, cfg, pos);
      RecordsAndLinesAppend(Outcomes(mols[..pos], cfg), o);
      ProcessMolecule(molecule, cfg);
    }

    /** `evalToTextFile` over the molecules the reader yields, with:
        - `printerSize`: the bit length the chosen fingerprinter reports;
        - `io`: where, if anywhere, an `IOException` interrupts the run; it is
          swallowed, so the run still returns true and `done` is left as it was;
        - `writeFails`: the 1-based positions whose data-line write or the flush after
          it throws, which the per-molecule handler turns into a record;
        - `stopAt`: when `Some(k)`, the window's stop lands just before the
          cancellation check for the molecule at 0-based position `k`.
        The selected fingerprint type must be set: the dispatch dereferences it. */
    method EvalToTextFile(outputFormat: string, options: AppOptions, mols: seq<Molecule>, printerSize: nat,
                          io: IoFault, writeFails: set<nat>, stopAt: Option<nat>) returns (status: bool)
      requires inputFormat != Invalid
      requires options.selectedFingerprintType.Some?
      modifies this`molCount, this`exceptionList, this`report, this`done, this`canceled
      ensures io == WriterOpenFails ==>
                status && unchanged(this)
      ensures io == ReaderOpenFails ==>
                status && report == [] && exceptionList == old(exceptionList) &&
                molCount == old(molCount) && done == old(done) && canceled == old(canceled)
      ensures io == HeaderFails ==>
                status && report == [] && exceptionList == old(exceptionList) &&
                molCount == 0 && done == old(done) && canceled == old(canceled)
      ensures io == NoIoFault || io == CloseFails ==>
                var cfg := ConfigOf(old(options.selectedFingerprintType).value, outputFormat, writeFails);
                var v := Visited(|mols|, if old(canceled) then Some(0) else stopAt);
                && molCount == v
                && exceptionList == old(exceptionList) + Records(Outcomes(mols[..v], cfg))
                && report == [Header(cfg.printer, printerSize)] + Lines(Outcomes(mols[..v], cfg))
                && molCount == |exceptionList| - |old(exceptionList)| + |report| - 1
                && status == (v == |mols|)
                && canceled == (old(canceled) || v < |mols|)
                && done == if v == |mols| && io == NoIoFault then true else old(done)
      ensures inputFormat == old(inputFormat)
    {
      var cfg := ConfigOf(options.selectedFingerprintType.value, outputFormat, writeFails);
      var printer := cfg.printer;

      if io == WriterOpenFails {
        return true;
      }
      report := [];
      if io == ReaderOpenFails {
        return true;
      }
      molCount := 0;
      if io == HeaderFails {
        return true;
      }
      report := [Header(printer, printerSize)];
      ghost var v := Visited(|mols|, if canceled then Some(0) else stopAt);
      var completed := ReadMolecules(mols, cfg, stopAt);
      CountsAddUp(Outcomes(mols[..v], cfg));
      if !completed {
        return false;
      }
      if io == NoIoFault {
        done := true;
      }
      return true;
    }

    /** The `while` loop of `evalToTextFile`: before each read the cancellation flag is
        checked (a pending stop from the window lands there, see `EvalToTextFile`), and
        a set flag ends the loop at once with `false`; otherwise the molecule is read
        and processed. */
    method ReadMolecules(mols: seq<Molecule>, cfg: RunConfig, stopAt: Option<nat>) returns (completed: bool)
      requires molCount == 0
      modifies this`molCount, this`exceptionList, this`report, this`canceled
      ensures var v := Visited(|mols|, if old(canceled) then Some(0) else stopAt);
              && molCount == v
              && exceptionList == old(exceptionList) + Records(Outcomes(mols[..v], cfg))
              && report == old(report) + Lines(Outcomes(mols[..v], cfg))
              && completed == (v == |mols|)
              && canceled == (old(canceled) || v < |mols|)
    {
      ghost var v := Visited(|mols|, if canceled then Some(0) else stopAt);
      var pos := 0;
      ghost var outs: seq<Outcome> := [];
      completed := true;
      while pos < |mols|
        invariant pos <= v
        invariant outs == Outcomes(mols[..pos], cfg)
        invariant molCount == pos
        invariant exceptionList == old(exceptionList) + Records(outs)
        invariant report == old(report) + Lines(outs)
        invariant canceled == old(canceled) && completed
        invariant canceled ==> v == 0
      {
        if stopAt == Some(pos) {
          canceled := true;
        }
        if canceled {
          completed := false;
          break;
        }
        ReadNext(mols, pos, cfg, old(exceptionList), old(report));
        pos := pos + 1;
        outs := Outcomes(mols[..pos], cfg);
      }
      assert pos == v;
    }

    /** `go` and the task it starts: reset the flags, read the output method from the
        options, and run the batch to its end. */
    method Go(options: AppOptions, mols: seq<Molecule>, printerSize: nat,
              io: IoFault, writeFails: set<nat>, stopAt: Option<nat>)
      requires inputFormat != Invalid
      requires options.selectedFingerprintType.Some?
      modifies this`molCount, this`exceptionList, this`report, this`done, this`canceled
      ensures io == WriterOpenFails ==>
                report == old(report) && exceptionList == old(exceptionList) && molCount == old(molCount) &&
                !done && !canceled
      ensures io == ReaderOpenFails ==>
                report == [] && exceptionList == old(exceptionList) && molCount == old(molCount) &&
                !done && !canceled
      ensures io == HeaderFails ==>
                report == [] && exceptionList == old(exceptionList) && molCount == 0 && !done && !canceled
      ensures io == NoIoFault || io == CloseFails ==>
                var cfg := ConfigOf(old(options.selectedFingerprintType).value, old(options.outputMethod), writeFails);
                var v := Visited(|mols|, stopAt);
                && molCount == v
                && exceptionList == old(exceptionList) + Records(Outcomes(mols[..v], cfg))
                && report == [Header(cfg.printer, printerSize)] + Lines(Outcomes(mols[..v], cfg))
                && canceled == (v < |mols|)
                && done == (v == |mols| && io == NoIoFault)
    {
      done := false;
      canceled := false;
      var outputMethod := options.GetOutputMethod();
      var status := EvalToTextFile(outputMethod, options, mols, printerSize, io, writeFails, stopAt);
    }
  }
}
