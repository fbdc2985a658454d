# CDKDescUI fingerprint worker: a Dafny model

This project models the batch fingerprinting core of CDKDescUI. The
`FingerprintSwingWorker` class reads molecules from an SDF or SMILES file. It
sanitises each molecule with `checkAndCleanMolecule`:

- rejects Markush structures (any atom "R");
- rejects molecules with more than two components;
- from two components, keeps the first only when it has strictly more atoms, and the
  second otherwise (on a tie too);
- runs atom typing and aromaticity detection.

It then fingerprints the molecule with the fingerprinter named in the options and
writes a report line for each molecule that is sanitised, fingerprinted and written
without an exception. Every other molecule instead goes into an exception list with
its 1-based position. A cancellation flag is checked before each read.
The model also covers the option store the worker reads, `AppOptions`.

The chemistry is done by a library outside the model. A molecule is therefore an
abstract value (`Molecules.Molecule`) that carries the library's answers as oracles:

- its atom symbols;
- the fragments the connectivity partition returns;
- whether atom typing and aromaticity detection succeed;
- the bit-set text each fingerprinter produces, or none when it throws;
- its title.

Modules:

- `Common`: Option and Result, and the decimal text of a number as
  `String.valueOf` writes it.
- `Options`: class `AppOptions`, one field per static option, with every getter and
  setter, plus `Application` for the singleton.
- `Fingerprinting`: the fingerprinter dispatch, the separator choice, and report
  lines with their text.
- `Molecules`: the abstract molecule and `Sanitize`, the specification of
  `checkAndCleanMolecule`.
- `BatchSpec`: one outcome per visited molecule (`Step`, `Outcomes`). The exception
  records and the data lines are derived from the outcomes, with lemmas about
  counts, indices and order.
- `Worker`: class `FingerprintSwingWorker`:
  - its constructor detects the format;
  - `Stop` and the getters;
  - `CheckAndCleanMolecule` is the atom scan, proved equal to `Sanitize`;
  - `EvalToTextFile` is proved against `BatchSpec`;
  - `ReadMolecules` is its loop, and `ReadNext` and `ProcessMolecule` are the loop body;
  - `Go` resets the flags and runs the task.

Behaviour of the code the model keeps:

- A null fingerprint selector is dereferenced at `fptype.equals` and throws; only
  non-null unknown strings reach Substructure. `EvalToTextFile` and `Go` therefore
  require the selector to be set.
- A failing data-line write or flush is caught per molecule and becomes an exception
  record (`WriteError`). Any other `IOException` is swallowed: the run returns true
  and `done` stays false.
- `go()` does not clear the exception list, so a second run appends to the first
  run's records.

## Model

| member | source | states |
|---|---|---|
| Common.NatToString | src/net/guha/apps/cdkdesc/FingerprintSwingWorker.java:222 | the number in the default title is written as non-empty decimal digits, with no leading zero unless it is zero |
| Common.DecimalRoundTrip | src/net/guha/apps/cdkdesc/FingerprintSwingWorker.java:222 | reading the decimal text back gives the number |
| Common.NatToStringInjective | src/net/guha/apps/cdkdesc/FingerprintSwingWorker.java:222 | different positions give different decimal texts, so untitled molecules get distinct "Mol" titles |
| Options.AppOptions.constructor | src/main/java/net/guha/apps/cdkdesc/AppOptions.java:16-23 | initial options: output method OUTPUT_SPC, settings file "", no fingerprint type (null), addH true, debug false |
| Options.AppOptions.GetSelectedFingerprintType | src/main/java/net/guha/apps/cdkdesc/AppOptions.java:25-27 | returns the stored fingerprint type, null included |
| Options.AppOptions.SetSelectedFingerprintType | src/main/java/net/guha/apps/cdkdesc/AppOptions.java:29-31 | the fingerprint type becomes the argument; every other option is unchanged |
| Options.AppOptions.GetSettingsFile | src/main/java/net/guha/apps/cdkdesc/AppOptions.java:33-35 | returns the stored settings file |
| Options.AppOptions.IsDebug | src/main/java/net/guha/apps/cdkdesc/AppOptions.java:37-39 | returns the stored debug flag |
| Options.AppOptions.SetDebug | src/main/java/net/guha/apps/cdkdesc/AppOptions.java:41-43 | the debug flag becomes the argument; every other option is unchanged |
| Options.AppOptions.SetSettingsFile | src/main/java/net/guha/apps/cdkdesc/AppOptions.java:45-47 | the settings file becomes the argument; every other option is unchanged |
| Options.AppOptions.GetOutputMethod | src/main/java/net/guha/apps/cdkdesc/AppOptions.java:57-59 | returns the stored output method |
| Options.AppOptions.SetOutputMethod | src/main/java/net/guha/apps/cdkdesc/AppOptions.java:61-63 | the output method becomes the argument; every other option is unchanged |
| Options.AppOptions.IsAddH | src/main/java/net/guha/apps/cdkdesc/AppOptions.java:74-76 | returns the stored addH flag |
| Options.AppOptions.SetAddH | src/main/java/net/guha/apps/cdkdesc/AppOptions.java:78-80 | the addH flag becomes the argument; every other option is unchanged |
| Options.SetThenGet | src/main/java/net/guha/apps/cdkdesc/AppOptions.java:25-80 | after setting all five options, the getters return exactly the values set, whatever they held before |
| Options.Application.constructor | src/main/java/net/guha/apps/cdkdesc/AppOptions.java:65 | the one instance is created once, holding the initial options |
| Options.Application.GetInstance | src/main/java/net/guha/apps/cdkdesc/AppOptions.java:67-69 | returns that one instance |
| Options.InstanceIsShared | src/main/java/net/guha/apps/cdkdesc/AppOptions.java:65-72 | two requests for the instance return the same object |
| Fingerprinting.SelectFingerprinter | src/net/guha/apps/cdkdesc/FingerprintSwingWorker.java:172-179 | the if/else chain over the selected type: "Standard", "Extended", "Graph only", "EState" and "MACCS" pick their fingerprinter, every other text picks Substructure |
| Fingerprinting.Separator | src/net/guha/apps/cdkdesc/FingerprintSwingWorker.java:181-190 | the item separator: tab for the tab option, comma for the csv option, a space otherwise |
| Fingerprinting.ClassName | src/net/guha/apps/cdkdesc/FingerprintSwingWorker.java:205 | the fully qualified class name of each fingerprinter, as `getClass().getName()` gives it |
| Fingerprinting.Text | src/net/guha/apps/cdkdesc/FingerprintSwingWorker.java:205-223 | a line's text: "CDKDescUI ", class name, " ", size, " bits" for the header; title, separator, bit-set text for a data line |
| Fingerprinting.SelectLabel | src/net/guha/apps/cdkdesc/FingerprintSwingWorker.java:174-179 | each variant's option text selects that variant |
| Fingerprinting.SelectExactly | src/net/guha/apps/cdkdesc/FingerprintSwingWorker.java:174-179 | each named variant is selected by its own text and no other; Substructure is selected by exactly the texts that are none of the five names |
| Fingerprinting.SelectDefault | src/net/guha/apps/cdkdesc/FingerprintSwingWorker.java:179 | the final else: any unrecognised non-null text behaves as selecting Substructure, and only such texts do |
| Fingerprinting.SeparatorChoice | src/net/guha/apps/cdkdesc/FingerprintSwingWorker.java:182-190 | tab exactly for the tab option, comma exactly for the csv option, space for the space option and every other value |
| Fingerprinting.HeaderShape | src/net/guha/apps/cdkdesc/FingerprintSwingWorker.java:205 | the header is "CDKDescUI ", then the printer's class name, then a single space, then the bit length in decimal (which reads back as that length), then " bits" |
| Fingerprinting.OneSeparator | src/net/guha/apps/cdkdesc/FingerprintSwingWorker.java:223 | a data line whose title and bit-set text hold no separator character contains exactly one separator |
| Molecules.Sanitize | src/net/guha/apps/cdkdesc/FingerprintSwingWorker.java:120-166 | `checkAndCleanMolecule` on values: Markush check, component count, larger fragment, atom typing, aromaticity, in that order, each failure as an error |
| Molecules.LargerFragment | src/net/guha/apps/cdkdesc/FingerprintSwingWorker.java:144-148 | the kept fragment has at least as many atoms as either fragment; the first is kept only when strictly larger, and on a tie the second is kept |
| Molecules.SanitizeResult | src/net/guha/apps/cdkdesc/FingerprintSwingWorker.java:120-166 | the sanitiser fails only with Markush, too many components, atom typing or aromaticity; what it returns passed typing and aromaticity |
| Molecules.MarkushRejectedFirst | src/net/guha/apps/cdkdesc/FingerprintSwingWorker.java:120-133 | a molecule is rejected as Markush if and only if some atom is "R", whatever its fragments and oracles |
| Molecules.TooManyComponentsExactly | src/net/guha/apps/cdkdesc/FingerprintSwingWorker.java:136-142 | "More than 2 components" is the outcome exactly for molecules without "R" whose partition has more than two fragments |
| Molecules.SanitizedMolecule | src/net/guha/apps/cdkdesc/FingerprintSwingWorker.java:131-165 | a sanitised molecule had no "R" atom; a connected one comes back unchanged; a disconnected one had exactly two fragments and the result is the strictly larger first fragment, else the second |
| Molecules.SanitizedHasNoMarkush | src/net/guha/apps/cdkdesc/FingerprintSwingWorker.java:120-148 | when the partition holds exactly the molecule's atoms, the kept fragment has no "R" atom either |
| BatchSpec.Title | src/net/guha/apps/cdkdesc/FingerprintSwingWorker.java:221-222 | the title property, or "Mol" and the 1-based position when there is none |
| BatchSpec.DataLine | src/net/guha/apps/cdkdesc/FingerprintSwingWorker.java:220-223 | a fingerprinted molecule's line: its title, the separator, the chosen fingerprinter's bit-set text |
| BatchSpec.Step | src/net/guha/apps/cdkdesc/FingerprintSwingWorker.java:211-229 | one loop body: a sanitiser error, a fingerprinter error or a write error becomes a record at the position, otherwise the data line is written |
| BatchSpec.Outcomes | src/net/guha/apps/cdkdesc/FingerprintSwingWorker.java:207-230 | the steps of a sequence of molecules in order, the first at position 1; one outcome per molecule |
| BatchSpec.Records | src/net/guha/apps/cdkdesc/FingerprintSwingWorker.java:214-227 | the exception records among the outcomes, in order |
| BatchSpec.Lines | src/net/guha/apps/cdkdesc/FingerprintSwingWorker.java:223 | the data lines among the outcomes, in order |
| BatchSpec.UntitledTitle | src/net/guha/apps/cdkdesc/FingerprintSwingWorker.java:221-222 | a molecule without a title is written as "Mol" followed by the decimal text of its 1-based position |
| BatchSpec.StepOutcome | src/net/guha/apps/cdkdesc/FingerprintSwingWorker.java:211-229 | a failed molecule is recorded with its own position and empty context; a line is written exactly when sanitising, fingerprinting and writing all succeed; a sanitiser failure records the unsanitised molecule |
| BatchSpec.OutcomesAt | src/net/guha/apps/cdkdesc/FingerprintSwingWorker.java:207-230 | the outcome at each position is that molecule's step, numbered from 1 |
| BatchSpec.Visited | src/net/guha/apps/cdkdesc/FingerprintSwingWorker.java:207-208 | the loop visits at most all molecules, and all of them exactly when no stop lands before the last read |
| BatchSpec.OutcomesPrefix | src/net/guha/apps/cdkdesc/FingerprintSwingWorker.java:207-230 | stopping early gives a prefix of the full run's outcomes |
| BatchSpec.CountsAddUp | src/net/guha/apps/cdkdesc/FingerprintSwingWorker.java:211-229 | records plus data lines equal the number of molecules visited: each molecule ends in exactly one of the two |
| BatchSpec.OutcomesWellIndexed | src/net/guha/apps/cdkdesc/FingerprintSwingWorker.java:214-227 | every failure carries the 1-based position of its molecule |
| BatchSpec.RecordIndicesIncrease | src/net/guha/apps/cdkdesc/FingerprintSwingWorker.java:214-227 | record indices lie between 1 and the number visited and strictly increase along the exception list |
| BatchSpec.RecordedIffFailed | src/net/guha/apps/cdkdesc/FingerprintSwingWorker.java:211-229 | a position appears in the exception list if and only if that molecule's outcome is a failure |
| BatchSpec.MarkushMoleculeRecorded | src/net/guha/apps/cdkdesc/FingerprintSwingWorker.java:211-216 | a molecule with an "R" atom is recorded as Markush at its position, with the molecule as read, and writes no line |
| BatchSpec.AllWritten | src/net/guha/apps/cdkdesc/FingerprintSwingWorker.java:219-225 | when every molecule goes through, there are no records and one data line per molecule, in input order |
| BatchSpec.CancelledRunVisitsPrefix | src/net/guha/apps/cdkdesc/FingerprintSwingWorker.java:207-209 | a stop before position k visits exactly k molecules: k records and lines in all, the same as the full run's first k |
| BatchSpec.MarkushThenGood | src/net/guha/apps/cdkdesc/FingerprintSwingWorker.java:207-229 | with an "R" molecule first and a good one second: a single record with index 1 and the second molecule's line only |
| Worker.ConfigOf | src/net/guha/apps/cdkdesc/FingerprintSwingWorker.java:172-190 | the run-wide choices made before the loop: the fingerprinter from the selected type and the separator from the output method |
| Worker.DetectFormat | src/net/guha/apps/cdkdesc/FingerprintSwingWorker.java:53-58 | SMILES when the SMILES test passes; MDL only when it fails and the MDL test passes; invalid when both fail |
| Worker.FingerprintSwingWorker.constructor | src/net/guha/apps/cdkdesc/FingerprintSwingWorker.java:46-71 | records the detected format, starts with an empty exception list; done and canceled are both set exactly when the format is invalid |
| Worker.FingerprintSwingWorker.GetExceptionList | src/net/guha/apps/cdkdesc/FingerprintSwingWorker.java:91-93 | returns the exception list |
| Worker.FingerprintSwingWorker.GetInputFormat | src/net/guha/apps/cdkdesc/FingerprintSwingWorker.java:95-97 | returns the detected format |
| Worker.FingerprintSwingWorker.GetCurrent | src/net/guha/apps/cdkdesc/FingerprintSwingWorker.java:103-105 | progress is the molecule counter, not the unused current field |
| Worker.FingerprintSwingWorker.Stop | src/net/guha/apps/cdkdesc/FingerprintSwingWorker.java:107-109 | sets the canceled flag and nothing else |
| Worker.FingerprintSwingWorker.IsDone | src/net/guha/apps/cdkdesc/FingerprintSwingWorker.java:111-113 | returns the done flag |
| Worker.FingerprintSwingWorker.IsCancelled | src/net/guha/apps/cdkdesc/FingerprintSwingWorker.java:115-117 | returns the canceled flag |
| Worker.FingerprintSwingWorker.CheckAndCleanMolecule | src/net/guha/apps/cdkdesc/FingerprintSwingWorker.java:120-166 | the atom scan with its flag and early exit, then the component, typing and aromaticity checks, return exactly what the sanitiser specification gives |
| Worker.FingerprintSwingWorker.ProcessMolecule | src/net/guha/apps/cdkdesc/FingerprintSwingWorker.java:211-229 | one molecule: the counter rises by exactly one, and the molecule's step adds either its record or its line |
| Worker.FingerprintSwingWorker.ReadNext | src/net/guha/apps/cdkdesc/FingerprintSwingWorker.java:209-229 | reading and processing the next molecule extends the records and lines of the first k molecules to those of the first k+1 |
| Worker.FingerprintSwingWorker.ReadMolecules | src/net/guha/apps/cdkdesc/FingerprintSwingWorker.java:207-230 | cancellation is checked before each read. The loop visits exactly the molecules before the stop, appends their records and lines, returns false exactly when a stop was seen, and leaves canceled set then |
| Worker.FingerprintSwingWorker.EvalToTextFile | src/net/guha/apps/cdkdesc/FingerprintSwingWorker.java:170-239 | each I/O failure point is modelled: nothing changes, or the file is empty, and the run still returns true. Otherwise the counter equals records plus data lines, the report is the header then one line per success, the result is false exactly on cancellation, and done is set only after a normal close |
| Worker.FingerprintSwingWorker.Go | src/net/guha/apps/cdkdesc/FingerprintSwingWorker.java:73-89 | resets done and canceled, then runs the task with the stored output method. If the reader fails to open the counter is unchanged, and if the header write fails it is 0; otherwise canceled holds exactly when a stop cut the run short, and done holds exactly when the run finished and closed normally |

## Left out

- The window, progress bar, error dialog and the background thread of `go()` are not modelled. `Go` runs the task to its end in the caller.
- A `stop()` from the window is modelled as a deterministic input, `stopAt`: the position before whose cancellation check the stop lands. A stop after the last check does not happen inside the run; it is a separate `Stop` call.
- `System.exit` on a failure to build the task is not modelled.
- The null-reader assertion is not modelled. `EvalToTextFile` and `Go` require a valid input format, which is the only way the reader is non-null.
- `lengthOfTask` and `current` are not modelled: the loop never advances them.
- The format tests are not modelled. They live in a helper class outside this model, and their two answers are constructor parameters.
- The three output-method constants are not modelled. They are declared in a constants class outside this model and given the placeholder values "spc", "tab" and "csv"; the model uses only that they differ.
- Chemistry-library calls are oracles carried by the molecule: the connectivity partition, atom typing, aromaticity detection and each fingerprinter's result.
- Each fingerprinter's bit length is a parameter, because the library reports it. The bit-set text is a string the molecule carries.
- The input reader is a finished sequence of molecules. Parse errors and runtime exceptions raised by the iterating readers are not modelled.
- File handling is abstract. The output file is `report`, the lines the writer accepted: the header, then the data line of each molecule whose write and flush both succeeded. The platform line separator is not modelled.
- Writer buffering is not modelled: in the program the header reaches the file only at the first flush or at close.
- An exception record holds the failure kind instead of the exception object. The text of atom typing's underlying cause is not kept.
- Aliasing is not modelled: molecules are values, so library calls that mutate a molecule in place cannot change a record that holds it.
- A title property that is not a String (a failed cast) is not modelled.
- `AppOptions`'s descriptor engine and descriptor map (`getEngine`, `getSelectedDescriptors`) are not modelled. They are library objects this pipeline does not use.
- EvalToTextFile: the molecule counter is an unbounded integer, so the Java `int` wrap-around after 2^31 - 1 molecules is not modelled.
- Go: a null fingerprint selector is excluded by a precondition. The program throws a `NullPointerException` there and the task dies; the model does not describe that crash.
- Step: a flush that throws (line 224) is modelled like a write that throws: one record and no line. In the program the line was already handed to the writer, so it may still reach the file at close while the molecule is also recorded.
- ProcessMolecule: a molecule in `writeFails` gets a record and no entry in `report`, whether the write or the flush threw; the line a failed flush left in the writer's buffer is not modelled.
- SetOutputMethod: the output method is a `string`, so null is excluded. A null output method would throw at `outputFormat.equals` (line 184) when the task starts; the model does not describe that crash.
- SetSettingsFile: the settings file is a `string`, so null is excluded; nothing in the modelled core reads it.
