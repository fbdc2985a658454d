/** The abstract molecule the worker handles and the specification of
    `checkAndCleanMolecule`. Everything the chemistry library computes is an oracle
    carried by the molecule itself. */
module Molecules {
  import opened Common
  import opened Fingerprinting

  /** A molecule as the worker sees it:
      - `atoms`: the element symbol of every atom, in the container's iteration order;
      - `fragments`: what the connectivity partition returns for it (one entry or none
        when it is connected); each fragment is itself a molecule with its own oracles;
      - `typingOk`, `aromaticityOk`: whether atom-type perception and aromaticity
        detection succeed on it;
      - `fingerprints`: for each fingerprinter that succeeds on it, the textual form of
        the bit set it returns; a fingerprinter missing from the map throws;
      - `title`: the title property, `None` when it is unset. */
  datatype Molecule = Molecule(
    atoms: seq<string>,
    fragments: seq<Molecule>,
    typingOk: bool,
    aromaticityOk: bool,
    fingerprints: map<Fingerprinter, string>,
    title: Option<string>)

  /** Why a molecule ended up in the exception list. */
  datatype Failure =
    | MarkushStructure
    | TooManyComponents
    | AtomTypingError
    | AromaticityError
    | FingerprintError
    | WriteError

  predicate IsSanitizeFailure(f: Failure) {
    f.MarkushStructure? || f.TooManyComponents? || f.AtomTypingError? || f.AromaticityError?
  }

  /** Some atom is the generic placeholder "R". */
  predicate HasMarkushAtom(m: Molecule) {
    exists i :: 0 <= i < |m.atoms| && m.atoms[i] == "R"
  }

  predicate IsConnected(m: Molecule) {
    |m.fragments| <= 1
  }

  /** The salt heuristic for two fragments: the first is kept only when it has strictly
      more atoms; on a tie the second is kept. */
  function LargerFragment(first: Molecule, second: Molecule): (kept: Molecule)
    ensures |kept.atoms| >= |first.atoms| && |kept.atoms| >= |second.atoms|
    ensures kept == first <== |first.atoms| > |second.atoms|
    ensures kept == second <== |first.atoms| <= |second.atoms|
  {
    if |first.atoms| > |second.atoms| then first else second
  }

  /** The ordered, short-circuiting checks of `checkAndCleanMolecule`. */
  function Sanitize(m: Molecule): Result<Molecule, Failure> {
    if HasMarkushAtom(m) then Err(MarkushStructure)
    else if !IsConnected(m) && |m.fragments| > 2 then Err(TooManyComponents)
    else
      var kept := if IsConnected(m) then m else LargerFragment(m.fragments[0], m.fragments[1]);
      if !kept.typingOk then Err(AtomTypingError)
      else if !kept.aromaticityOk then Err(AromaticityError)
      else Ok(kept)
  }

  /** The sanitiser fails only with its own four failures, and what it returns has
      passed atom typing and aromaticity detection. */
  lemma SanitizeResult(m: Molecule)
    ensures Sanitize(m).Err? ==> IsSanitizeFailure(Sanitize(m).error)
    ensures Sanitize(m).Ok? ==> Sanitize(m).value.typingOk && Sanitize(m).value.aromaticityOk
  {
  }

  /** The Markush check runs first: a molecule with an "R" atom is rejected as Markush
      whatever its fragments and oracles, and only such a molecule is. */
  lemma MarkushRejectedFirst(m: Molecule)
    ensures Sanitize(m) == Err(MarkushStructure) <==> HasMarkushAtom(m)
  {
  }

  /** A molecule is rejected for its components exactly when it has no "R" atom and
      the partition gives more than two fragments. */
  lemma TooManyComponentsExactly(m: Molecule)
    ensures Sanitize(m) == Err(TooManyComponents) <==> !HasMarkushAtom(m) && |m.fragments| > 2
  {
  }

  /** What survives the sanitiser: a connected molecule itself, or of two fragments the
      strictly larger first one, else the second. */
  lemma SanitizedMolecule(m: Molecule)
    requires Sanitize(m).Ok?
    ensures !HasMarkushAtom(m)
    ensures IsConnected(m) ==> Sanitize(m).value == m
    ensures !IsConnected(m) ==> |m.fragments| == 2
    ensures !IsConnected(m) ==>
              Sanitize(m).value == if |m.fragments[0].atoms| > |m.fragments[1].atoms| then m.fragments[0] else m.fragments[1]
  {
  }

  /** All atoms of the fragments together. */
  function FragmentAtoms(fs: seq<Molecule>): multiset<string> {
    if fs == [] then multiset{} else FragmentAtoms(fs[..|fs| - 1]) + multiset(fs[|fs| - 1].atoms)
  }

  /** The partition oracle is honest: its fragments hold exactly the molecule's atoms. */
  predicate PartitionsAtoms(m: Molecule) {
    !IsConnected(m) ==> FragmentAtoms(m.fragments) == multiset(m.atoms)
  }

  lemma {:induction false} FragmentAtomsInclude(fs: seq<Molecule>, j: nat)
    requires j < |fs|
    ensures multiset(fs[j].atoms) <= FragmentAtoms(fs)
  {
    if j < |fs| - 1 {
      FragmentAtomsInclude(fs[..|fs| - 1], j);
    }
  }

  /** With an honest partition, the sanitised molecule never holds a Markush atom. */
  lemma SanitizedHasNoMarkush(m: Molecule)
    requires PartitionsAtoms(m)
    requires Sanitize(m).Ok?
    ensures !HasMarkushAtom(Sanitize(m).value)
  {
    var r := Sanitize(m).value;
    if !IsConnected(m) {
      FragmentAtomsInclude(m.fragments, if r == m.fragments[0] then 0 else 1);
      forall i | 0 <= i < |r.atoms|
        ensures r.atoms[i] != "R"
      {
        assert r.atoms[i] in multiset(m.atoms);
      }
    }
  }
}
