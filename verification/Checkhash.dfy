/** checkhash.sh, and the recipe that runs it inside the lock. */
module Checkhash {
  import opened Wrappers
  import DownloadLock

  /** hash.sh: the hex digest of a file's content. */
  type Digest = DownloadLock.Content -> string

  /** The file that LEARN_FILE names, as its lines. */
  class LearnFile {
    var lines: seq<string>

    constructor ()
      ensures lines == []
    {
      lines := [];
    }
  }

  function Replacement(expected: string, sum: string): string {
    "s/" + expected + "/" + sum + "/g"
  }

  /** When checkhash.sh exits with 0: on a match, and when it learns. */
  predicate Passes(digest: Digest, target: Option<DownloadLock.Content>, expected: string, learning: bool) {
    target.Some? && expected != "" && (digest(target.value) == expected || learning)
  }

  /** The exit status of checkhash.sh; 0 also when it only learns the new hash. */
  method Run(digest: Digest, target: Option<DownloadLock.Content>, expected: string, learn: LearnFile?) returns (status: nat)
    modifies learn
    ensures status == 0 <==> Passes(digest, target, expected, learn != null)
    ensures learn != null ==>
              learn.lines == old(learn.lines) +
                             if status == 0 && digest(target.value) != expected
                             then ["s/" + expected + "/" + digest(target.value) + "/g"] else []
  {
    if target.None? {
      return 1;
    }
    if expected == "" {
      return 1;
    }
    var sum := digest(target.value);
    if sum == expected {
      return 0;
    }
    if learn != null {
      learn.lines := learn.lines + [Replacement(expected, sum)];
      return 0;
    }
    return 1;
  }

  /** Which downloads the recipe of the Go tarball lets through: those for which checkhash.sh exits with 0. */
  function GoTarballGate(digest: Digest, expected: string, learning: bool): DownloadLock.Gate {
    c => Passes(digest, Some(c), expected, learning)
  }

  /** The hash gate: a file with the expected hash passes, one with another hash only to be learned, and nothing else does. */
  lemma PassesIff(digest: Digest, target: Option<DownloadLock.Content>, expected: string, learning: bool)
    ensures Passes(digest, target, expected, learning) <==>
            (exists c :: target == Some(c) && expected != "" && (digest(c) != expected ==> learning))
  {
    if Passes(digest, target, expected, learning) {
      assert target == Some(target.value);
    }
  }

  /** What was learned is right: with the learned hash in place of the expected one the same file passes without learning. */
  lemma LearnedHashPasses(digest: Digest, c: DownloadLock.Content, expected: string)
    requires Passes(digest, Some(c), expected, true) && digest(c) != ""
    ensures Passes(digest, Some(c), digest(c), false)
    ensures forall other :: Passes(digest, Some(c), other, false) ==> other == digest(c)
  {
  }

  /** With LEARN_FILE unset, the Go tarball has the expected hash at every moment at which it exists. */
  lemma GoTarballHasExpectedHash(digest: Digest, expected: string, states: seq<DownloadLock.State>,
                                 steps: seq<DownloadLock.Step>, n: nat)
    requires var gate := GoTarballGate(digest, expected, false);
             DownloadLock.IsRun(gate, states, steps) && DownloadLock.NeverStrands(states, steps)
    requires n < |states| && states[n].final.Some?
    ensures digest(states[n].final.value) == expected
  {
    DownloadLock.FinalFileIsCompleteForever(GoTarballGate(digest, expected, false), states, steps, n, n);
  }
}
