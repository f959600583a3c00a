/** The `.update` folder: judging what an update left behind, and cleaning it up. */
module Cleanup {

  datatype Artifact =
    | Backup | DataSnapshot | Staging | FailedNew | Downloads
    | SwapManifest | HealthyToken | PhaseFile | TransactionJson
    | UpdaterLog

  const DIRECTORIES: seq<Artifact> := [Backup, DataSnapshot, Staging, FailedNew, Downloads]
  const FILES: seq<Artifact> := [SwapManifest, HealthyToken, PhaseFile, TransactionJson]

  /** The order artifacts are removed in. */
  const ORDER: seq<Artifact> := DIRECTORIES + FILES

  const ARTIFACTS: nat := |DIRECTORIES| + |FILES|

  /** What is there, and what the phase file says if it is there. */
  datatype Folder = Folder(present: set<Artifact>, text: string)

  /** `updatePhase`. */
  function Phase(f: Folder): string {
    if PhaseFile in f.present then f.text else ""
  }

  /** `interruptedUpdateExists`. */
  predicate Interrupted(f: Folder) {
    || (Phase(f) != "" && Phase(f) != "healthy" && Phase(f) != "rolled_back")
    || SwapManifest in f.present
  }

  predicate Completed(f: Folder) {
    Phase(f) == "healthy" || Phase(f) == "rolled_back"
  }

  /** The first `n` artifacts in the order they are removed in. */
  function Removed(n: nat): set<Artifact> {
    set k | 0 <= k < ARTIFACTS && k < n :: ORDER[k]
  }

  /** The folder after a clean-up that got through `n` removals, of which those in `stuck` failed. */
  function Cleaned(f: Folder, n: nat, stuck: set<Artifact>): Folder {
    f.(present := f.present - (Removed(n) - stuck))
  }

  function IndexOf(a: Artifact): (k: nat)
    requires a != UpdaterLog
    ensures k < ARTIFACTS && ORDER[k] == a
  {
    match a
    case Backup => 0
    case DataSnapshot => 1
    case Staging => 2
    case FailedNew => 3
    case Downloads => 4
    case SwapManifest => 5
    case HealthyToken => 6
    case PhaseFile => 7
    case TransactionJson => 8
  }

  lemma RemovedNext(n: nat)
    requires n < ARTIFACTS
    ensures Removed(n + 1) == Removed(n) + {ORDER[n]}
  {
  }

  /** The phase file goes eighth, after everything but `transaction.json`. */
  lemma RemovedIs(n: nat)
    ensures n < 8 ==> PhaseFile !in Removed(n)
    ensures n >= 8 ==> forall a :: a in Removed(n) <==> a != UpdaterLog && (a == TransactionJson ==> n >= 9)
  {
    var order := ORDER;
    assert order == [Backup, DataSnapshot, Staging, FailedNew, Downloads]
                    + [SwapManifest, HealthyToken, PhaseFile, TransactionJson];
    if n >= 8 {
      forall a ensures a in Removed(n) <==> a != UpdaterLog && (a == TransactionJson ==> n >= 9) {
        assert order[0] == Backup && order[1] == DataSnapshot && order[2] == Staging && order[3] == FailedNew;
        assert order[4] == Downloads && order[5] == SwapManifest && order[6] == HealthyToken;
        assert order[7] == PhaseFile && order[8] == TransactionJson;
        assert a != UpdaterLog ==> exists k :: 0 <= k < 9 && order[k] == a;
      }
    }
  }

  class UpdateFolder {
    var present: set<Artifact>
    var text: string

    constructor (f: Folder)
      ensures Contents() == f
    {
      present, text := f.present, f.text;
    }

    function Contents(): Folder
      reads this
    {
      Folder(present, text)
    }

    method Remove(a: Artifact, stuck: set<Artifact>)
      modifies this`present
      ensures present == if a in stuck then old(present) else old(present) - {a}
    {
      if a !in stuck {
        present := present - {a};
      }
    }

    /** `cleanCompletedUpdateArtifacts`: the process dies after `alive` removals. */
    method CleanCompletedUpdateArtifacts(alive: nat, stuck: set<Artifact>)
      modifies this`present
      ensures Contents() == Cleaned(old(Contents()), alive, stuck)
    {
      var i := 0;
      while i < |DIRECTORIES| && i < alive
        invariant i <= |DIRECTORIES| && i <= alive
        invariant present == old(present) - (Removed(i) - stuck)
      {
        RemovedNext(i);
        Remove(DIRECTORIES[i], stuck);
        i := i + 1;
      }
      var j := 0;
      while j < |FILES| && i + j < alive
        invariant j <= |FILES| && i + j <= alive && (i == |DIRECTORIES| || i == alive)
        invariant present == old(present) - (Removed(i + j) - stuck)
      {
        RemovedNext(i + j);
        Remove(FILES[j], stuck);
        j := j + 1;
      }
      if alive > ARTIFACTS {
        assert Removed(alive) == Removed(ARTIFACTS);
      }
    }
  }
}
