/** The coordinator's durable states and the transitions its contract allows. */
module TransactionContract {

  datatype TxState =
    | New | ManifestReserving | Preparing | Prepared
    | AbortDecided | Aborting | AbortedPendingManifestCancel | Aborted
    | CommitDeciding | CommitDecided | CommitPendingManifest
    | ManifestRegistered | Committing | CommittedPendingAck | Committed
    | Quarantined

  datatype Decision = Undecided | DecidedAbort | DecidedCommit | DecidedQuarantined

  function DirectTransitions(from: TxState): set<TxState> {
    match from
    case New => {ManifestReserving, Preparing, Quarantined}
    case ManifestReserving => {Preparing, AbortDecided, Aborted, AbortedPendingManifestCancel, Quarantined}
    case Preparing => {AbortDecided, Prepared, Quarantined}
    case AbortDecided => {Aborting, Quarantined}
    case Aborting => {Aborted, AbortedPendingManifestCancel, Quarantined}
    case Aborted => {Quarantined}
    case AbortedPendingManifestCancel => {Aborted, Quarantined}
    case Prepared => {AbortDecided, CommitDeciding, CommitDecided, Quarantined}
    case CommitDeciding => {CommitPendingManifest, ManifestRegistered, Quarantined}
    case CommitDecided => {CommitPendingManifest, ManifestRegistered, Quarantined}
    case CommitPendingManifest => {ManifestRegistered, Quarantined}
    case ManifestRegistered => {Committing, Quarantined}
    case Committing => {CommittedPendingAck, Committed, Quarantined}
    case CommittedPendingAck => {Committed, Quarantined}
    case Committed => {Quarantined}
    case Quarantined => {ManifestRegistered, Aborted}
  }

  predicate Allowed(from: TxState, to: TxState) { from == to || to in DirectTransitions(from) }

  predicate CommitDecidedOrLater(s: TxState) {
    s in {CommitDecided, CommitDeciding, CommitPendingManifest, ManifestRegistered, Committing, CommittedPendingAck, Committed}
  }

  predicate AbortDecidedOrLater(s: TxState) {
    s in {AbortDecided, Aborting, AbortedPendingManifestCancel, Aborted}
  }

  function DecisionFor(s: TxState): Decision {
    if CommitDecidedOrLater(s) then DecidedCommit
    else if AbortDecidedOrLater(s) then DecidedAbort
    else if s == Quarantined then DecidedQuarantined
    else Undecided
  }

  /** States in which the coordinator tells a shard that the commit is authorized. */
  predicate CommitAuthorized(s: TxState) {
    s in {ManifestRegistered, Committing, CommittedPendingAck, Committed}
  }

  /** Decided, with work still owed to participants or to the manifest. */
  predicate DecidedUnfinished(s: TxState) {
    s in {AbortDecided, Aborting, AbortedPendingManifestCancel,
          CommitDeciding, CommitPendingManifest, ManifestRegistered, Committing, CommittedPendingAck}
  }

  /** Without a quarantine, no path of transitions leads from one decision to the other. */
  lemma {:induction false} DecisionIsFinal(path: seq<TxState>)
    requires |path| > 0 && Quarantined !in path
    requires forall i | 0 <= i < |path| - 1 :: Allowed(path[i], path[i + 1])
    ensures CommitDecidedOrLater(path[0]) ==> CommitDecidedOrLater(path[|path| - 1])
    ensures AbortDecidedOrLater(path[0]) ==> AbortDecidedOrLater(path[|path| - 1])
  {
    if |path| > 1 {
      var n := |path| - 1;
      DecisionIsFinal(path[..n]);
      assert path[..n][n - 1] == path[n - 1] && Allowed(path[n - 1], path[n]) && path[n] != Quarantined;
    }
  }
}
