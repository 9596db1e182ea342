/** What the catalog does to one vBucket's map row, and the program counter of the tick
    or abort that holds the migration latch. */
module MigrationSpec {
  import opened Basics

  type ShardId = string

  datatype Status = NoMigration | Backfilling | Cutover | Aborting

  /** `target` means something only while a migration is under way. */
  datatype MapRow = MapRow(owner: ShardId, status: Status, target: ShardId, cleanup: Option<ShardId>)

  datatype StartResult = Started | NotMapped | MigrationInProgress | CleanupPending | ProvenanceIncomplete | SameShard | TargetNotActive

  // ---- the conditional updates ----

  /** startMigration's claim. It does not look at the owner again. */
  function Claimed(row: MapRow, target: ShardId): MapRow {
    if row.status == NoMigration && row.cleanup.None? then row.(status := Backfilling, target := target) else row
  }

  function CutoverEntered(row: MapRow, target: ShardId): MapRow {
    if row.status == Backfilling && row.target == target then row.(status := Cutover) else row
  }

  function Rewound(row: MapRow, target: ShardId): MapRow {
    if row.status == Cutover && row.target == target then row.(status := Backfilling) else row
  }

  predicate StillCutover(row: MapRow, source: ShardId, target: ShardId) {
    row.status == Cutover && row.owner == source && row.target == target
  }

  /** The flip and the arming of the cleanup are one update. */
  function Flipped(row: MapRow, source: ShardId, target: ShardId): MapRow {
    if StillCutover(row, source, target) then MapRow(target, NoMigration, target, Some(source)) else row
  }

  function CleanedUp(row: MapRow): MapRow { row.(cleanup := None) }

  function AbortBegun(row: MapRow): MapRow { if row.status == NoMigration then row else row.(status := Aborting) }

  function AbortDone(row: MapRow): MapRow { row.(status := NoMigration) }
}

/** The vbucket_map row of one vBucket as the catalog object holds it. */
module MigrationObject {
  import opened Basics
  import opened MigrationSpec

  class VbucketMapRow {
    var owner: ShardId
    var status: Status
    var target: ShardId
    var cleanup: Option<ShardId>

    constructor (shard: ShardId)
      ensures View() == MapRow(shard, NoMigration, shard, None)
    {
      owner, status, target, cleanup := shard, NoMigration, shard, None;
    }

    function View(): MapRow
      reads this
    {
      MapRow(owner, status, target, cleanup)
    }

    /** The part of startMigration before the awaited provenance scan. `checked` is the
        owner that the later comparison with the target will use. */
    method CheckStart() returns (refusal: Option<StartResult>, checked: ShardId)
      ensures refusal == None <==> status == NoMigration && cleanup.None?
      ensures refusal == Some(MigrationInProgress) <==> status != NoMigration
      ensures refusal.Some? ==> refusal.value in {MigrationInProgress, CleanupPending}
      ensures checked == owner
    {
      checked := owner;
      if status != NoMigration { return Some(MigrationInProgress), checked; }
      if cleanup.Some? { return Some(CleanupPending), checked; }
      return None, checked;
    }

    /** The part after it, one uninterrupted stretch: a migration starts only from a row
        with neither a migration nor a pending cleanup, and never moves the owner. */
    method Claim(checked: ShardId, requested: ShardId, unattributed: nat, targetActive: bool) returns (r: StartResult)
      modifies this
      ensures r.Started? <==>
        (unattributed == 0 && requested != checked && targetActive && old(status) == NoMigration && old(cleanup).None?)
      ensures View() == if r.Started? then Claimed(old(View()), requested) else old(View())
      ensures owner == old(owner) && cleanup == old(cleanup)
      ensures r.MigrationInProgress? ==> old(status) != NoMigration || old(cleanup).Some?
    {
      if unattributed > 0 { return ProvenanceIncomplete; }
      if requested == checked { return SameShard; }
      if !targetActive { return TargetNotActive; }
      if status != NoMigration || cleanup.Some? { return MigrationInProgress; }
      status, target := Backfilling, requested;
      return Started;
    }

    method EnterCutover(expected: ShardId) returns (changed: bool)
      modifies this
      ensures View() == CutoverEntered(old(View()), expected)
      ensures changed <==> old(status) == Backfilling && old(target) == expected
      ensures if changed then status == Cutover else View() == old(View())
    {
      changed := status == Backfilling && target == expected;
      if changed { status := Cutover; }
    }

    method Rewind(expected: ShardId)
      modifies this
      ensures View() == Rewound(old(View()), expected)
      ensures if old(status) == Cutover && old(target) == expected then status == Backfilling else View() == old(View())
    {
      if status == Cutover && target == expected { status := Backfilling; }
    }

    /** Whoever is named before the flip is the one owed a cleanup after it. */
    method Flip(source: ShardId, expected: ShardId) returns (flipped: bool)
      modifies this
      ensures View() == Flipped(old(View()), source, expected)
      ensures flipped <==> StillCutover(old(View()), source, expected)
      ensures flipped ==> owner == expected && cleanup == Some(source) && status == NoMigration
    {
      flipped := status == Cutover && owner == source && target == expected;
      if flipped { owner, status, cleanup := expected, NoMigration, Some(source); }
    }

    method ClearCleanup()
      modifies this
      ensures View() == CleanedUp(old(View()))
    {
      cleanup := None;
    }

    method BeginAbort() returns (accepted: bool)
      modifies this
      ensures accepted <==> old(status) != NoMigration
      ensures View() == AbortBegun(old(View()))
    {
      accepted := status != NoMigration;
      if accepted { status := Aborting; }
    }

    method FinishAbort()
      modifies this
      ensures View() == AbortDone(old(View()))
    {
      status := NoMigration;
    }
  }
}
