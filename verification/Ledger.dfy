/**
 The account ledger: an append-only list of keyed transactions with cached totals.
 A batch is applied all-new or recognised as all-stored; nothing else is accepted.
 */
module Ledger {
  import opened Wrappers

  type MemberId = nat
  type TaskId = nat
  type UpdateId = nat

  datatype AssignmentStatus =
    | Accepted
    | Submitted
    | RejectedPendingDispute
    | Disputed
    | Approved
    | PartiallyApproved
    | Rejected
    | Cancelled
    | NoShow
    | ReviewerRequired

  datatype Kind =
    | StartingGrant
    | TaskRewardReserved
    | TaskRewardEarned
    | TaskRewardRefunded
    | PartialTaskReward
    | CommunityTaskReward
    | Penalty
    | ManualCreditGrant
    | TransferSent
    | TransferReceived
    | AdminAdjustment
    | FraudReversal
    | ResolutionReversal

  /** The business identities from which idempotency keys are formatted. An assignment is
      named by its task and its position in that task's acceptance history. */
  datatype Key =
    | GrantKey(member: MemberId)
    | PublishReserve(task: TaskId)
    | EditReserve(task: TaskId, update: UpdateId)
    | EditRefund(task: TaskId, update: UpdateId)
    | TaskCancelRefund(task: TaskId)
    | CloseRefund(task: TaskId)
    | UnfilledRefund(task: TaskId)
    | SlotCancelRefund(task: TaskId, index: nat)
    | OutcomeReward(task: TaskId, index: nat, outcome: AssignmentStatus)
    | OutcomeRefund(task: TaskId, index: nat, outcome: AssignmentStatus)
    | CaseFull(task: TaskId, index: nat)
    | CasePartial(task: TaskId, index: nat)
    | CaseRemainder(task: TaskId, index: nat)
    | CaseRefund(task: TaskId, index: nat)
    | TransferOut(sender: MemberId, operation: string)
    | TransferIn(sender: MemberId, operation: string)
    | ManualKey(name: string)

  datatype Command = Command(
    kind: Kind,
    member: MemberId,
    key: Key,
    credit: int,
    experience: int,
    actor: Option<MemberId>,
    comment: string,
    reversed: Option<nat>)

  datatype Entry = Entry(command: Command, balanceAfter: int)

  datatype Book = Book(
    entries: seq<Entry>,
    credit: map<MemberId, int>,
    experience: map<MemberId, int>)

  datatype LedgerError =
    | EmptyBatch
    | InvalidCommand
    | DuplicateKeys
    | MixedBatch
    | PayloadConflict
    | UnknownMember
    | UnsoundReversal
    | InsufficientBalance

  const STARTING_GRANT_AMOUNT := 20

  predicate IsReversal(kind: Kind) {
    kind == FraudReversal || kind == ResolutionReversal
  }

  predicate IsTransfer(kind: Kind) {
    kind == TransferSent || kind == TransferReceived
  }

  predicate IsReward(kind: Kind) {
    kind == TaskRewardEarned || kind == PartialTaskReward || kind == CommunityTaskReward
  }

  /** The per-type delta rules, checked on every command before any state is read. */
  predicate DeltasValid(c: Command) {
    match c.kind
    case StartingGrant =>
      c.credit == STARTING_GRANT_AMOUNT && c.experience == 0 && c.key == GrantKey(c.member)
    case TaskRewardReserved => c.credit < 0 && c.experience == 0
    case TaskRewardEarned => c.credit > 0 && c.experience == c.credit
    case PartialTaskReward => c.credit > 0 && c.experience == c.credit
    case CommunityTaskReward => c.credit > 0 && c.experience == c.credit
    case TaskRewardRefunded => c.credit > 0 && c.experience == 0
    case Penalty => c.credit < 0 && c.experience == 0 && c.actor.Some?
    case ManualCreditGrant => c.credit > 0 && c.experience == 0 && c.actor.Some?
    case TransferSent =>
      c.credit < 0 && c.experience == 0 && c.actor == Some(c.member) && c.key.TransferOut?
    case TransferReceived =>
      c.credit > 0 && c.experience == 0 && c.actor.Some? && c.actor != Some(c.member)
      && c.key.TransferIn?
    case AdminAdjustment => (c.credit != 0 || c.experience != 0) && c.actor.Some?
    case FraudReversal => (c.credit != 0 || c.experience != 0) && c.reversed.Some? && c.actor.Some?
    case ResolutionReversal => (c.credit != 0 || c.experience != 0) && c.reversed.Some? && c.actor.Some?
  }

  predicate ValidCommand(c: Command) {
    && DeltasValid(c)
    && (!IsReversal(c.kind) ==> c.reversed.None?)
  }

  predicate DistinctKeys(cmds: seq<Command>) {
    forall i, j | 0 <= i < j < |cmds| :: cmds[i].key != cmds[j].key
  }

  predicate HasKey(entries: seq<Entry>, key: Key) {
    exists i | 0 <= i < |entries| :: entries[i].command.key == key
  }

  predicate Recorded(entries: seq<Entry>, c: Command) {
    exists i | 0 <= i < |entries| :: entries[i].command == c
  }

  predicate AllNew(entries: seq<Entry>, cmds: seq<Command>) {
    forall i | 0 <= i < |cmds| :: !HasKey(entries, cmds[i].key)
  }

  predicate AllStored(entries: seq<Entry>, cmds: seq<Command>) {
    forall i | 0 <= i < |cmds| :: HasKey(entries, cmds[i].key)
  }

  predicate AllRecorded(entries: seq<Entry>, cmds: seq<Command>) {
    forall i | 0 <= i < |cmds| :: Recorded(entries, cmds[i])
  }

  /** A source may be reversed when it exists, is neither a reversal nor a transfer leg, is
      inverted exactly on the same member, and no earlier entry has reversed it. */
  predicate ReversalSound(entries: seq<Entry>, c: Command) {
    c.reversed.Some? ==>
      var s := c.reversed.value;
      && s < |entries|
      && !IsReversal(entries[s].command.kind)
      && !IsTransfer(entries[s].command.kind)
      && c.member == entries[s].command.member
      && c.credit == -entries[s].command.credit
      && c.experience == -entries[s].command.experience
      && forall i | 0 <= i < |entries| :: entries[i].command.reversed != c.reversed
  }

  predicate ReversalsSound(entries: seq<Entry>, cmds: seq<Command>) {
    && (forall i | 0 <= i < |cmds| :: ReversalSound(entries, cmds[i]))
    && (forall i, j | 0 <= i < j < |cmds| && cmds[i].reversed.Some? ::
          cmds[i].reversed != cmds[j].reversed)
  }

  predicate MembersKnown(b: Book, cmds: seq<Command>) {
    forall i | 0 <= i < |cmds| :: cmds[i].member in b.credit && cmds[i].member in b.experience
  }

  /** Append one command and move both caches of its member, unless a total would go negative. */
  function Post(b: Book, c: Command): (r: Result<Book, LedgerError>)
    requires c.member in b.credit && c.member in b.experience
  {
    var credit := b.credit[c.member] + c.credit;
    var experience := b.experience[c.member] + c.experience;
    if credit < 0 || experience < 0 then Failure(InsufficientBalance)
    else Success(Book(b.entries + [Entry(c, credit)],
                      b.credit[c.member := credit],
                      b.experience[c.member := experience]))
  }

  function PostAll(b: Book, cmds: seq<Command>): (r: Result<Book, LedgerError>)
    requires MembersKnown(b, cmds)
    ensures r.Success? ==> r.value.credit.Keys == b.credit.Keys && r.value.experience.Keys == b.experience.Keys
    ensures r.Failure? ==> r.error == InsufficientBalance
  {
    if cmds == [] then Success(b)
    else
      var front := cmds[..|cmds| - 1];
      assert forall i | 0 <= i < |front| :: front[i] == cmds[i];
      match PostAll(b, front)
      case Failure(e) => Failure(e)
      case Success(p) => Post(p, cmds[|cmds| - 1])
  }

  /** The batch contract: validate, then recognise a stored batch, or post an entirely new one. */
  function Apply(b: Book, cmds: seq<Command>): (r: Result<Book, LedgerError>) {
    if cmds == [] then Failure(EmptyBatch)
    else if exists i | 0 <= i < |cmds| :: !ValidCommand(cmds[i]) then Failure(InvalidCommand)
    else if !DistinctKeys(cmds) then Failure(DuplicateKeys)
    else if !AllNew(b.entries, cmds) then
      if !AllStored(b.entries, cmds) then Failure(MixedBatch)
      else if !AllRecorded(b.entries, cmds) then Failure(PayloadConflict)
      else Success(b)
    else if !MembersKnown(b, cmds) then Failure(UnknownMember)
    else if !ReversalsSound(b.entries, cmds) then Failure(UnsoundReversal)
    else PostAll(b, cmds)
  }

  // ---------- sums over the ledger ----------

  function CreditSum(entries: seq<Entry>, m: MemberId): int {
    if entries == [] then 0
    else
      var last := entries[|entries| - 1].command;
      CreditSum(entries[..|entries| - 1], m) + if last.member == m then last.credit else 0
  }

  function ExperienceSum(entries: seq<Entry>, m: MemberId): int {
    if entries == [] then 0
    else
      var last := entries[|entries| - 1].command;
      ExperienceSum(entries[..|entries| - 1], m) + if last.member == m then last.experience else 0
  }

  function TotalCredit(entries: seq<Entry>): int {
    if entries == [] then 0
    else TotalCredit(entries[..|entries| - 1]) + entries[|entries| - 1].command.credit
  }

  /** What an entry counts as: a reversal counts as the kind it undoes. */
  function CountsAs(entries: seq<Entry>, i: nat): Kind
    requires i < |entries|
  {
    var c := entries[i].command;
    if c.reversed.Some? && c.reversed.value < |entries| then entries[c.reversed.value].command.kind else c.kind
  }

  ghost predicate UniqueKeys(entries: seq<Entry>) {
    forall i, j | 0 <= i < j < |entries| :: entries[i].command.key != entries[j].command.key
  }

  /** No member appears in the reconciliation report, and no total is negative. */
  ghost predicate Reconciled(b: Book) {
    && b.credit.Keys == b.experience.Keys
    && (forall m | m in b.credit :: b.credit[m] == CreditSum(b.entries, m) >= 0)
    && (forall m | m in b.experience :: b.experience[m] == ExperienceSum(b.entries, m) >= 0)
    && (forall i | 0 <= i < |b.entries| :: b.entries[i].command.member in b.credit)
  }

  /** Every stored balance snapshot is the member's total up to and including that entry. */
  ghost predicate BalancesAfter(entries: seq<Entry>) {
    forall i {:trigger entries[i].balanceAfter} | 0 <= i < |entries| ::
      entries[i].balanceAfter == CreditSum(entries[..i + 1], entries[i].command.member) >= 0
  }

  ghost predicate ReversesEarlier(entries: seq<Entry>, i: nat)
    requires i < |entries| && entries[i].command.reversed.Some?
  {
    var s := entries[i].command.reversed.value;
    && s < i
    && !IsReversal(entries[s].command.kind) && !IsTransfer(entries[s].command.kind)
    && entries[s].command.member == entries[i].command.member
    && entries[s].command.credit + entries[i].command.credit == 0
    && entries[s].command.experience + entries[i].command.experience == 0
  }

  /** Each reversal exactly undoes an earlier, reversible entry, and no entry is undone twice. */
  ghost predicate ReversalsWellFormed(entries: seq<Entry>) {
    && (forall i {:trigger entries[i].command.reversed} |
          0 <= i < |entries| && entries[i].command.reversed.Some? :: ReversesEarlier(entries, i))
    && (forall i, j {:trigger entries[i].command.reversed, entries[j].command.reversed} |
          0 <= i < j < |entries| && entries[i].command.reversed.Some? ::
          entries[i].command.reversed != entries[j].command.reversed)
  }

  ghost predicate AllValid(entries: seq<Entry>) {
    forall i | 0 <= i < |entries| :: ValidCommand(entries[i].command)
  }

  ghost predicate BookInv(b: Book) {
    && UniqueKeys(b.entries)
    && Reconciled(b)
    && BalancesAfter(b.entries)
    && ReversalsWellFormed(b.entries)
    && AllValid(b.entries)
  }

  /** The commands of a batch, in order, are exactly what the ledger grew by. */
  ghost predicate Grew(before: seq<Entry>, after: seq<Entry>, cmds: seq<Command>) {
    && |after| == |before| + |cmds|
    && after[..|before|] == before
    && forall i | 0 <= i < |cmds| :: after[|before| + i].command == cmds[i]
  }

  /** A batch that has passed every check made before anything is written. */
  ghost predicate Postable(b: Book, cmds: seq<Command>) {
    && MembersKnown(b, cmds)
    && (forall i | 0 <= i < |cmds| :: ValidCommand(cmds[i]))
    && DistinctKeys(cmds) && AllNew(b.entries, cmds) && ReversalsSound(b.entries, cmds)
  }

  lemma FrontPostable(b: Book, cmds: seq<Command>)
    requires cmds != [] && Postable(b, cmds)
    ensures Postable(b, cmds[..|cmds| - 1]) && MembersKnown(b, cmds[..|cmds| - 1])
    ensures ValidCommand(cmds[|cmds| - 1])
  {
    var front := cmds[..|cmds| - 1];
    assert forall i | 0 <= i < |front| :: front[i] == cmds[i];
  }

  // ---------- one posted command ----------

  lemma PostKeepsTotals(b: Book, c: Command)
    requires Reconciled(b) && BalancesAfter(b.entries)
    requires c.member in b.credit && c.member in b.experience
    requires Post(b, c).Success?
    ensures Reconciled(Post(b, c).value) && BalancesAfter(Post(b, c).value.entries)
  {
    PostKeepsSums(b, c);
    PostKeepsSnapshots(b, c);
  }

  lemma PostKeepsSums(b: Book, c: Command)
    requires Reconciled(b) && c.member in b.credit && c.member in b.experience && Post(b, c).Success?
    ensures Reconciled(Post(b, c).value)
  {
    var p := Post(b, c).value;
    assert p.entries[..|p.entries| - 1] == b.entries;
  }

  lemma PostKeepsSnapshots(b: Book, c: Command)
    requires Reconciled(b) && BalancesAfter(b.entries)
    requires c.member in b.credit && c.member in b.experience && Post(b, c).Success?
    ensures BalancesAfter(Post(b, c).value.entries)
  {
    var p := Post(b, c).value;
    assert p.entries[..|p.entries| - 1] == b.entries;
    forall i {:trigger p.entries[i].balanceAfter} | 0 <= i < |p.entries|
      ensures p.entries[i].balanceAfter == CreditSum(p.entries[..i + 1], p.entries[i].command.member) >= 0
    {
      if i < |b.entries| {
        assert p.entries[i] == b.entries[i];
        assert p.entries[..i + 1] == b.entries[..i + 1];
      } else {
        assert p.entries[..i + 1] == p.entries;
      }
    }
  }

  lemma PostKeepsReversals(entries: seq<Entry>, c: Command, e: Entry)
    requires ReversalsWellFormed(entries) && ReversalSound(entries, c) && e.command == c
    ensures ReversalsWellFormed(entries + [e])
  {
    var after := entries + [e];
    forall i {:trigger after[i].command.reversed} | 0 <= i < |after| && after[i].command.reversed.Some?
      ensures ReversesEarlier(after, i)
    {
      if i < |entries| {
        assert after[i] == entries[i];
        assert ReversesEarlier(entries, i);
      }
    }
    forall i, j {:trigger after[i].command.reversed, after[j].command.reversed} |
      0 <= i < j < |after| && after[i].command.reversed.Some?
      ensures after[i].command.reversed != after[j].command.reversed
    {
      assert after[i] == entries[i];
      if j < |entries| {
        assert after[j] == entries[j];
      }
    }
  }

  lemma PostKeepsKeys(entries: seq<Entry>, e: Entry)
    requires UniqueKeys(entries) && AllValid(entries)
    requires ValidCommand(e.command) && !HasKey(entries, e.command.key)
    ensures UniqueKeys(entries + [e]) && AllValid(entries + [e])
  {
    var after := entries + [e];
    forall i, j | 0 <= i < j < |after|
      ensures after[i].command.key != after[j].command.key
    {
      assert after[i] == entries[i];
      if j < |entries| {
        assert after[j] == entries[j];
      }
    }
    forall i | 0 <= i < |after|
      ensures ValidCommand(after[i].command)
    {
      if i < |entries| {
        assert after[i] == entries[i];
      }
    }
  }

  lemma PostKeepsInv(b: Book, c: Command)
    requires BookInv(b) && ValidCommand(c)
    requires c.member in b.credit && c.member in b.experience
    requires !HasKey(b.entries, c.key)
    requires ReversalSound(b.entries, c)
    requires Post(b, c).Success?
    ensures BookInv(Post(b, c).value)
  {
    hide Reconciled, BalancesAfter, ReversalsWellFormed, UniqueKeys, AllValid, HasKey, ReversalSound, DeltasValid;
    var e := Entry(c, b.credit[c.member] + c.credit);
    PostKeepsTotals(b, c);
    PostKeepsReversals(b.entries, c, e);
    PostKeepsKeys(b.entries, e);
  }

  /** A command checked against the ledger before its batch may still be posted after the
      earlier commands of that batch. */
  lemma StillPostable(b: Book, mid: seq<Entry>, cmds: seq<Command>)
    requires cmds != [] && Postable(b, cmds) && Grew(b.entries, mid, cmds[..|cmds| - 1])
    ensures !HasKey(mid, cmds[|cmds| - 1].key)
    ensures ReversalSound(mid, cmds[|cmds| - 1])
  {
    var before, front, c := b.entries, cmds[..|cmds| - 1], cmds[|cmds| - 1];
    forall i | 0 <= i < |mid|
      ensures mid[i].command.key != c.key
      ensures c.reversed.Some? ==> mid[i].command.reversed != c.reversed
    {
      if i < |before| {
        assert mid[i] == mid[..|before|][i] == before[i];
      } else {
        var k := i - |before|;
        assert mid[|before| + k].command == front[k] == cmds[k];
      }
    }
    if c.reversed.Some? {
      assert mid[c.reversed.value] == mid[..|before|][c.reversed.value] == before[c.reversed.value];
    }
  }

  lemma {:induction false} PostAllKeepsInv(b: Book, cmds: seq<Command>)
    requires BookInv(b) && Postable(b, cmds)
    requires PostAll(b, cmds).Success?
    ensures BookInv(PostAll(b, cmds).value)
    ensures Grew(b.entries, PostAll(b, cmds).value.entries, cmds)
  {
    hide BookInv, Postable;
    if cmds != [] {
      var front, c := cmds[..|cmds| - 1], cmds[|cmds| - 1];
      FrontPostable(b, cmds);
      PostAllKeepsInv(b, front);
      var p := PostAll(b, front).value;
      StillPostable(b, p.entries, cmds);
      PostKeepsInv(p, c);
      GrewByOne(b.entries, p.entries, front, Post(p, c).value.entries[|p.entries|], cmds);
    }
  }

  lemma GrewByOne(before: seq<Entry>, mid: seq<Entry>, front: seq<Command>, e: Entry, cmds: seq<Command>)
    requires Grew(before, mid, front) && cmds == front + [e.command]
    ensures Grew(before, mid + [e], cmds)
  {
    var after := mid + [e];
    assert after[..|before|] == mid[..|before|];
    forall i | 0 <= i < |cmds|
      ensures after[|before| + i].command == cmds[i]
    {
      if i < |front| {
        assert after[|before| + i] == mid[|before| + i];
      }
    }
  }

  /** A batch that takes from nobody cannot fail for lack of balance. */
  lemma {:induction false} GivingBatchPosts(b: Book, cmds: seq<Command>)
    requires MembersKnown(b, cmds)
    requires forall i | 0 <= i < |cmds| :: cmds[i].credit >= 0 && cmds[i].experience >= 0
    requires forall m | m in b.credit :: b.credit[m] >= 0
    requires forall m | m in b.experience :: b.experience[m] >= 0
    ensures PostAll(b, cmds).Success?
    ensures forall m | m in b.credit :: PostAll(b, cmds).value.credit[m] >= 0
    ensures forall m | m in b.experience :: PostAll(b, cmds).value.experience[m] >= 0
  {
    if cmds != [] {
      var front := cmds[..|cmds| - 1];
      assert forall i | 0 <= i < |front| :: front[i] == cmds[i];
      GivingBatchPosts(b, front);
    }
  }

  // ---------- the batch contract ----------

  /** What a batch may do to the ledger: nothing, or append exactly its commands, all new. */
  lemma ApplyOutcome(b: Book, cmds: seq<Command>)
    requires BookInv(b)
    requires Apply(b, cmds).Success?
    ensures BookInv(Apply(b, cmds).value)
    ensures AllRecorded(Apply(b, cmds).value.entries, cmds)
    ensures AllNew(b.entries, cmds) ==> Grew(b.entries, Apply(b, cmds).value.entries, cmds)
    ensures !AllNew(b.entries, cmds) ==> Apply(b, cmds).value == b
    ensures Apply(b, cmds).value.credit.Keys == b.credit.Keys
    ensures b.entries <= Apply(b, cmds).value.entries
  {
    hide BookInv, ValidCommand, HasKey, ReversalSound, ReversalsSound, DistinctKeys, PostAll;
    if AllNew(b.entries, cmds) {
      PostAllKeepsInv(b, cmds);
      var p := PostAll(b, cmds).value;
      forall i | 0 <= i < |cmds|
        ensures Recorded(p.entries, cmds[i])
      {
        assert p.entries[|b.entries| + i].command == cmds[i];
      }
    }
  }

  lemma StoredBatchReplays(later: Book, cmds: seq<Command>)
    requires cmds != [] && DistinctKeys(cmds)
    requires forall i | 0 <= i < |cmds| :: ValidCommand(cmds[i])
    requires AllRecorded(later.entries, cmds)
    ensures Apply(later, cmds) == Success(later)
  {
    hide ValidCommand;
    forall i | 0 <= i < |cmds|
      ensures HasKey(later.entries, cmds[i].key)
    {
      assert Recorded(later.entries, cmds[i]);
    }
    assert HasKey(later.entries, cmds[0].key);
    assert !AllNew(later.entries, cmds) && AllStored(later.entries, cmds);
  }

  lemma RecordedStays(entries: seq<Entry>, later: seq<Entry>, cmds: seq<Command>)
    requires entries <= later && AllRecorded(entries, cmds)
    ensures AllRecorded(later, cmds)
  {
    forall i | 0 <= i < |cmds|
      ensures Recorded(later, cmds[i])
    {
      var k :| 0 <= k < |entries| && entries[k].command == cmds[i];
      assert later[k].command == cmds[i];
    }
  }

  /** Delivering a committed batch again, however much the ledger has grown since, moves nothing. */
  lemma RedeliveryMovesNothing(b: Book, cmds: seq<Command>, later: Book)
    requires BookInv(b) && Apply(b, cmds).Success?
    requires Apply(b, cmds).value.entries <= later.entries
    ensures Apply(later, cmds) == Success(later)
  {
    hide BookInv, ValidCommand;
    ApplyOutcome(b, cmds);
    RecordedStays(Apply(b, cmds).value.entries, later.entries, cmds);
    StoredBatchReplays(later, cmds);
  }

  /** Reusing any stored key with a different payload is refused, whatever else is in the batch. */
  lemma ChangedPayloadIsRefused(b: Book, cmds: seq<Command>, i: nat)
    requires BookInv(b) && i < |cmds|
    requires HasKey(b.entries, cmds[i].key) && !Recorded(b.entries, cmds[i])
    ensures Apply(b, cmds).Failure?
  {
  }

  // ---------- reversals ----------

  lemma NothingReversed(entries: seq<Entry>, cmds: seq<Command>)
    requires forall i | 0 <= i < |cmds| :: cmds[i].reversed.None?
    ensures ReversalsSound(entries, cmds)
  {
  }

  /** If the entry is a reversal, it takes one earlier entry of the same member back to zero, which
      is no reversal and no leg of a transfer, and no other entry does the same. */
  ghost predicate UndoesOnce(entries: seq<Entry>, i: nat)
    requires i < |entries|
  {
    entries[i].command.reversed.Some? ==>
      var s := entries[i].command.reversed.value;
      && s < i
      && entries[s].command.member == entries[i].command.member
      && entries[s].command.credit + entries[i].command.credit == 0
      && entries[s].command.experience + entries[i].command.experience == 0
      && !IsTransfer(entries[s].command.kind) && !IsReversal(entries[s].command.kind)
      && forall j | 0 <= j < |entries| && j != i :: entries[j].command.reversed != Some(s)
  }

  lemma SoundUndoes(b: Book, i: nat)
    requires BookInv(b) && i < |b.entries|
    ensures UndoesOnce(b.entries, i)
  {
    if b.entries[i].command.reversed.Some? {
      assert ReversesEarlier(b.entries, i);
    }
  }

  /** The command that undoes an entry. */
  function Undoing(kind: Kind, s: nat, c: Command, key: Key, actor: MemberId, comment: string): Command {
    Command(kind, c.member, key, -c.credit, -c.experience, Some(actor), comment, Some(s))
  }

  /** Under a new key an entry can be undone exactly if it is neither a reversal nor a leg of a transfer,
      has not been undone before, moved something, and its member still has what it brought; then both
      of his totals are back by as much. */
  lemma UndoGoesThrough(b: Book, kind: Kind, s: nat, key: Key, actor: MemberId, comment: string)
    requires BookInv(b) && IsReversal(kind) && s < |b.entries| && !HasKey(b.entries, key)
    ensures var c := b.entries[s].command;
            var m, u := c.member, Undoing(kind, s, c, key, actor, comment);
            && m in b.credit && m in b.experience
            && (Apply(b, [u]).Success? <==>
                  && c.reversed.None? && !IsTransfer(c.kind)
                  && (forall i | 0 <= i < |b.entries| :: b.entries[i].command.reversed != Some(s))
                  && (c.credit != 0 || c.experience != 0)
                  && b.credit[m] >= c.credit && b.experience[m] >= c.experience)
            && (Apply(b, [u]).Success? ==>
                  && Apply(b, [u]).value.credit == b.credit[m := b.credit[m] - c.credit]
                  && Apply(b, [u]).value.experience == b.experience[m := b.experience[m] - c.experience])
  {
    hide *;
    var u := Undoing(kind, s, b.entries[s].command, key, actor, comment);
    UndoFacts(b, kind, s, key, actor, comment);
    UndoIsSound(b.entries, u, s);
    OneApplies(b, u);
    PostOutcome(b, u);
  }

  lemma UndoFacts(b: Book, kind: Kind, s: nat, key: Key, actor: MemberId, comment: string)
    requires BookInv(b) && IsReversal(kind) && s < |b.entries|
    ensures var c := b.entries[s].command;
            var u := Undoing(kind, s, c, key, actor, comment);
            && c.member in b.credit && c.member in b.experience
            && (ValidCommand(u) <==> c.credit != 0 || c.experience != 0)
            && (c.reversed.Some? <==> IsReversal(c.kind))
            && u == Undoing(u.kind, s, c, u.key, u.actor.value, u.comment) && u.key == key && u.actor.Some?
            && u.member == c.member && u.credit == -c.credit && u.experience == -c.experience
  {
    assert b.entries[s].command.member in b.credit.Keys && ValidCommand(b.entries[s].command);
    hide BookInv;
  }

  lemma PostOutcome(b: Book, u: Command)
    requires u.member in b.credit && u.member in b.experience
    ensures Post(b, u).Success? <==> b.credit[u.member] + u.credit >= 0 && b.experience[u.member] + u.experience >= 0
    ensures Post(b, u).Success? ==>
              && Post(b, u).value.credit == b.credit[u.member := b.credit[u.member] + u.credit]
              && Post(b, u).value.experience == b.experience[u.member := b.experience[u.member] + u.experience]
  {
  }

  lemma UndoIsSound(entries: seq<Entry>, u: Command, s: nat)
    requires s < |entries| && u.actor.Some?
    requires u == Undoing(u.kind, s, entries[s].command, u.key, u.actor.value, u.comment)
    ensures ReversalSound(entries, u) <==>
              && !IsReversal(entries[s].command.kind) && !IsTransfer(entries[s].command.kind)
              && forall i | 0 <= i < |entries| :: entries[i].command.reversed != Some(s)
  {
  }

  /** The batch contract for a single new command. */
  lemma OneApplies(b: Book, u: Command)
    requires !HasKey(b.entries, u.key) && u.member in b.credit && u.member in b.experience
    ensures Apply(b, [u])
         == if !ValidCommand(u) then Failure(InvalidCommand)
            else if !ReversalSound(b.entries, u) then Failure(UnsoundReversal)
            else Post(b, u)
  {
    hide ValidCommand, ReversalSound, HasKey, Post;
    assert [u][..0] == [] && [u][0] == u;
    assert PostAll(b, []) == Success(b);
    assert ReversalsSound(b.entries, [u]) <==> ReversalSound(b.entries, u);
    assert AllNew(b.entries, [u]);
    assert MembersKnown(b, [u]);
  }

  /** What a kind stands for: who loses, who gains, and which entries change experience. */
  predicate MeansItsKind(c: Command) {
    match c.kind
    case TaskRewardReserved => c.credit < 0 == c.experience
    case Penalty => c.credit < 0 == c.experience && c.actor.Some?
    case TransferSent => c.credit < 0 == c.experience && c.actor == Some(c.member)
    case StartingGrant => c.credit == 20 && c.experience == 0 && c.key == GrantKey(c.member)
    case TaskRewardRefunded => c.credit > 0 == c.experience
    case ManualCreditGrant => c.credit > 0 == c.experience && c.actor.Some?
    case TransferReceived => c.credit > 0 == c.experience && c.actor.Some? && c.actor != Some(c.member)
    case AdminAdjustment => c.actor.Some?
    case FraudReversal => c.actor.Some? && c.reversed.Some?
    case ResolutionReversal => c.actor.Some? && c.reversed.Some?
    case _ => c.credit == c.experience > 0
  }
}
