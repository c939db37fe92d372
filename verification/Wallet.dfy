/**
 Peer transfers: two legs of one batch under one sender-scoped operation identity, recorded
 together with a transfer row.
 */
module Wallet {
  import opened Wrappers
  import opened Ledger
  import opened Text

  const MAX_TRANSFER := 1_000_000_000
  const MAX_OPERATION_KEY := 128
  const MAX_COMMENT := 140
  const TRANSFER_THRESHOLD := 50

  datatype Request = Request(recipient: MemberId, amount: int, operation: string, comment: Option<string>)

  datatype Row = Row(recipient: MemberId, amount: int, comment: string, outgoing: nat, incoming: nat)

  /** Name-based identities are taken to be injective: a transfer is named by sender and key. */
  type TransferId = (MemberId, string)

  datatype Accounts = Accounts(book: Book, active: set<MemberId>, transfers: map<TransferId, Row>)

  datatype TransferError =
    | SelfTransfer
    | InvalidAmount
    | InvalidOperationKey
    | CommentTooLong
    | InactiveSender
    | InactiveRecipient
    | TransfersLocked
    | Ledger(error: LedgerError)

  // ---------- normalisation and validation ----------

  function Note(comment: Option<string>): string {
    match comment
    case None => ""
    case Some(c) => Strip(c)
  }

  function Legs(sender: MemberId, r: Request): seq<Command> {
    [Command(TransferSent, sender, TransferOut(sender, r.operation), -r.amount, 0, Some(sender), Note(r.comment), None),
     Command(TransferReceived, r.recipient, TransferIn(sender, r.operation), r.amount, 0, Some(sender), Note(r.comment), None)]
  }

  function TransferCommands(sender: MemberId, r: Request): Result<seq<Command>, TransferError> {
    if sender == r.recipient then Failure(SelfTransfer)
    else if !(1 <= r.amount <= MAX_TRANSFER) then Failure(InvalidAmount)
    else if Strip(r.operation) == [] || |r.operation| > MAX_OPERATION_KEY then Failure(InvalidOperationKey)
    else if |Note(r.comment)| > MAX_COMMENT then Failure(CommentTooLong)
    else Success(Legs(sender, r))
  }

  // ---------- the transfer transaction ----------

  /** Credits earned by finished tasks among the first `n` entries, reversals taken off. */
  function Earned(entries: seq<Entry>, m: MemberId, n: nat): int
    requires n <= |entries|
  {
    if n == 0 then 0
    else
      Earned(entries, m, n - 1)
      + if entries[n - 1].command.member == m && IsReward(CountsAs(entries, n - 1)) then entries[n - 1].command.credit
        else 0
  }

  function Transfer(w: Accounts, sender: MemberId, r: Request): Result<Accounts, TransferError> {
    match TransferCommands(sender, r)
    case Failure(e) => Failure(e)
    case Success(legs) =>
      var applied := Apply(w.book, legs);
      if applied.Failure? && applied.error != InsufficientBalance then Failure(Ledger(applied.error))
      else if sender !in w.active then Failure(InactiveSender)
      else if (sender, r.operation) in w.transfers then Success(w)
      else if r.recipient !in w.active then Failure(InactiveRecipient)
      else if Earned(w.book.entries, sender, |w.book.entries|) < TRANSFER_THRESHOLD then Failure(TransfersLocked)
      else
        match applied
        case Failure(e) => Failure(Ledger(e))
        case Success(b) =>
          var n := |w.book.entries|;
          Success(w.(book := b,
                     transfers := w.transfers[(sender, r.operation) := Row(r.recipient, r.amount, Note(r.comment), n, n + 1)]))
  }

  datatype Op =
    | Send(sender: MemberId, request: Request)
    | Join(member: MemberId)
    | Activate(member: MemberId)
    | Deactivate(member: MemberId)
    | Batch(commands: seq<Command>)

  predicate NoTransfers(cmds: seq<Command>) {
    forall i | 0 <= i < |cmds| :: !IsTransfer(cmds[i].kind) && !cmds[i].key.TransferOut? && !cmds[i].key.TransferIn?
  }

  function After(w: Accounts, op: Op): Accounts {
    match op
    case Send(sender, r) => (match Transfer(w, sender, r) case Success(v) => v case Failure(_) => w)
    case Join(m) =>
      if m in w.book.credit then w
      else w.(book := w.book.(credit := w.book.credit[m := 0], experience := w.book.experience[m := 0]))
    case Activate(m) => w.(active := w.active + {m})
    case Deactivate(m) => w.(active := w.active - {m})
    case Batch(cmds) =>
      if !NoTransfers(cmds) then w else (match Apply(w.book, cmds) case Success(b) => w.(book := b) case Failure(_) => w)
  }

  function Run(w: Accounts, ops: seq<Op>): Accounts {
    if ops == [] then w else After(Run(w, ops[..|ops| - 1]), ops[|ops| - 1])
  }

  // ---------- the database's pair rule ----------

  /** The row and its two ledger entries agree in every column the trigger compares. */
  ghost predicate PairRule(entries: seq<Entry>, id: TransferId, row: Row) {
    && row.amount > 0 && id.0 != row.recipient
    && row.outgoing < |entries| && row.incoming < |entries| && row.outgoing != row.incoming
    && entries[row.outgoing].command
       == Command(TransferSent, id.0, TransferOut(id.0, id.1), -row.amount, 0, Some(id.0), row.comment, None)
    && entries[row.incoming].command
       == Command(TransferReceived, row.recipient, TransferIn(id.0, id.1), row.amount, 0, Some(id.0), row.comment, None)
  }

  /** Every leg on the ledger belongs to a recorded pair. */
  ghost predicate LegOfPair(entries: seq<Entry>, transfers: map<TransferId, Row>, n: nat)
    requires n < |entries|
  {
    var c := entries[n].command;
    && (IsTransfer(c.kind) <==> c.key.TransferOut? || c.key.TransferIn?)
    && (c.key.TransferOut? ==> (c.key.sender, c.key.operation) in transfers
                               && transfers[(c.key.sender, c.key.operation)].outgoing == n)
    && (c.key.TransferIn? ==> (c.key.sender, c.key.operation) in transfers
                              && transfers[(c.key.sender, c.key.operation)].incoming == n)
  }

  ghost predicate Paired(entries: seq<Entry>, transfers: map<TransferId, Row>) {
    && (forall id | id in transfers :: PairRule(entries, id, transfers[id]))
    && (forall n | 0 <= n < |entries| :: LegOfPair(entries, transfers, n))
  }

  ghost predicate WalletInv(w: Accounts) {
    BookInv(w.book) && Paired(w.book.entries, w.transfers)
  }

  lemma LegsAreValid(sender: MemberId, r: Request)
    requires TransferCommands(sender, r).Success?
    ensures DistinctKeys(Legs(sender, r))
    ensures ValidCommand(Legs(sender, r)[0]) && ValidCommand(Legs(sender, r)[1])
  {
    hide Strip, Note;
  }

  /** With every leg on the ledger paired, an operation is recorded exactly when its legs are. */
  lemma LegsStoredIffRecorded(w: Accounts, sender: MemberId, r: Request)
    requires WalletInv(w)
    ensures (sender, r.operation) in w.transfers ==> AllStored(w.book.entries, Legs(sender, r))
    ensures (sender, r.operation) !in w.transfers ==> AllNew(w.book.entries, Legs(sender, r))
  {
    hide BookInv, Strip;
    if (sender, r.operation) in w.transfers {
      assert PairRule(w.book.entries, (sender, r.operation), w.transfers[(sender, r.operation)]);
      PairHasKeys(w.book.entries, (sender, r.operation), w.transfers[(sender, r.operation)]);
    } else {
      UnrecordedHasNoKeys(w.book.entries, w.transfers, (sender, r.operation));
    }
  }

  lemma PairHasKeys(entries: seq<Entry>, id: TransferId, row: Row)
    requires PairRule(entries, id, row)
    ensures HasKey(entries, TransferOut(id.0, id.1)) && HasKey(entries, TransferIn(id.0, id.1))
  {
    assert entries[row.outgoing].command.key == TransferOut(id.0, id.1);
    assert entries[row.incoming].command.key == TransferIn(id.0, id.1);
  }

  lemma UnrecordedHasNoKeys(entries: seq<Entry>, transfers: map<TransferId, Row>, id: TransferId)
    requires Paired(entries, transfers) && id !in transfers
    ensures !HasKey(entries, TransferOut(id.0, id.1)) && !HasKey(entries, TransferIn(id.0, id.1))
  {
    forall n | 0 <= n < |entries|
      ensures entries[n].command.key != TransferOut(id.0, id.1)
      ensures entries[n].command.key != TransferIn(id.0, id.1)
    {
      assert LegOfPair(entries, transfers, n);
      assert (id.0, id.1) == id;
    }
  }

  lemma PairStays(before: seq<Entry>, after: seq<Entry>, id: TransferId, row: Row)
    requires before <= after && PairRule(before, id, row)
    ensures PairRule(after, id, row)
  {
  }

  lemma OldPairsStay(before: seq<Entry>, after: seq<Entry>, transfers: map<TransferId, Row>)
    requires before <= after && Paired(before, transfers)
    ensures forall id | id in transfers :: PairRule(after, id, transfers[id])
  {
    forall id | id in transfers
      ensures PairRule(after, id, transfers[id])
    {
      PairStays(before, after, id, transfers[id]);
    }
  }

  lemma BatchKeepsPairs(before: seq<Entry>, after: seq<Entry>, transfers: map<TransferId, Row>, cmds: seq<Command>)
    requires Paired(before, transfers) && NoTransfers(cmds) && Grew(before, after, cmds)
    ensures Paired(after, transfers)
  {
    assert before <= after;
    OldPairsStay(before, after, transfers);
    forall n | 0 <= n < |after|
      ensures LegOfPair(after, transfers, n)
    {
      if n < |before| {
        assert after[..|before|][n] == after[n];
        assert LegOfPair(before, transfers, n);
      } else {
        var k := n - |before|;
        assert after[|before| + k].command == cmds[k];
      }
    }
  }

  lemma LegsPosted(before: seq<Entry>, after: seq<Entry>, sender: MemberId, r: Request)
    requires Grew(before, after, Legs(sender, r))
    ensures |after| == |before| + 2 && before <= after
    ensures after[|before|].command == Legs(sender, r)[0] && after[|before| + 1].command == Legs(sender, r)[1]
    ensures forall m | 0 <= m < |before| :: after[m] == before[m]
  {
    var k := 0;
    assert after[|before| + k].command == Legs(sender, r)[k];
    k := 1;
    assert after[|before| + k].command == Legs(sender, r)[k];
    assert forall m | 0 <= m < |before| :: after[m] == after[..|before|][m];
  }

  lemma TransferKeepsPairs(before: seq<Entry>, after: seq<Entry>, transfers: map<TransferId, Row>, sender: MemberId, r: Request)
    requires Paired(before, transfers) && TransferCommands(sender, r).Success?
    requires (sender, r.operation) !in transfers && Grew(before, after, Legs(sender, r))
    ensures Paired(after, transfers[(sender, r.operation) := Row(r.recipient, r.amount, Note(r.comment), |before|, |before| + 1)])
  {
    hide Strip, Note;
    var n, id := |before|, (sender, r.operation);
    var transfers' := transfers[id := Row(r.recipient, r.amount, Note(r.comment), n, n + 1)];
    LegsPosted(before, after, sender, r);
    hide Grew;
    OldPairsStay(before, after, transfers);
    assert PairRule(after, id, transfers'[id]);
    forall m | 0 <= m < |after|
      ensures LegOfPair(after, transfers', m)
    {
      if m < n {
        assert LegOfPair(before, transfers, m);
      }
    }
  }

  lemma SendKeeps(w: Accounts, sender: MemberId, r: Request)
    requires WalletInv(w) && Transfer(w, sender, r).Success? && (sender, r.operation) !in w.transfers
    ensures WalletInv(Transfer(w, sender, r).value)
    ensures Grew(w.book.entries, Transfer(w, sender, r).value.book.entries, Legs(sender, r))
    ensures Transfer(w, sender, r).value.book.credit.Keys == w.book.credit.Keys
  {
    hide BookInv, Paired, Strip;
    LegsStoredIffRecorded(w, sender, r);
    ApplyOutcome(w.book, Legs(sender, r));
    TransferKeepsPairs(w.book.entries, Transfer(w, sender, r).value.book.entries, w.transfers, sender, r);
  }

  lemma JoinKeeps(b: Book, m: MemberId)
    requires BookInv(b) && m !in b.credit
    ensures BookInv(b.(credit := b.credit[m := 0], experience := b.experience[m := 0]))
  {
    forall i | 0 <= i < |b.entries|
      ensures b.entries[i].command.member != m
    {
      assert b.entries[i].command.member in b.credit.Keys;
    }
    StrangerHasNothing(b.entries, m);
    var k := b.(credit := b.credit[m := 0], experience := b.experience[m := 0]);
    assert forall x | x in k.credit :: k.credit[x] == CreditSum(k.entries, x) >= 0;
    assert forall x | x in k.experience :: k.experience[x] == ExperienceSum(k.entries, x) >= 0;
    assert k.credit.Keys == b.credit.Keys + {m} == k.experience.Keys;
  }

  lemma {:induction false} StrangerHasNothing(entries: seq<Entry>, m: MemberId)
    requires forall i | 0 <= i < |entries| :: entries[i].command.member != m
    ensures CreditSum(entries, m) == ExperienceSum(entries, m) == 0
  {
    if entries != [] {
      StrangerHasNothing(entries[..|entries| - 1], m);
    }
  }

  lemma StepKeeps(w: Accounts, op: Op)
    requires WalletInv(w)
    ensures WalletInv(After(w, op)) && w.book.entries <= After(w, op).book.entries
    ensures forall id | id in w.transfers :: id in After(w, op).transfers && After(w, op).transfers[id] == w.transfers[id]
  {
    hide BookInv, Paired, Apply;
    match op
    case Send(sender, r) =>
      if Transfer(w, sender, r).Success? && (sender, r.operation) !in w.transfers {
        SendKeeps(w, sender, r);
      }
    case Join(m) =>
      if m !in w.book.credit {
        JoinKeeps(w.book, m);
      }
    case Batch(cmds) =>
      if NoTransfers(cmds) && Apply(w.book, cmds).Success? {
        ApplyOutcome(w.book, cmds);
        hide NoTransfers, AllNew;
        if AllNew(w.book.entries, cmds) {
          BatchKeepsPairs(w.book.entries, Apply(w.book, cmds).value.entries, w.transfers, cmds);
        }
      }
    case _ =>
  }

  /** After any run, every recorded transfer satisfies the pair rule and every leg on the ledger
      belongs to one; and no recorded transfer was ever altered. */
  lemma {:induction false} EveryRunPaired(w: Accounts, ops: seq<Op>)
    requires WalletInv(w)
    ensures WalletInv(Run(w, ops)) && w.book.entries <= Run(w, ops).book.entries
    ensures forall id | id in w.transfers :: id in Run(w, ops).transfers && Run(w, ops).transfers[id] == w.transfers[id]
  {
    if ops != [] {
      EveryRunPaired(w, ops[..|ops| - 1]);
      StepKeeps(Run(w, ops[..|ops| - 1]), ops[|ops| - 1]);
    }
  }

  // ---------- conservation, replay, conflict ----------

  lemma {:induction false} GrewTotals(before: seq<Entry>, after: seq<Entry>, c: Command, d: Command)
    requires Grew(before, after, [c, d])
    ensures TotalCredit(after) == TotalCredit(before) + c.credit + d.credit
  {
    var n := |before|;
    var k := 1;
    assert after[n + k].command == [c, d][k];
    k := 0;
    assert after[n + k].command == [c, d][k];
    assert after[..n + 1][..n] == after[..n] == before;
    assert after[..|after| - 1] == after[..n + 1];
    assert TotalCredit(after[..n + 1]) == TotalCredit(before) + c.credit;
  }

  predicate OnlySends(ops: seq<Op>) {
    forall i | 0 <= i < |ops| :: !ops[i].Batch?
  }

  /** Any run of transfers, with people joining, leaving and returning, preserves total credits. */
  lemma {:induction false} TransfersConserve(w: Accounts, ops: seq<Op>)
    requires WalletInv(w) && OnlySends(ops)
    ensures TotalCredit(Run(w, ops).book.entries) == TotalCredit(w.book.entries)
  {
    if ops != [] {
      var front, op := ops[..|ops| - 1], ops[|ops| - 1];
      assert forall i | 0 <= i < |front| :: front[i] == ops[i];
      hide WalletInv, After;
      TransfersConserve(w, front);
      EveryRunPaired(w, front);
      SendConserves(Run(w, front), op);
    }
  }

  lemma SendConserves(w: Accounts, op: Op)
    requires WalletInv(w) && !op.Batch?
    ensures TotalCredit(After(w, op).book.entries) == TotalCredit(w.book.entries)
  {
    hide WalletInv;
    if op.Send? && Transfer(w, op.sender, op.request).Success? && (op.sender, op.request.operation) !in w.transfers {
      SendKeeps(w, op.sender, op.request);
      var legs := Legs(op.sender, op.request);
      hide Transfer;
      GrewTotals(w.book.entries, Transfer(w, op.sender, op.request).value.book.entries, legs[0], legs[1]);
    }
  }

  lemma RecordedTwo(entries: seq<Entry>, c: Command, d: Command)
    ensures AllRecorded(entries, [c, d]) <==> Recorded(entries, c) && Recorded(entries, d)
  {
    hide Recorded;
    assert [c, d][0] == c && [c, d][1] == d;
  }

  lemma LegsAgree(entries: seq<Entry>, sender: MemberId, r: Request, row: Row)
    requires PairRule(entries, (sender, r.operation), row)
    ensures row.outgoing < |entries| && row.incoming < |entries|
    ensures entries[row.outgoing].command.key == Legs(sender, r)[0].key
    ensures entries[row.incoming].command.key == Legs(sender, r)[1].key
    ensures entries[row.outgoing].command == Legs(sender, r)[0] && entries[row.incoming].command == Legs(sender, r)[1] <==>
            row.recipient == r.recipient && row.amount == r.amount && row.comment == Note(r.comment)
  {
    hide Note;
  }

  lemma PairOf(w: Accounts, id: TransferId)
    requires WalletInv(w) && id in w.transfers
    ensures PairRule(w.book.entries, id, w.transfers[id]) && UniqueKeys(w.book.entries)
  {
  }

  /** The legs stored for an operation are those of the request that was recorded. */
  lemma RecordedLegs(w: Accounts, sender: MemberId, r: Request)
    requires WalletInv(w) && (sender, r.operation) in w.transfers
    ensures var row := w.transfers[(sender, r.operation)];
            AllRecorded(w.book.entries, Legs(sender, r)) <==>
            row.recipient == r.recipient && row.amount == r.amount && row.comment == Note(r.comment)
  {
    var id, legs, entries := (sender, r.operation), Legs(sender, r), w.book.entries;
    var row := w.transfers[id];
    hide WalletInv, UniqueKeys, Strip, Note, Recorded;
    PairOf(w, id);
    hide PairRule, AllRecorded;
    LegsAgree(entries, sender, r, row);
    RecordedTwo(entries, legs[0], legs[1]);
    OneEntryPerKey(entries, row.outgoing, legs[0]);
    OneEntryPerKey(entries, row.incoming, legs[1]);
  }

  lemma OneEntryPerKey(entries: seq<Entry>, n: nat, c: Command)
    requires UniqueKeys(entries) && n < |entries| && entries[n].command.key == c.key
    ensures Recorded(entries, c) <==> entries[n].command == c
  {
    if Recorded(entries, c) {
      var k :| 0 <= k < |entries| && entries[k].command == c;
      assert k == n;
    }
  }

  /** Repeating an operation is answered from the record if and only if recipient, amount and
      normalised comment are those recorded and the sender is active; otherwise it is refused.
      Either way nothing moves. */
  lemma RepeatMovesNothing(w: Accounts, sender: MemberId, r: Request)
    requires WalletInv(w) && (sender, r.operation) in w.transfers
    ensures After(w, Send(sender, r)) == w
    ensures var row := w.transfers[(sender, r.operation)];
            Transfer(w, sender, r).Success? <==>
              && TransferCommands(sender, r).Success? && sender in w.active
              && row.recipient == r.recipient && row.amount == r.amount && row.comment == Note(r.comment)
  {
    hide WalletInv, AllStored, AllNew, AllRecorded, ValidCommand, DistinctKeys, Strip, Note, HasKey;
    LegsStoredIffRecorded(w, sender, r);
    RecordedLegs(w, sender, r);
    if TransferCommands(sender, r).Success? {
      LegsAreValid(sender, r);
      StoredIsNotNew(w.book.entries, Legs(sender, r));
    }
  }

  lemma StoredIsNotNew(entries: seq<Entry>, cmds: seq<Command>)
    requires AllStored(entries, cmds) && cmds != []
    ensures !AllNew(entries, cmds)
  {
    assert HasKey(entries, cmds[0].key);
  }

  /** Over any run: a transfer that succeeded is never made twice, whatever happens in between. */
  lemma SentOnce(w: Accounts, sender: MemberId, r: Request, ops: seq<Op>, again: Request)
    requires WalletInv(w) && Transfer(w, sender, r).Success? && again.operation == r.operation
    ensures var later := Run(After(w, Send(sender, r)), ops);
            After(later, Send(sender, again)) == later
  {
    hide WalletInv, Transfer;
    StepKeeps(w, Send(sender, r));
    EveryRunPaired(After(w, Send(sender, r)), ops);
    RecordedAfterSend(w, sender, r);
    RepeatMovesNothing(Run(After(w, Send(sender, r)), ops), sender, again);
  }

  lemma RecordedAfterSend(w: Accounts, sender: MemberId, r: Request)
    requires Transfer(w, sender, r).Success?
    ensures (sender, r.operation) in After(w, Send(sender, r)).transfers
  {
  }

  // ---------- the first transfer of an operation ----------

  /** What makes a request to transfer well-formed. */
  predicate WellFormed(sender: MemberId, r: Request) {
    && r.recipient != sender
    && 1 <= r.amount <= 1_000_000_000
    && Strip(r.operation) != [] && |r.operation| <= 128
    && |Note(r.comment)| <= 140
  }

  lemma NewLegsPost(w: Accounts, sender: MemberId, r: Request)
    requires WalletInv(w) && TransferCommands(sender, r).Success? && AllNew(w.book.entries, Legs(sender, r))
    ensures Apply(w.book, Legs(sender, r)).Failure? ==>
              Apply(w.book, Legs(sender, r)).error == UnknownMember || Apply(w.book, Legs(sender, r)).error == InsufficientBalance
    ensures Apply(w.book, Legs(sender, r)) == Failure(UnknownMember) <==> sender !in w.book.credit || r.recipient !in w.book.credit
    ensures Apply(w.book, Legs(sender, r)).Success? <==>
              sender in w.book.credit && r.recipient in w.book.credit && w.book.credit[sender] >= r.amount
    ensures Apply(w.book, Legs(sender, r)).Success? ==>
              Apply(w.book, Legs(sender, r)).value.credit
              == w.book.credit[sender := w.book.credit[sender] - r.amount][r.recipient := w.book.credit[r.recipient] + r.amount]
  {
    hide *;
    var b, legs := w.book, Legs(sender, r);
    LegsAre(sender, r);
    LegsAreValid(sender, r);
    LegsReverseNothing(b, sender, r);
    KnownTotals(w);
    KnownLegs(b, sender, r);
    ApplyNew(b, legs);
    if sender in b.credit && r.recipient in b.credit {
      AmountIsPositive(sender, r);
      PostPair(b, legs[0], legs[1]);
    }
  }

  lemma AmountIsPositive(sender: MemberId, r: Request)
    requires TransferCommands(sender, r).Success?
    ensures r.amount > 0 && sender != r.recipient
  {
  }

  /** What is left of the batch contract for a new batch that passes every check on its commands. */
  lemma ApplyNew(b: Book, cmds: seq<Command>)
    requires cmds != [] && DistinctKeys(cmds) && AllNew(b.entries, cmds) && ReversalsSound(b.entries, cmds)
    requires forall i | 0 <= i < |cmds| :: ValidCommand(cmds[i])
    ensures Apply(b, cmds) == if MembersKnown(b, cmds) then PostAll(b, cmds) else Failure(UnknownMember)
  {
    hide ValidCommand, DistinctKeys, AllNew, ReversalsSound, MembersKnown, PostAll;
  }

  lemma KnownTotals(w: Accounts)
    requires WalletInv(w)
    ensures w.book.credit.Keys == w.book.experience.Keys
    ensures forall m | m in w.book.credit :: w.book.credit[m] >= 0
    ensures forall m | m in w.book.experience :: w.book.experience[m] >= 0
  {
  }

  lemma LegsAre(sender: MemberId, r: Request)
    ensures |Legs(sender, r)| == 2
    ensures Legs(sender, r) == [Legs(sender, r)[0], Legs(sender, r)[1]]
    ensures Legs(sender, r)[0].member == sender && Legs(sender, r)[0].credit == -r.amount && Legs(sender, r)[0].experience == 0
    ensures Legs(sender, r)[1].member == r.recipient && Legs(sender, r)[1].credit == r.amount && Legs(sender, r)[1].experience == 0
  {
  }

  lemma LegsReverseNothing(b: Book, sender: MemberId, r: Request)
    ensures ReversalsSound(b.entries, Legs(sender, r))
    ensures TransferCommands(sender, r).Success? ==> forall i | 0 <= i < |Legs(sender, r)| :: ValidCommand(Legs(sender, r)[i])
  {
    hide ValidCommand, Strip, Note, TransferCommands;
    forall i | 0 <= i < |Legs(sender, r)|
      ensures Legs(sender, r)[i].reversed.None?
      ensures TransferCommands(sender, r).Success? ==> ValidCommand(Legs(sender, r)[i])
    {
      if TransferCommands(sender, r).Success? {
        LegsAreValid(sender, r);
      }
    }
    NothingReversed(b.entries, Legs(sender, r));
  }

  lemma KnownLegs(b: Book, sender: MemberId, r: Request)
    requires b.credit.Keys == b.experience.Keys
    ensures MembersKnown(b, Legs(sender, r)) <==> sender in b.credit && r.recipient in b.credit
  {
    hide Note;
    assert sender in b.experience <==> sender in b.credit.Keys;
    assert r.recipient in b.experience <==> r.recipient in b.credit.Keys;
    LegsAre(sender, r);
    assert Legs(sender, r)[0].member == sender && Legs(sender, r)[1].member == r.recipient;
  }

  /** Posting what one member pays another: it takes no more than his balance. */
  lemma PostPair(b: Book, c: Command, d: Command)
    requires MembersKnown(b, [c, d]) && c.member in b.credit && d.member in b.credit && c.member != d.member
    requires c.experience == d.experience == 0 && d.credit >= 0
    requires forall m | m in b.credit :: b.credit[m] >= 0
    requires forall m | m in b.experience :: b.experience[m] >= 0
    ensures PostAll(b, [c, d]).Success? <==> b.credit[c.member] + c.credit >= 0
    ensures PostAll(b, [c, d]).Failure? ==> PostAll(b, [c, d]).error == InsufficientBalance
    ensures PostAll(b, [c, d]).Success? ==>
              PostAll(b, [c, d]).value.credit
              == b.credit[c.member := b.credit[c.member] + c.credit][d.member := b.credit[d.member] + d.credit]
  {
    assert [c, d][..1] == [c] && [c][..0] == [];
    assert [c, d][0] == c && [c, d][1] == d;
    assert PostAll(b, []) == Success(b);
    assert PostAll(b, [c]) == Post(b, c);
  }

  /** An operation that has not been recorded is a new transfer. It goes through exactly if it is
      well-formed, both sides are known and active, the sender has earned fifty credits by finished tasks,
      and his balance covers the amount. */
  lemma FirstTransfer(w: Accounts, sender: MemberId, r: Request)
    requires WalletInv(w) && (sender, r.operation) !in w.transfers
    ensures Transfer(w, sender, r).Success? <==>
              && WellFormed(sender, r)
              && sender in w.book.credit && r.recipient in w.book.credit
              && sender in w.active && r.recipient in w.active
              && Earned(w.book.entries, sender, |w.book.entries|) >= 50
              && w.book.credit[sender] >= r.amount
  {
    hide WalletInv, Note, Strip, Apply, Earned, AllNew;
    LegsStoredIffRecorded(w, sender, r);
    if TransferCommands(sender, r).Success? {
      NewLegsPost(w, sender, r);
    }
  }

  /** Then the amount moves from the sender to the recipient, nobody else's balance changes, and the
      operation is recorded under the terms asked for. */
  lemma FirstTransferMoves(w: Accounts, sender: MemberId, r: Request)
    requires WalletInv(w) && (sender, r.operation) !in w.transfers && Transfer(w, sender, r).Success?
    ensures var v := Transfer(w, sender, r).value;
            && v.book.credit.Keys == w.book.credit.Keys && v.active == w.active
            && (forall m | m in w.book.credit && m in v.book.credit ::
                  v.book.credit[m] == w.book.credit[m] - (if m == sender then r.amount else 0) + (if m == r.recipient then r.amount else 0))
            && (sender, r.operation) in v.transfers
            && v.transfers == w.transfers[(sender, r.operation) := v.transfers[(sender, r.operation)]]
            && var row := v.transfers[(sender, r.operation)];
               row.recipient == r.recipient && row.amount == r.amount && row.comment == Note(r.comment)
               && PairRule(v.book.entries, (sender, r.operation), row)
  {
    hide WalletInv, Note, Strip, Apply, Earned, AllNew, PairRule, Grew;
    LegsStoredIffRecorded(w, sender, r);
    NewLegsPost(w, sender, r);
    SendKeeps(w, sender, r);
    PairOf(Transfer(w, sender, r).value, (sender, r.operation));
    WellFormedIfAccepted(w, sender, r);
  }

  lemma WellFormedIfAccepted(w: Accounts, sender: MemberId, r: Request)
    requires Transfer(w, sender, r).Success?
    ensures WellFormed(sender, r)
  {
    hide Note, Strip, Apply, Earned;
  }

  /** Why a transfer is refused. */
  ghost predicate Reason(w: Accounts, sender: MemberId, r: Request, e: TransferError) {
    match e
    case SelfTransfer => r.recipient == sender
    case InvalidAmount => r.amount < 1 || r.amount > 1_000_000_000
    case InvalidOperationKey => Strip(r.operation) == [] || |r.operation| > 128
    case CommentTooLong => |Note(r.comment)| > 140
    case InactiveSender => sender !in w.active
    case InactiveRecipient => r.recipient !in w.active
    case TransfersLocked => Earned(w.book.entries, sender, |w.book.entries|) < 50
    case Ledger(PayloadConflict) =>
      && (sender, r.operation) in w.transfers
      && var row := w.transfers[(sender, r.operation)];
         row.recipient != r.recipient || row.amount != r.amount || row.comment != Note(r.comment)
    case Ledger(UnknownMember) => sender !in w.book.credit || r.recipient !in w.book.credit
    case Ledger(InsufficientBalance) => sender in w.book.credit && w.book.credit[sender] < r.amount
    case Ledger(_) => false
  }

  /** Every refusal names a true reason: the request is at fault, one of the two is inactive or unknown, the
      sender has not earned or does not own enough, or the operation was recorded under other terms. */
  lemma RefusedForAReason(w: Accounts, sender: MemberId, r: Request)
    requires WalletInv(w) && Transfer(w, sender, r).Failure?
    ensures Reason(w, sender, r, Transfer(w, sender, r).error)
  {
    hide WalletInv, Note, Strip, Earned, AllNew, AllStored, AllRecorded, ValidCommand, DistinctKeys;
    LegsStoredIffRecorded(w, sender, r);
    if TransferCommands(sender, r).Success? {
      if (sender, r.operation) in w.transfers {
        RecordedLegs(w, sender, r);
        LegsAreValid(sender, r);
        StoredIsNotNew(w.book.entries, Legs(sender, r));
      } else {
        hide Apply;
        NewLegsPost(w, sender, r);
      }
    }
  }

  // ---------- what has been earned ----------

  predicate UndoneBy(entries: seq<Entry>, i: nat, n: nat)
    requires n <= |entries|
  {
    exists j | 0 <= j < n :: entries[j].command.reversed == Some(i)
  }

  predicate RewardOf(c: Command, m: MemberId) {
    c.member == m && IsReward(c.kind)
  }

  /** The task rewards of a member among the first `k` entries that none of the first `n` has reversed. */
  ghost function Standing(entries: seq<Entry>, m: MemberId, k: nat, n: nat): int
    requires k <= n <= |entries|
  {
    if k == 0 then 0
    else
      Standing(entries, m, k - 1, n)
      + if RewardOf(entries[k - 1].command, m) && !UndoneBy(entries, k - 1, n) then entries[k - 1].command.credit else 0
  }

  /** One more entry takes away what it reverses, and nothing else. */
  lemma {:induction false} StandingStep(entries: seq<Entry>, m: MemberId, k: nat, n: nat)
    requires ReversalsWellFormed(entries) && k <= n < |entries|
    ensures var r := entries[n].command.reversed;
            Standing(entries, m, k, n + 1)
            == Standing(entries, m, k, n)
               - if r.Some? && r.value < k && RewardOf(entries[r.value].command, m) then entries[r.value].command.credit else 0
  {
    if k > 0 {
      StandingStep(entries, m, k - 1, n);
      hide Standing, RewardOf, ReversalsWellFormed;
      UndoneStep(entries, k - 1, n);
    }
  }

  lemma UndoneStep(entries: seq<Entry>, i: nat, n: nat)
    requires ReversalsWellFormed(entries) && n < |entries|
    ensures UndoneBy(entries, i, n + 1) <==> UndoneBy(entries, i, n) || entries[n].command.reversed == Some(i)
    ensures entries[n].command.reversed == Some(i) ==> !UndoneBy(entries, i, n)
  {
    assert forall j | 0 <= j < n && entries[j].command.reversed.Some? ::
        entries[j].command.reversed != entries[n].command.reversed;
  }

  lemma NotYetUndone(entries: seq<Entry>, i: nat, n: nat)
    requires ReversalsWellFormed(entries) && n <= |entries| && n <= i + 1
    ensures !UndoneBy(entries, i, n)
  {
    forall j | 0 <= j < n
      ensures entries[j].command.reversed != Some(i)
    {
      if entries[j].command.reversed.Some? {
        assert ReversesEarlier(entries, j);
      }
    }
  }

  lemma ReversalKinds(entries: seq<Entry>, i: nat)
    requires AllValid(entries) && i < |entries|
    ensures entries[i].command.reversed.Some? <==> IsReversal(entries[i].command.kind)
  {
    assert ValidCommand(entries[i].command);
  }

  /** Credits earned by tasks are the rewards of tasks that no entry has reversed since. */
  lemma {:induction false} EarnedIsStanding(entries: seq<Entry>, m: MemberId, n: nat)
    requires ReversalsWellFormed(entries) && AllValid(entries) && n <= |entries|
    ensures Earned(entries, m, n) == Standing(entries, m, n, n)
  {
    if n > 0 {
      EarnedIsStanding(entries, m, n - 1);
      StandingStep(entries, m, n - 1, n - 1);
      ReversalKinds(entries, n - 1);
      hide UndoneBy, AllValid;
      if entries[n - 1].command.reversed.Some? {
        assert ReversesEarlier(entries, n - 1);
      } else {
        NotYetUndone(entries, n - 1, n);
      }
    }
  }

  /** Quoting the stored comment in a repeat is the same request. */
  lemma QuotingTheNote(sender: MemberId, r: Request)
    ensures Legs(sender, r.(comment := Some(Note(r.comment)))) == Legs(sender, r)
  {
    hide Note;
    NoteTwice(r.comment);
  }

  lemma NoteTwice(comment: Option<string>)
    ensures Note(Some(Note(comment))) == Note(comment)
  {
    match comment
    case None =>
      assert StripLeft("") == "" && StripRight("") == "";
    case Some(c) =>
      StripTwice(c);
      hide Strip;
  }

  // ---------- reversals ----------

  /** After any run of transfers, registrations and other batches, every reversal nets its source to
      zero, no source is reversed twice, and no leg of a transfer is ever reversed. */
  lemma ReversalsNetToZero(w: Accounts, ops: seq<Op>, i: nat)
    requires WalletInv(w) && i < |Run(w, ops).book.entries|
    ensures UndoesOnce(Run(w, ops).book.entries, i)
  {
    hide Run, UndoesOnce, BookInv;
    EveryRunPaired(w, ops);
    SoundUndoes(Run(w, ops).book, i);
  }
}
