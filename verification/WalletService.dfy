/**
 The wallet service: prepare both legs, check who is active and what has been earned, apply the
 batch and store the transfer row, all in one transaction.
 */
module WalletService {
  import opened Wrappers
  import opened Ledger
  import opened LedgerStore
  import opened Text
  import opened Wallet

  class Service {
    const ledger: Store
    var active: set<MemberId>
    var transfers: map<TransferId, Row>

    ghost function State(): (w: Accounts)
      reads this, ledger
    {
      Accounts(ledger.Contents(), active, transfers)
    }

    ghost predicate Valid()
      reads this, ledger
    {
      WalletInv(State())
    }

    constructor ()
      ensures Valid() && fresh(ledger)
      ensures State() == Accounts(Book([], map[], map[]), {}, map[])
    {
      ledger := new Store();
      active, transfers := {}, map[];
    }

    /** Credits the member has earned by finished tasks. */
    method Summary(m: MemberId) returns (earned: int)
      ensures earned == Earned(ledger.entries, m, |ledger.entries|)
    {
      earned := 0;
      var i := 0;
      while i < |ledger.entries|
        invariant 0 <= i <= |ledger.entries|
        invariant earned == Earned(ledger.entries, m, i)
      {
        if ledger.entries[i].command.member == m && IsReward(CountsAs(ledger.entries, i)) {
          earned := earned + ledger.entries[i].command.credit;
        }
        i := i + 1;
      }
    }

    /** `replayed` tells an answer from the record from a new transfer. */
    method Transfer(sender: MemberId, request: Request) returns (r: Result<bool, TransferError>)
      requires Valid()
      modifies this`transfers, ledger
      ensures Valid()
      ensures r.Failure? ==> Wallet.Transfer(old(State()), sender, request) == Failure(r.error) && State() == old(State())
      ensures r.Success? ==> Wallet.Transfer(old(State()), sender, request) == Success(State())
      ensures r.Success? ==> (r.value <==> (sender, request.operation) in old(transfers))
      ensures r.Success? && r.value ==> State() == old(State())
    {
      hide WalletInv, BookInv, Reconciled, Strip, Note, AllNew, AllStored, AllRecorded, ValidCommand, Recorded, PostAll;
      var checked := TransferCommands(sender, request);
      if checked.Failure? {
        return Failure(checked.error);
      }
      var legs := checked.value;
      ghost var before := State();
      Books(before);
      LegsAreValid(sender, request);
      LegsStoredIffRecorded(before, sender, request);
      StoredIsNotNewOnceMore(before.book.entries, legs);
      PlainBatch(before.book, legs);
      var prepared := ledger.Classify(legs);
      if prepared.Failure? {
        return Failure(TransferError.Ledger(prepared.error));
      }
      if !prepared.value && (sender !in ledger.credit || request.recipient !in ledger.credit) {
        return Failure(TransferError.Ledger(LedgerError.UnknownMember));
      }
      if sender !in active {
        return Failure(InactiveSender);
      }
      if (sender, request.operation) in transfers {
        return Success(true);
      }
      if request.recipient !in active {
        return Failure(InactiveRecipient);
      }
      var earned := Summary(sender);
      if earned < TRANSFER_THRESHOLD {
        return Failure(TransfersLocked);
      }
      var n := |ledger.entries|;
      var applied := ledger.ApplyBatch(legs);
      if applied.Failure? {
        return Failure(TransferError.Ledger(applied.error));
      }
      transfers := transfers[(sender, request.operation) := Row(request.recipient, request.amount, Note(request.comment), n, n + 1)];
      StepKeeps(before, Send(sender, request));
      return Success(false);
    }
  }

  lemma Books(w: Accounts)
    requires WalletInv(w)
    ensures UniqueKeys(w.book.entries) && w.book.credit.Keys == w.book.experience.Keys
  {
  }

  lemma StoredIsNotNewOnceMore(entries: seq<Entry>, cmds: seq<Command>)
    requires cmds != []
    ensures !(AllStored(entries, cmds) && AllNew(entries, cmds))
  {
    if AllStored(entries, cmds) {
      StoredIsNotNew(entries, cmds);
    }
  }

  /** What is left to check for a new batch of two that reverses nothing. */
  lemma PlainBatch(b: Book, cmds: seq<Command>)
    requires |cmds| == 2 && DistinctKeys(cmds) && ValidCommand(cmds[0]) && ValidCommand(cmds[1])
    requires cmds[0].reversed.None? && cmds[1].reversed.None? && b.credit.Keys == b.experience.Keys
    ensures AllNew(b.entries, cmds) && (cmds[0].member !in b.credit || cmds[1].member !in b.credit) ==>
              Apply(b, cmds) == Failure(LedgerError.UnknownMember)
    ensures AllNew(b.entries, cmds) && cmds[0].member in b.credit && cmds[1].member in b.credit ==>
              Apply(b, cmds).Success? || Apply(b, cmds) == Failure(InsufficientBalance)
  {
    hide ValidCommand, AllNew;
    assert cmds[0].member in b.experience <==> cmds[0].member in b.credit.Keys;
    assert cmds[1].member in b.experience <==> cmds[1].member in b.credit.Keys;
    assert MembersKnown(b, cmds) <==> cmds[0].member in b.credit && cmds[1].member in b.credit;
  }
}
