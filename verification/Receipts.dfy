/**
 What receipts remember of an answered request, and how a repeat of it is answered from them.
 */
module Receipts {
  import opened Wrappers
  import opened Codec

  // ---------- karma drafts and votes ----------

  datatype KarmaStep = Value | Comment | Preview

  datatype KarmaDraft = KarmaDraft(member: Uuid, target: Uuid, step: KarmaStep, revision: int)

  datatype Vote = Vote(vote: Uuid, revision: int, score: int, count: int)

  function StepName(s: KarmaStep): (name: string)
    ensures NoColon(name) && StepOf(name) == Some(s)
  {
    match s
    case Value => "value"
    case Comment => "comment"
    case Preview => "preview"
  }

  function StepOf(name: string): Option<KarmaStep> {
    if name == "value" then Some(Value)
    else if name == "comment" then Some(Comment)
    else if name == "preview" then Some(Preview)
    else None
  }

  /** A fingerprint with a colon is refused before anything is stored or compared. */
  function DraftOutcome(action: string, actor: Uuid, d: KarmaDraft, fingerprint: string): Option<string> {
    if !NoColon(fingerprint) then None
    else Some(Join(DraftFields(action, actor, d, fingerprint)))
  }

  function DraftFields(action: string, actor: Uuid, d: KarmaDraft, fingerprint: string): seq<string> {
    ["karma_web_v1", "draft", action, PrintUuid(actor), PrintUuid(d.target), StepName(d.step), PrintInt(d.revision), fingerprint]
  }

  function DraftReplay(outcome: string, action: string, actor: Uuid, target: Uuid, fingerprint: string): Option<KarmaDraft> {
    var f := Split(outcome, 7);
    if |f| != 8 then None
    else
      match (ParseUuid(f[3]), ParseUuid(f[4]), StepOf(f[5]), ParseInt(f[6]))
      case (Some(storedActor), Some(storedTarget), Some(step), Some(revision)) =>
        if f[0] != "karma_web_v1" || f[1] != "draft" || f[2] != action || storedActor != actor
           || storedTarget != target || f[7] != fingerprint then None
        else Some(KarmaDraft(actor, target, step, revision))
      case _ => None
  }

  function VoteOutcome(actor: Uuid, target: Uuid, v: Vote, fingerprint: string): Option<string> {
    if !NoColon(fingerprint) then None
    else Some(Join(VoteFields(actor, target, v, fingerprint)))
  }

  function VoteFields(actor: Uuid, target: Uuid, v: Vote, fingerprint: string): seq<string> {
    ["karma_web_v1", "confirm", PrintUuid(actor), PrintUuid(target), PrintUuid(v.vote), PrintInt(v.revision),
     PrintInt(v.score), PrintInt(v.count), fingerprint]
  }

  function VoteReplay(outcome: string, actor: Uuid, target: Uuid, fingerprint: string): Option<Vote> {
    var f := Split(outcome, 8);
    if |f| != 9 then None
    else
      match (ParseUuid(f[2]), ParseUuid(f[3]), ParseUuid(f[4]), ParseInt(f[5]), ParseInt(f[6]), ParseInt(f[7]))
      case (Some(storedActor), Some(storedTarget), Some(vote), Some(revision), Some(score), Some(count)) =>
        if f[0] != "karma_web_v1" || f[1] != "confirm" || storedActor != actor || storedTarget != target
           || f[8] != fingerprint then None
        else Some(Vote(vote, revision, score, count))
      case _ => None
  }

  lemma DraftFieldsSplit(action: string, actor: Uuid, d: KarmaDraft, fingerprint: string)
    requires NoColon(action)
    ensures Split(Join(DraftFields(action, actor, d, fingerprint)), 7) == DraftFields(action, actor, d, fingerprint)
  {
    PrintedUuidIsPlain(actor);
    PrintedUuidIsPlain(d.target);
    IntRoundTrip(d.revision);
    SplitJoin(DraftFields(action, actor, d, fingerprint));
  }

  /** A stored draft outcome is decoded to its step and signed revision exactly when action, actor,
      target and fingerprint are those it was stored under, and to nothing otherwise. */
  lemma DraftDecodesExactly(action: string, actor: Uuid, d: KarmaDraft, fingerprint: string,
                            action': string, actor': Uuid, target': Uuid, fingerprint': string)
    requires NoColon(action) && DraftOutcome(action, actor, d, fingerprint).Some?
    ensures DraftReplay(DraftOutcome(action, actor, d, fingerprint).value, action', actor', target', fingerprint')
         == if action' == action && actor' == actor && target' == d.target && fingerprint' == fingerprint
            then Some(KarmaDraft(actor, d.target, d.step, d.revision)) else None
  {
    DraftFieldsSplit(action, actor, d, fingerprint);
    UuidRoundTrip(actor);
    UuidRoundTrip(d.target);
    IntRoundTrip(d.revision);
    hide Split, Join, ParseUuid, PrintUuid, ParseInt, PrintInt;
  }

  lemma VoteFieldsSplit(actor: Uuid, target: Uuid, v: Vote, fingerprint: string)
    ensures Split(Join(VoteFields(actor, target, v, fingerprint)), 8) == VoteFields(actor, target, v, fingerprint)
  {
    PrintedUuidIsPlain(actor);
    PrintedUuidIsPlain(target);
    PrintedUuidIsPlain(v.vote);
    IntRoundTrip(v.revision);
    IntRoundTrip(v.score);
    IntRoundTrip(v.count);
    hide PrintUuid, PrintInt, ParseInt;
    var f := VoteFields(actor, target, v, fingerprint);
    assert NoColon(f[0]) && NoColon(f[1]) && NoColon(f[2]) && NoColon(f[3]) && NoColon(f[4]) && NoColon(f[5])
           && NoColon(f[6]) && NoColon(f[7]);
    hide NoColon;
    SplitJoin(f);
  }

  /** The same for a vote: revision, score and count come back with their signs. */
  lemma VoteDecodesExactly(actor: Uuid, target: Uuid, v: Vote, fingerprint: string,
                           actor': Uuid, target': Uuid, fingerprint': string)
    requires VoteOutcome(actor, target, v, fingerprint).Some?
    ensures VoteReplay(VoteOutcome(actor, target, v, fingerprint).value, actor', target', fingerprint')
         == if actor' == actor && target' == target && fingerprint' == fingerprint then Some(v) else None
  {
    VoteFieldsSplit(actor, target, v, fingerprint);
    UuidRoundTrip(actor);
    UuidRoundTrip(target);
    UuidRoundTrip(v.vote);
    IntRoundTrip(v.revision);
    IntRoundTrip(v.score);
    IntRoundTrip(v.count);
    hide Split, Join, ParseUuid, PrintUuid, ParseInt, PrintInt;
  }

  /** Neither decoder ever accepts what the other one's printer wrote. */
  lemma {:induction false} KarmaOutcomesApart(outcome: string, action: string, actor: Uuid, d: KarmaDraft, target: Uuid, v: Vote,
                           fingerprint: string, actor': Uuid, target': Uuid, fingerprint': string)
    requires NoColon(action)
    ensures DraftOutcome(action, actor, d, fingerprint) == Some(outcome) ==> VoteReplay(outcome, actor', target', fingerprint') == None
    ensures VoteOutcome(actor, target, v, fingerprint) == Some(outcome) ==> DraftReplay(outcome, action, actor', target', fingerprint') == None
  {
    if DraftOutcome(action, actor, d, fingerprint) == Some(outcome) {
      SecondField(DraftFields(action, actor, d, fingerprint), 8);
    }
    if VoteOutcome(actor, target, v, fingerprint) == Some(outcome) {
      SecondField(VoteFields(actor, target, v, fingerprint), 7);
    }
    hide Split, Join, ParseUuid, PrintUuid, ParseInt, PrintInt;
  }

  /** However often it is split, a joined outcome keeps its first two fields. */
  lemma SecondField(fields: seq<string>, most: nat)
    requires |fields| > 2 && most >= 2 && NoColon(fields[0]) && NoColon(fields[1])
    ensures |Split(Join(fields), most)| > 1 ==> Split(Join(fields), most)[1] == fields[1]
  {
    var rest, tail := fields[1..], fields[2..];
    assert rest[1..] == tail;
    SplitHead(fields[0], Join(rest), most);
    SplitHead(fields[1], Join(tail), most - 1);
  }

  // ---------- cancellation outcomes ----------

  datatype CancelStatus = CancelledStatus | ClosedStatus | PendingStatus | DeclinedStatus | ObsoleteStatus

  datatype Cancellation = Cancellation(task: Uuid, request: Option<Uuid>, status: CancelStatus, reason: Option<string>)

  /** What the two cancellation workflows store. */
  datatype Stored =
    | Cancelled(task: Uuid)
    | CancelledByConsent(task: Uuid, request: Uuid)
    | Closed(task: Uuid)
    | Requested(task: Uuid, request: Uuid)
    | StillPending(task: Uuid, request: Uuid)
    | Refused(task: Uuid, request: Uuid)
    | Lapsed(task: Uuid, request: Uuid, reason: string)

  function Meaning(s: Stored): Cancellation {
    match s
    case Cancelled(t) => Cancellation(t, None, CancelledStatus, None)
    case CancelledByConsent(t, r) => Cancellation(t, Some(r), CancelledStatus, None)
    case Closed(t) => Cancellation(t, None, ClosedStatus, None)
    case Requested(t, r) => Cancellation(t, Some(r), PendingStatus, None)
    case StillPending(t, r) => Cancellation(t, Some(r), PendingStatus, None)
    case Refused(t, r) => Cancellation(t, Some(r), DeclinedStatus, None)
    case Lapsed(t, r, reason) => Cancellation(t, Some(r), ObsoleteStatus, Some(reason))
  }

  function Encode(s: Stored): string {
    match s
    case Cancelled(t) => "task_cancelled:" + PrintUuid(t)
    case CancelledByConsent(t, r) => "task_cancelled:" + PrintUuid(t) + ":" + PrintUuid(r)
    case Closed(t) => "task_closed:" + PrintUuid(t)
    case Requested(t, r) => "task_cancel_request:" + PrintUuid(t) + ":" + PrintUuid(r)
    case StillPending(t, r) => "task_cancel_pending:" + PrintUuid(t) + ":" + PrintUuid(r)
    case Refused(t, r) => "task_cancel_declined:" + PrintUuid(t) + ":" + PrintUuid(r)
    case Lapsed(t, r, reason) => "task_cancel_obsolete:" + PrintUuid(t) + ":" + PrintUuid(r) + ":" + reason
  }

  const PREFIXES: seq<(string, CancelStatus)> :=
    [("task_cancelled:", CancelledStatus), ("task_closed:", ClosedStatus), ("task_cancel_pending:", PendingStatus),
     ("task_cancel_declined:", DeclinedStatus), ("task_cancel_obsolete:", ObsoleteStatus)]

  /** The task, then an optional request, then whatever is left as the reason. */
  function DecodeBody(body: string, status: CancelStatus): Option<Cancellation> {
    var f := Split(body, 2);
    var task := ParseUuid(f[0]);
    var request := if |f| > 1 then ParseUuid(f[1]) else None;
    if task == None || (|f| > 1 && request == None) then None
    else Some(Cancellation(task.value, request, status, if |f| > 2 then Some(f[2]) else None))
  }

  function DecodeFrom(outcome: string, k: nat): Option<Cancellation>
    requires k <= |PREFIXES|
    decreases |PREFIXES| - k
  {
    if k == |PREFIXES| then
      if "task_cancel_request:" <= outcome then
        var f := Split(outcome[|"task_cancel_request:"|..], 1);
        if |f| != 2 then None
        else
          match (ParseUuid(f[0]), ParseUuid(f[1]))
          case (Some(t), Some(r)) => Some(Cancellation(t, Some(r), PendingStatus, None))
          case _ => None
      else None
    else if PREFIXES[k].0 <= outcome then DecodeBody(outcome[|PREFIXES[k].0|..], PREFIXES[k].1)
    else DecodeFrom(outcome, k + 1)
  }

  function Decode(outcome: string): Option<Cancellation> {
    DecodeFrom(outcome, 0)
  }

  /** No prefix is a prefix of another, so the order they are tried in does not matter. */
  lemma PrefixesApart(a: nat, b: nat, outcome: string)
    requires a < |PREFIXES| && b < |PREFIXES| && PREFIXES[a].0 <= outcome && PREFIXES[b].0 <= outcome
    ensures a == b && !("task_cancel_request:" <= outcome)
  {
    var s := outcome;
    assert s[5] == PREFIXES[a].0[5] == PREFIXES[b].0[5];
    assert s[6] == PREFIXES[a].0[6] == PREFIXES[b].0[6];
    assert |PREFIXES[a].0| > 12 && |PREFIXES[b].0| > 12 ==> s[12] == PREFIXES[a].0[12] == PREFIXES[b].0[12];
    assert s[10] == PREFIXES[a].0[10] == PREFIXES[b].0[10];
    assert s[11] == PREFIXES[a].0[11] == PREFIXES[b].0[11];
  }

  lemma PrefixDecides(k: nat, body: string, from: nat)
    requires k < |PREFIXES| && from <= k
    ensures DecodeFrom(PREFIXES[k].0 + body, from) == DecodeBody(body, PREFIXES[k].1)
    decreases k - from
  {
    var outcome := PREFIXES[k].0 + body;
    if from == k {
      assert outcome[|PREFIXES[k].0|..] == body;
    } else {
      if PREFIXES[from].0 <= outcome {
        PrefixesApart(k, from, outcome);
      }
      PrefixDecides(k, body, from + 1);
    }
  }

  lemma {:induction false} RequestDecodes(body: string, from: nat)
    requires from <= |PREFIXES|
    ensures DecodeFrom("task_cancel_request:" + body, from) == DecodeFrom("task_cancel_request:" + body, |PREFIXES|)
    decreases |PREFIXES| - from
  {
    if from < |PREFIXES| {
      var outcome := "task_cancel_request:" + body;
      assert "task_cancel_request:" <= outcome;
      if PREFIXES[from].0 <= outcome {
        PrefixesApart(from, from, outcome);
      }
      RequestDecodes(body, from + 1);
    }
  }

  lemma BodyOne(t: Uuid, status: CancelStatus)
    ensures DecodeBody(PrintUuid(t), status) == Some(Cancellation(t, None, status, None))
  {
    PrintedUuidIsPlain(t);
    UuidRoundTrip(t);
    var s := PrintUuid(t);
    assert UpToColon(s) == |s|;
  }

  lemma BodyTwo(t: Uuid, r: Uuid, status: CancelStatus)
    ensures Split(PrintUuid(t) + ":" + PrintUuid(r), 2) == Split(PrintUuid(t) + ":" + PrintUuid(r), 1) == [PrintUuid(t), PrintUuid(r)]
    ensures DecodeBody(PrintUuid(t) + ":" + PrintUuid(r), status) == Some(Cancellation(t, Some(r), status, None))
  {
    PrintedUuidIsPlain(t);
    PrintedUuidIsPlain(r);
    UuidRoundTrip(t);
    UuidRoundTrip(r);
    var s := PrintUuid(r);
    assert UpToColon(s) == |s|;
    SplitHead(PrintUuid(t), s, 2);
    SplitHead(PrintUuid(t), s, 1);
    hide ParseUuid, PrintUuid;
  }

  lemma BodyThree(t: Uuid, r: Uuid, reason: string, status: CancelStatus)
    ensures DecodeBody(PrintUuid(t) + ":" + PrintUuid(r) + ":" + reason, status)
         == Some(Cancellation(t, Some(r), status, Some(reason)))
  {
    PrintedUuidIsPlain(t);
    PrintedUuidIsPlain(r);
    UuidRoundTrip(t);
    UuidRoundTrip(r);
    var rest := PrintUuid(r) + ":" + reason;
    SplitHead(PrintUuid(t), rest, 2);
    SplitHead(PrintUuid(r), reason, 1);
    assert PrintUuid(t) + ":" + PrintUuid(r) + ":" + reason == PrintUuid(t) + ":" + rest;
    hide ParseUuid, PrintUuid;
    assert Split(reason, 0) == [reason];
  }

  lemma PrefixedOne(k: nat, t: Uuid)
    requires k < |PREFIXES|
    ensures Decode(PREFIXES[k].0 + PrintUuid(t)) == Some(Cancellation(t, None, PREFIXES[k].1, None))
  {
    hide DecodeBody, PrintUuid;
    PrefixDecides(k, PrintUuid(t), 0);
    BodyOne(t, PREFIXES[k].1);
  }

  lemma PrefixedTwo(k: nat, t: Uuid, r: Uuid)
    requires k < |PREFIXES|
    ensures Decode(PREFIXES[k].0 + PrintUuid(t) + ":" + PrintUuid(r)) == Some(Cancellation(t, Some(r), PREFIXES[k].1, None))
  {
    hide DecodeBody, DecodeFrom, PrintUuid;
    var body := PrintUuid(t) + ":" + PrintUuid(r);
    assert PREFIXES[k].0 + PrintUuid(t) + ":" + PrintUuid(r) == PREFIXES[k].0 + body;
    PrefixDecides(k, body, 0);
    BodyTwo(t, r, PREFIXES[k].1);
  }

  lemma PrefixedThree(k: nat, t: Uuid, r: Uuid, reason: string)
    requires k < |PREFIXES|
    ensures Decode(PREFIXES[k].0 + PrintUuid(t) + ":" + PrintUuid(r) + ":" + reason)
         == Some(Cancellation(t, Some(r), PREFIXES[k].1, Some(reason)))
  {
    hide DecodeBody, DecodeFrom, PrintUuid;
    var body := PrintUuid(t) + ":" + PrintUuid(r) + ":" + reason;
    assert PREFIXES[k].0 + PrintUuid(t) + ":" + PrintUuid(r) + ":" + reason == PREFIXES[k].0 + body;
    PrefixDecides(k, body, 0);
    BodyThree(t, r, reason, PREFIXES[k].1);
  }

  lemma RequestedTwo(t: Uuid, r: Uuid)
    ensures Decode("task_cancel_request:" + PrintUuid(t) + ":" + PrintUuid(r)) == Some(Cancellation(t, Some(r), PendingStatus, None))
  {
    hide PrintUuid, ParseUuid, Split;
    var body := PrintUuid(t) + ":" + PrintUuid(r);
    var outcome := "task_cancel_request:" + body;
    assert "task_cancel_request:" + PrintUuid(t) + ":" + PrintUuid(r) == outcome;
    RequestDecodes(body, 0);
    BodyTwo(t, r, PendingStatus);
    UuidRoundTrip(t);
    UuidRoundTrip(r);
    assert "task_cancel_request:" <= outcome && outcome[|"task_cancel_request:"|..] == body;
  }

  /** Every outcome the cancellation workflows store is decoded to the status, request and reason it
      was stored for; a reason may itself contain colons. */
  lemma CancellationRoundTrip(s: Stored)
    ensures Decode(Encode(s)) == Some(Meaning(s))
  {
    hide PrintUuid, Decode;
    match s
    case Cancelled(t) => PrefixedOne(0, t);
    case CancelledByConsent(t, r) => PrefixedTwo(0, t, r);
    case Closed(t) => PrefixedOne(1, t);
    case StillPending(t, r) => PrefixedTwo(2, t, r);
    case Refused(t, r) => PrefixedTwo(3, t, r);
    case Lapsed(t, r, reason) => PrefixedThree(4, t, r, reason);
    case Requested(t, r) => RequestedTwo(t, r);
  }
}
