/**
 Free-form task drafts: one question at a time, a preview, and edits that return to it.
 */
module TaskDrafts {
  import opened Wrappers
  import opened Text

  datatype Step =
    | TaskKindStep
    | CategoryStep
    | TimeSizeStep
    | RewardStep
    | TitleStep
    | DescriptionStep
    | CriteriaStep
    | InputStep
    | DeadlineStep
    | FormatStep
    | MaterialsStep
    | SlotsStep
    | Preview
    | PublishedStep

  datatype TaskKind = Solo | Group

  datatype TimeSize = XS | S | M | L | XL

  datatype Format = Online | Offline | AnyFormat

  datatype Materials = Materials(text: Option<string>, url: Option<string>)

  datatype Draft = Draft(
    step: Step,
    revision: nat,
    kind: Option<TaskKind>,
    category: Option<nat>,
    size: Option<TimeSize>,
    reward: Option<int>,
    slots: Option<int>,
    title: Option<string>,
    description: Option<string>,
    criteria: Option<string>,
    materials: Option<Materials>,
    deadline: Option<int>,
    format: Option<Format>,
    city: Option<string>)

  /** An answer; `safe` is the verdict on links inside public text. */
  datatype Value =
    | KindValue(kind: TaskKind)
    | CategoryValue(id: nat)
    | SizeValue(size: TimeSize)
    | NumberValue(n: int)
    | TextValue(text: string, safe: bool)
    | MaterialsValue(materials: Materials, foreign: bool, safe: bool)
    | DeadlineValue(at: int)
    | FormatValue(format: Format, city: Option<string>)

  datatype DraftError = Stale | NotEditable | WrongValue | Unavailable

  const TITLE_LIMIT := 80
  const DESCRIPTION_LIMIT := 1200
  const CRITERIA_LIMIT := 700
  const MATERIAL_LIMIT := 2000
  const MATERIAL_TEXT_LIMIT := 1000

  // ---------- validation ----------

  predicate RewardFits(size: TimeSize, reward: int) {
    match size
    case XS => 1 <= reward <= 2
    case S => 2 <= reward <= 4
    case M => 4 <= reward <= 7
    case L => 6 <= reward <= 10
    case XL => reward > 10
  }

  predicate SlotsFit(kind: TaskKind, slots: int) {
    match kind
    case Solo => slots == 1
    case Group => slots >= 2
  }

  predicate TextFits(text: string, limit: nat) {
    text != [] && Strip(text) == text && |text| <= limit
  }

  function CleanText(v: Value, limit: nat): Option<string> {
    if v.TextValue? && v.safe && Strip(v.text) != [] && |Strip(v.text)| <= limit then Some(Strip(v.text)) else None
  }

  function CleanMaterial(s: Option<string>, limit: nat): Result<Option<string>, DraftError> {
    match s
    case None => Success(None)
    case Some(text) =>
      if Strip(text) == [] || |text| > MATERIAL_LIMIT || |Strip(text)| > limit then Failure(WrongValue)
      else Success(Some(Strip(text)))
  }

  function CleanMaterials(v: Value): Option<Materials> {
    if !v.MaterialsValue? || v.foreign then None
    else if v.materials == Materials(None, None) then Some(v.materials)
    else if !v.safe then None
    else
      match (CleanMaterial(v.materials.text, MATERIAL_TEXT_LIMIT), CleanMaterial(v.materials.url, MATERIAL_LIMIT))
      case (Success(text), Success(url)) => Some(Materials(text, url))
      case _ => None
  }

  function CleanCity(f: Format, city: Option<string>): Result<Option<string>, DraftError> {
    var trimmed := if city.Some? && Strip(city.value) != [] then Some(Strip(city.value)) else None;
    if f == AnyFormat || (f == Offline && trimmed == None) then Failure(WrongValue) else Success(trimmed)
  }

  // ---------- the step machine ----------

  function NewDraft(): Draft {
    Draft(TaskKindStep, 0, None, None, None, None, None, None, None, None, None, None, None, None)
  }

  predicate Complete(d: Draft) {
    && d.kind.Some? && d.category.Some? && d.size.Some? && d.reward.Some? && d.title.Some? && d.description.Some?
    && d.criteria.Some? && d.materials.Some? && d.slots.Some? && d.deadline.Some? && d.format.Some?
  }

  /** Where an answered question leads: on to the next one, or back to a finished preview. */
  function Onward(d: Draft, next: Step): Step {
    if Complete(d) then Preview else next
  }

  function Changes(d: Draft, v: Value, now: int): Option<Draft> {
    match d.step
    case TaskKindStep =>
      if !v.KindValue? then None
      else
        var slots := if v.kind == Solo then 1 else if d.slots.Some? && d.slots.value > 2 then d.slots.value else 2;
        Some(d.(kind := Some(v.kind), slots := Some(slots),
                step := if Complete(d) && d.kind == Some(Solo) && v.kind == Group then SlotsStep
                        else Onward(d, CategoryStep)))
    case CategoryStep =>
      if !v.CategoryValue? then None else Some(d.(category := Some(v.id), step := Onward(d, TimeSizeStep)))
    case TimeSizeStep =>
      if !v.SizeValue? then None
      else
        Some(d.(size := Some(v.size), reward := if Complete(d) then d.reward else None,
                step := if Complete(d) then RewardStep
                        else if d.kind == Some(Group) then SlotsStep else RewardStep))
    case SlotsStep =>
      if d.kind == None || !v.NumberValue? || !SlotsFit(d.kind.value, v.n) then None
      else Some(d.(slots := Some(v.n), step := Onward(d, RewardStep)))
    case RewardStep =>
      if d.size == None || !v.NumberValue? || !RewardFits(d.size.value, v.n) then None
      else Some(d.(reward := Some(v.n), step := Onward(d, TitleStep)))
    case TitleStep =>
      var clean := CleanText(v, TITLE_LIMIT);
      if clean == None then None else Some(d.(title := clean, step := Onward(d, DescriptionStep)))
    case DescriptionStep =>
      var clean := CleanText(v, DESCRIPTION_LIMIT);
      if clean == None then None else Some(d.(description := clean, step := Onward(d, CriteriaStep)))
    case CriteriaStep =>
      var clean := CleanText(v, CRITERIA_LIMIT);
      if clean == None then None else Some(d.(criteria := clean, step := Onward(d, MaterialsStep)))
    case MaterialsStep =>
      var clean := CleanMaterials(v);
      if clean == None then None else Some(d.(materials := clean, step := Onward(d, DeadlineStep)))
    case DeadlineStep =>
      if !v.DeadlineValue? || v.at <= now then None
      else Some(d.(deadline := Some(v.at), step := Onward(d, FormatStep)))
    case FormatStep =>
      if !v.FormatValue? then None
      else
        (match CleanCity(v.format, v.city)
         case Failure(_) => None
         case Success(city) => Some(d.(format := Some(v.format), city := city, step := Preview)))
    case _ => None
  }

  function Advance(d: Draft, v: Value, now: int): Result<Draft, DraftError> {
    match Changes(d, v, now)
    case None => Failure(WrongValue)
    case Some(u) => Success(u.(revision := d.revision + 1))
  }

  function Edit(d: Draft, expected: nat, step: Step): Result<Draft, DraftError> {
    if step == Preview || step == PublishedStep then Failure(NotEditable)
    else if d.step != Preview || expected > d.revision then Failure(Stale)
    else if step == InputStep then Failure(NotEditable)
    else if step == SlotsStep && d.kind == Some(Solo) then Failure(NotEditable)
    else Success(d.(step := step, revision := d.revision + 1))
  }

  function Adjust(d: Draft, expected: nat, delta: int): Result<Draft, DraftError> {
    if delta != -5 && delta != -1 && delta != 1 && delta != 5 then Failure(WrongValue)
    else if d.step != SlotsStep || d.revision != expected then Failure(Stale)
    else if d.kind != Some(Group) then Failure(Unavailable)
    else
      var current := if d.slots.Some? && d.slots.value != 0 then d.slots.value else 2;
      if !SlotsFit(Group, current) then Failure(WrongValue)
      else Success(d.(slots := Some(if current + delta > 2 then current + delta else 2), revision := d.revision + 1))
  }

  datatype Op =
    | Answer(value: Value, now: int)
    | Revisit(expected: nat, step: Step)
    | Count(expected: nat, delta: int)

  function Do(d: Draft, op: Op): Result<Draft, DraftError> {
    match op
    case Answer(v, now) => Advance(d, v, now)
    case Revisit(expected, step) => Edit(d, expected, step)
    case Count(expected, delta) => Adjust(d, expected, delta)
  }

  function After(d: Draft, op: Op): Draft {
    match Do(d, op)
    case Success(u) => u
    case Failure(_) => d
  }

  function Run(d: Draft, ops: seq<Op>): Draft {
    if ops == [] then d else After(Run(d, ops[..|ops| - 1]), ops[|ops| - 1])
  }

  // ---------- what every draft satisfies ----------

  /** The order in which a new draft is filled in. */
  function Rank(s: Step): nat {
    match s
    case TaskKindStep => 0
    case CategoryStep => 1
    case TimeSizeStep => 2
    case SlotsStep => 3
    case RewardStep => 4
    case TitleStep => 5
    case DescriptionStep => 6
    case CriteriaStep => 7
    case MaterialsStep => 8
    case DeadlineStep => 9
    case FormatStep => 10
    case _ => 11
  }

  /** Whatever has been answered is valid; the reward may be stale only while it is being asked. */
  ghost predicate AnswersValid(d: Draft) {
    && d.step != InputStep && d.step != PublishedStep
    && (d.slots.Some? <==> d.kind.Some?) && (d.kind.Some? ==> SlotsFit(d.kind.value, d.slots.value))
    && (d.reward.Some? ==> d.size.Some? && (d.step == RewardStep || RewardFits(d.size.value, d.reward.value)))
    && (d.title.Some? ==> TextFits(d.title.value, TITLE_LIMIT))
    && (d.description.Some? ==> TextFits(d.description.value, DESCRIPTION_LIMIT))
    && (d.criteria.Some? ==> TextFits(d.criteria.value, CRITERIA_LIMIT))
    && (d.format.Some? ==> d.format.value != AnyFormat && (d.format.value == Offline ==> d.city.Some?))
    && (d.step == SlotsStep ==> d.kind == Some(Group))
  }

  /** A draft not yet complete has answered exactly the questions before its step. */
  ghost predicate InProgress(d: Draft) {
    && Rank(d.step) < 11
    && (d.kind.Some? <==> Rank(d.step) > 0) && (d.category.Some? <==> Rank(d.step) > 1)
    && (d.size.Some? <==> Rank(d.step) > 2) && (d.reward.Some? <==> Rank(d.step) > 4)
    && (d.title.Some? <==> Rank(d.step) > 5) && (d.description.Some? <==> Rank(d.step) > 6)
    && (d.criteria.Some? <==> Rank(d.step) > 7) && (d.materials.Some? <==> Rank(d.step) > 8)
    && (d.deadline.Some? <==> Rank(d.step) > 9) && d.format == None
  }

  ghost predicate DraftInv(d: Draft) {
    AnswersValid(d) && (Complete(d) || InProgress(d))
  }

  lemma CleanTextFits(v: Value, limit: nat)
    ensures CleanText(v, limit).Some? ==> TextFits(CleanText(v, limit).value, limit)
  {
    if v.TextValue? {
      StripTwice(v.text);
    }
  }

  lemma AdvanceKeeps(d: Draft, v: Value, now: int)
    requires DraftInv(d) && Advance(d, v, now).Success?
    ensures DraftInv(Advance(d, v, now).value)
  {
    hide TextFits, CleanText, CleanMaterials, RewardFits, CleanCity;
    var u := Advance(d, v, now).value;
    AnswerStaysValid(d, v, now);
    if Complete(d) {
      assert Complete(u);
    } else {
      assert Complete(u) || InProgress(u);
    }
  }

  lemma AnswerStaysValid(d: Draft, v: Value, now: int)
    requires AnswersValid(d) && Advance(d, v, now).Success?
    requires Complete(d) || InProgress(d)
    ensures AnswersValid(Advance(d, v, now).value)
  {
    hide TextFits, CleanText, CleanMaterials, RewardFits, InProgress;
    assert d.step == TimeSizeStep && !Complete(d) ==> d.reward == None by {
      PrefixOnly(d);
    }
    match d.step
    case TitleStep => CleanTextFits(v, TITLE_LIMIT);
    case DescriptionStep => CleanTextFits(v, DESCRIPTION_LIMIT);
    case CriteriaStep => CleanTextFits(v, CRITERIA_LIMIT);
    case FormatStep => CleanCityFits(v.format, v.city);
    case _ =>
  }

  lemma PrefixOnly(d: Draft)
    requires Complete(d) || InProgress(d)
    ensures d.step == TimeSizeStep && !Complete(d) ==> d.reward == None
  {
  }

  lemma CleanCityFits(f: Format, city: Option<string>)
    ensures CleanCity(f, city).Success? ==> f != AnyFormat && (f == Offline ==> CleanCity(f, city).value.Some?)
  {
    hide Strip;
  }

  lemma DoKeeps(d: Draft, op: Op)
    requires DraftInv(d)
    ensures DraftInv(After(d, op))
    ensures After(d, op) == d || After(d, op).revision == d.revision + 1
  {
    if op.Answer? && Advance(d, op.value, op.now).Success? {
      AdvanceKeeps(d, op.value, op.now);
    }
    hide TextFits, CleanText, CleanMaterials;
  }

  lemma {:induction false} RunKeeps(d: Draft, ops: seq<Op>)
    requires DraftInv(d)
    ensures DraftInv(Run(d, ops))
  {
    if ops != [] {
      RunKeeps(d, ops[..|ops| - 1]);
      DoKeeps(Run(d, ops[..|ops| - 1]), ops[|ops| - 1]);
    }
  }

  /** Whatever sequence of answers, edits and slot adjustments led there: a draft shown for preview
      has every field, slots that match its kind, and a reward validated for its time size. */
  lemma PreviewIsPublishable(ops: seq<Op>)
    ensures var d := Run(NewDraft(), ops);
            d.step == Preview ==>
              && Complete(d) && SlotsFit(d.kind.value, d.slots.value) && RewardFits(d.size.value, d.reward.value)
              && TextFits(d.title.value, TITLE_LIMIT) && TextFits(d.description.value, DESCRIPTION_LIMIT)
              && TextFits(d.criteria.value, CRITERIA_LIMIT)
              && d.format.value != AnyFormat && (d.format.value == Offline ==> d.city.Some?)
  {
    RunKeeps(NewDraft(), ops);
  }

  // ---------- termination ----------

  /** How many answers a draft still needs; a solo draft skips the slots question. */
  ghost function Remaining(d: Draft): int {
    if Complete(d) then
      match d.step
      case Preview => 0
      case TimeSizeStep => 2
      case TaskKindStep => if d.kind == Some(Solo) then 2 else 1
      case _ => 1
    else 11 - Rank(d.step) - if d.kind == Some(Solo) && Rank(d.step) <= 3 then 1 else 0
  }

  /** Every accepted answer brings the preview nearer: by exactly one, or, where a solo task stays
      or becomes solo, by the slots question it never has to answer. */
  lemma AnswersCountDown(d: Draft, v: Value, now: int)
    requires DraftInv(d) && Advance(d, v, now).Success?
    ensures var u := Advance(d, v, now).value;
            && 0 <= Remaining(u) < Remaining(d)
            && Remaining(u) >= Remaining(d) - 2
            && (Remaining(d) - Remaining(u) == 2 <==> d.step == TaskKindStep && v == KindValue(Solo) && (!Complete(d) || d.kind == Some(Solo)))
            && (Remaining(u) == 0 <==> u.step == Preview)
  {
    hide AnswersValid, TextFits, CleanText, CleanMaterials, RewardFits, CleanCity, SlotsFit;
    AskedWhom(d);
    if Complete(d) {
      FinishedCountsDown(d, v, now);
    } else {
      UnfinishedCountsDown(d, v, now);
    }
  }

  lemma AskedWhom(d: Draft)
    requires DraftInv(d)
    ensures d.step != InputStep && d.step != PublishedStep && (d.step == SlotsStep ==> d.kind == Some(Group))
  {
  }

  lemma FinishedCountsDown(d: Draft, v: Value, now: int)
    requires Complete(d) && Advance(d, v, now).Success? && d.step != Preview
    ensures var u := Advance(d, v, now).value;
            && Complete(u) && 0 <= Remaining(u) < Remaining(d) <= 2
            && (Remaining(d) - Remaining(u) == 2 <==> d.step == TaskKindStep && v == KindValue(Solo) && d.kind == Some(Solo))
            && (Remaining(u) == 0 <==> u.step == Preview)
  {
    hide TextFits, CleanText, CleanMaterials, RewardFits, CleanCity, SlotsFit;
  }

  lemma UnfinishedCountsDown(d: Draft, v: Value, now: int)
    requires !Complete(d) && InProgress(d) && Advance(d, v, now).Success? && d.step != InputStep && d.step != PublishedStep
    requires d.step == SlotsStep ==> d.kind == Some(Group)
    ensures var u := Advance(d, v, now).value;
            && 0 <= Remaining(u) < Remaining(d)
            && Remaining(u) >= Remaining(d) - 2
            && (Remaining(d) - Remaining(u) == 2 <==> d.step == TaskKindStep && v == KindValue(Solo))
            && (Remaining(u) == 0 <==> u.step == Preview)
  {
    hide TextFits, CleanText, CleanMaterials, RewardFits, CleanCity, SlotsFit;
    var u := Advance(d, v, now).value;
    assert d.format == None && (u.format == None || u.step == Preview);
    if d.step == TaskKindStep {
      assert d.category == None && u.category == None && !Complete(u);
      assert u.kind == Some(v.kind) && u.step == CategoryStep;
    } else {
      assert u.kind == d.kind;
      assert d.kind.Some? ==> d.kind.value == Solo || d.kind.value == Group;
    }
  }

  /** Answers accepted one after another. */
  ghost predicate Accepted(d: Draft, answers: seq<Op>) {
    forall k | 0 <= k < |answers| :: answers[k].Answer? && Do(Run(d, answers[..k]), answers[k]).Success?
  }

  lemma {:induction false} AnswersRunDown(d: Draft, answers: seq<Op>)
    requires DraftInv(d) && Accepted(d, answers)
    ensures DraftInv(Run(d, answers)) && 0 <= Remaining(Run(d, answers)) <= Remaining(d) - |answers|
    ensures d.step != TaskKindStep ==> Remaining(Run(d, answers)) == Remaining(d) - |answers| && Run(d, answers).step != TaskKindStep
    ensures answers != [] ==> Run(d, answers).step != TaskKindStep
  {
    if answers == [] {
      RemainingBounds(d);
    } else {
      var front, last := answers[..|answers| - 1], answers[|answers| - 1];
      forall k | 0 <= k < |front|
        ensures front[k].Answer? && Do(Run(d, front[..k]), front[k]).Success?
      {
        assert answers[..k] == front[..k] && answers[k] == front[k];
      }
      AnswersRunDown(d, front);
      AnswersCountDown(Run(d, front), last.value, last.now);
      AdvanceKeeps(Run(d, front), last.value, last.now);
      NeverBackToKind(Run(d, front), last.value, last.now);
    }
  }

  lemma RemainingBounds(d: Draft)
    requires DraftInv(d)
    ensures 0 <= Remaining(d) <= 11
    ensures Remaining(d) == 0 <==> d.step == Preview
  {
  }

  lemma NeverBackToKind(d: Draft, v: Value, now: int)
    requires Advance(d, v, now).Success?
    ensures Advance(d, v, now).value.step != TaskKindStep
  {
    hide TextFits, CleanText, CleanMaterials, RewardFits, CleanCity;
  }

  /** From the first question, at most eleven answers are ever accepted in a row, and the preview
      is reached exactly after ten for a solo task and eleven for a group task. */
  lemma ElevenAnswersAtMost(answers: seq<Op>)
    requires Accepted(NewDraft(), answers)
    ensures |answers| <= 11
    ensures var d := Run(NewDraft(), answers);
            d.step == Preview <==> d.kind.Some? && |answers| == if d.kind == Some(Solo) then 10 else 11
  {
    hide AnswersValid, InProgress, Changes, Remaining, Accepted, Complete, Run;
    if answers != [] {
      var d := FirstAnswer(answers);
      RestRun(NewDraft(), answers);
      AnswersRunDown(d, answers[1..]);
      KindStays(d, answers[1..]);
      RemainingBounds(Run(d, answers[1..]));
    } else {
      NothingRun(NewDraft());
    }
  }

  lemma NothingRun(d: Draft)
    ensures Run(d, []) == d
  {
  }

  /** The first answer settles how many are left. */
  lemma FirstAnswer(answers: seq<Op>) returns (d: Draft)
    requires Accepted(NewDraft(), answers) && answers != []
    ensures d == After(NewDraft(), answers[0]) && DraftInv(d) && d.step == CategoryStep && d.kind.Some?
    ensures Remaining(d) == if d.kind == Some(Solo) then 9 else 10
  {
    assert answers[..0] == [];
    assert Do(Run(NewDraft(), answers[..0]), answers[0]).Success?;
    d := After(NewDraft(), answers[0]);
    AdvanceKeeps(NewDraft(), answers[0].value, answers[0].now);
  }

  lemma {:induction false} RestRun(d: Draft, ops: seq<Op>)
    requires ops != []
    ensures Run(d, ops) == Run(After(d, ops[0]), ops[1..])
    ensures Accepted(d, ops) ==> Accepted(After(d, ops[0]), ops[1..])
  {
    RunSplits(d, ops, |ops|);
    if Accepted(d, ops) {
      forall k | 0 <= k < |ops| - 1
        ensures ops[1..][k].Answer? && Do(Run(After(d, ops[0]), ops[1..][..k]), ops[1..][k]).Success?
      {
        RunSplits(d, ops, k + 1);
        assert ops[1..k + 1] == ops[1..][..k];
      }
    }
    assert ops[..|ops|] == ops && ops[1..|ops|] == ops[1..];
  }

  lemma {:induction false} RunSplits(d: Draft, ops: seq<Op>, n: nat)
    requires 1 <= n <= |ops|
    ensures Run(d, ops[..n]) == Run(After(d, ops[0]), ops[1..n])
  {
    assert ops[..n][..n - 1] == ops[..n - 1];
    if n == 1 {
      assert ops[..0] == [] && ops[1..1] == [];
      assert Run(d, ops[..1]) == After(Run(d, []), ops[0]);
    } else {
      RunSplits(d, ops, n - 1);
      assert ops[1..n][..n - 2] == ops[1..n - 1];
    }
  }

  lemma {:induction false} KindStays(d: Draft, answers: seq<Op>)
    requires DraftInv(d) && Accepted(d, answers) && d.step != TaskKindStep
    ensures Run(d, answers).kind == d.kind
  {
    if answers != [] {
      var front, last := answers[..|answers| - 1], answers[|answers| - 1];
      forall k | 0 <= k < |front|
        ensures front[k].Answer? && Do(Run(d, front[..k]), front[k]).Success?
      {
        assert answers[..k] == front[..k] && answers[k] == front[k];
      }
      KindStays(d, front);
      AnswersRunDown(d, front);
      OnlyKindSetsKind(Run(d, front), last.value, last.now);
    }
  }

  lemma OnlyKindSetsKind(d: Draft, v: Value, now: int)
    requires d.step != TaskKindStep && Advance(d, v, now).Success?
    ensures Advance(d, v, now).value.kind == d.kind
  {
    hide TextFits, CleanText, CleanMaterials, RewardFits, CleanCity;
  }

  /** An edit of a finished draft needs at most two accepted answers to be back at the preview, and
      it needs two only for the time size and for turning a solo task into a group task. */
  lemma EditsReturn(d: Draft, expected: nat, step: Step, answers: seq<Op>)
    requires DraftInv(d) && Edit(d, expected, step).Success?
    requires Accepted(Edit(d, expected, step).value, answers)
    ensures |answers| <= 2
    ensures |answers| == 2 ==> Run(Edit(d, expected, step).value, answers).step == Preview
    ensures |answers| == 1 && step != TimeSizeStep && !(step == TaskKindStep && d.kind == Some(Solo) && answers[0].value == KindValue(Group)) ==>
              Run(Edit(d, expected, step).value, answers).step == Preview
  {
    var e := Edit(d, expected, step).value;
    EditedDraft(d, expected, step);
    hide AnswersValid, InProgress, Changes, Accepted, Complete, Run, Edit;
    AnswersRunDown(e, answers);
    RemainingBounds(Run(e, answers));
    if |answers| == 1 {
      OneAnswer(e, answers);
      FinishedCountsDown(e, answers[0].value, answers[0].now);
    }
  }

  lemma EditedDraft(d: Draft, expected: nat, step: Step)
    requires DraftInv(d) && Edit(d, expected, step).Success?
    ensures var e := Edit(d, expected, step).value;
            DraftInv(e) && Complete(e) && e.step == step && e.kind == d.kind && Remaining(e) <= 2
            && (Remaining(e) == 2 ==> step == TimeSizeStep || (step == TaskKindStep && d.kind == Some(Solo)))
  {
    DoKeeps(d, Revisit(expected, step));
  }

  lemma OneAnswer(d: Draft, answers: seq<Op>)
    requires |answers| == 1 && Accepted(d, answers)
    ensures answers[0].Answer? && Advance(d, answers[0].value, answers[0].now).Success?
    ensures Run(d, answers) == Advance(d, answers[0].value, answers[0].now).value
    ensures d.step == TaskKindStep ==> answers[0].value.KindValue?
    ensures d.step != Preview
  {
    assert answers[..0] == [];
    assert Do(Run(d, answers[..0]), answers[0]).Success?;
    hide CleanText, CleanMaterials, CleanCity;
  }

  // ---------- what an answer stores ----------

  /** The field a question asks for holds the answer given, trimmed. */
  predicate Holds(d: Draft, asked: Step, v: Value) {
    match asked
    case TaskKindStep => v.KindValue? && d.kind == Some(v.kind)
    case CategoryStep => v.CategoryValue? && d.category == Some(v.id)
    case TimeSizeStep => v.SizeValue? && d.size == Some(v.size)
    case SlotsStep => v.NumberValue? && d.slots == Some(v.n)
    case RewardStep => v.NumberValue? && d.reward == Some(v.n)
    case TitleStep => v.TextValue? && d.title == Some(Strip(v.text))
    case DescriptionStep => v.TextValue? && d.description == Some(Strip(v.text))
    case CriteriaStep => v.TextValue? && d.criteria == Some(Strip(v.text))
    case MaterialsStep =>
      v.MaterialsValue? && d.materials == Some(Materials(Trimmed(v.materials.text), Trimmed(v.materials.url)))
    case DeadlineStep => v.DeadlineValue? && d.deadline == Some(v.at)
    case FormatStep =>
      && v.FormatValue? && d.format == Some(v.format)
      && d.city == if Trimmed(v.city) == Some("") then None else Trimmed(v.city)
    case _ => false
  }

  function Trimmed(text: Option<string>): Option<string> {
    if text.None? then None else Some(Strip(text.value))
  }

  /** Between the two drafts only the answer to this question may differ; the slots follow the kind. */
  predicate SameBut(d: Draft, u: Draft, asked: Step) {
    && (asked == TaskKindStep || u.kind == d.kind)
    && (asked == CategoryStep || u.category == d.category)
    && (asked == TimeSizeStep || u.size == d.size)
    && (asked == SlotsStep || asked == TaskKindStep || u.slots == d.slots)
    && (asked == RewardStep || u.reward == d.reward)
    && (asked == TitleStep || u.title == d.title)
    && (asked == DescriptionStep || u.description == d.description)
    && (asked == CriteriaStep || u.criteria == d.criteria)
    && (asked == MaterialsStep || u.materials == d.materials)
    && (asked == DeadlineStep || u.deadline == d.deadline)
    && (asked == FormatStep || (u.format == d.format && u.city == d.city))
  }

  /** Which answers a question takes. */
  predicate Fits(d: Draft, v: Value, now: int) {
    match d.step
    case TaskKindStep => v.KindValue?
    case CategoryStep => v.CategoryValue?
    case TimeSizeStep => v.SizeValue?
    case SlotsStep => v.NumberValue? && v.n >= 2
    case RewardStep =>
      && v.NumberValue? && d.size.Some?
      && (d.size == Some(XS) ==> 1 <= v.n <= 2) && (d.size == Some(S) ==> 2 <= v.n <= 4)
      && (d.size == Some(M) ==> 4 <= v.n <= 7) && (d.size == Some(L) ==> 6 <= v.n <= 10)
      && (d.size == Some(XL) ==> v.n > 10)
    case TitleStep => TextAllowed(v, 80)
    case DescriptionStep => TextAllowed(v, 1200)
    case CriteriaStep => TextAllowed(v, 700)
    case MaterialsStep =>
      && v.MaterialsValue? && !v.foreign
      && (v.materials == Materials(None, None) || v.safe)
      && (v.materials.text.Some? ==> MaterialAllowed(v.materials.text.value, 1000))
      && (v.materials.url.Some? ==> MaterialAllowed(v.materials.url.value, 2000))
    case DeadlineStep => v.DeadlineValue? && v.at > now
    case FormatStep =>
      v.FormatValue? && v.format != AnyFormat && (v.format == Offline ==> v.city.Some? && Strip(v.city.value) != [])
    case _ => false
  }

  predicate TextAllowed(v: Value, limit: nat) {
    v.TextValue? && v.safe && 0 < |Strip(v.text)| <= limit
  }

  predicate MaterialAllowed(text: string, limit: nat) {
    0 < |Strip(text)| <= limit && |text| <= 2000
  }

  /** An answer is accepted exactly if it fits the question that is asked. */
  lemma AnswerGoesThrough(d: Draft, v: Value, now: int)
    requires DraftInv(d)
    ensures Advance(d, v, now).Success? <==> Fits(d, v, now)
  {
    hide Strip, InProgress, Complete;
    AskedWhom(d);
    SizeBeforeReward(d);
  }

  lemma SizeBeforeReward(d: Draft)
    requires DraftInv(d)
    ensures d.step == RewardStep ==> d.size.Some?
  {
  }

  /** It is then what the draft holds, trimmed, one revision later, and no other answer has changed but
      the slots with the kind: one for a solo task, and for a group at least two, or as many as before. */
  lemma AnswerIsStored(d: Draft, v: Value, now: int)
    requires DraftInv(d) && Advance(d, v, now).Success?
    ensures var u := Advance(d, v, now).value;
            && Holds(u, d.step, v) && SameBut(d, u, d.step) && u.revision == d.revision + 1
            && (d.step == TaskKindStep ==>
                  u.slots == Some(if v.kind == Solo then 1 else if d.slots.Some? && d.slots.value > 2 then d.slots.value else 2))
  {
    hide Strip, InProgress, Complete, RewardFits;
    AskedWhom(d);
    NoRewardYet(d);
  }

  lemma NoRewardYet(d: Draft)
    requires DraftInv(d)
    ensures d.step == TimeSizeStep && !Complete(d) ==> d.reward == None
  {
  }

  /** The buttons of the slots question go through exactly for the draft they were shown for, and set the
      slots to the number shown plus the button, but never below two. */
  lemma AdjustCounts(d: Draft, expected: nat, delta: int)
    requires DraftInv(d)
    ensures Adjust(d, expected, delta).Success? <==>
              delta in {-5, -1, 1, 5} && d.step == SlotsStep && d.revision == expected
    ensures Adjust(d, expected, delta).Success? ==>
              && d.slots.Some? && d.slots.value >= 2
              && var u := Adjust(d, expected, delta).value;
                 && u == d.(slots := u.slots, revision := d.revision + 1)
                 && u.slots.Some? && u.slots.value >= 2 && u.slots.value >= d.slots.value + delta
                 && (u.slots.value == 2 || u.slots.value == d.slots.value + delta)
  {
    hide InProgress, Complete, RewardFits, TextFits;
  }

  /** A question of a draft at preview can be asked again unless it has none; nothing is answered by that. */
  lemma RevisitAsks(d: Draft, expected: nat, step: Step)
    requires DraftInv(d)
    ensures Edit(d, expected, step).Success? <==>
              && d.step == Preview && expected <= d.revision && Rank(step) < 11
              && (step == SlotsStep ==> d.kind == Some(Group))
    ensures Edit(d, expected, step).Success? ==>
              var u := Edit(d, expected, step).value;
              SameBut(d, u, InputStep) && u.step == step && u.revision == d.revision + 1
  {
    hide InProgress, RewardFits, TextFits;
    PreviewHasKind(d);
  }

  lemma PreviewHasKind(d: Draft)
    requires DraftInv(d)
    ensures d.step == Preview ==> d.kind.Some?
  {
  }

  /** The operation replaces the answer to this question. */
  predicate Replaces(d: Draft, op: Op, asked: Step) {
    && Do(d, op).Success?
    && ((op.Answer? && d.step == asked) || (asked == SlotsStep && (op.Count? || (op.Answer? && d.step == TaskKindStep))))
  }

  lemma StandsAStep(d: Draft, op: Op, asked: Step, v: Value)
    requires DraftInv(d) && Holds(d, asked, v) && !Replaces(d, op, asked)
    ensures Holds(After(d, op), asked, v)
  {
    hide Strip, AnswersValid, InProgress, Complete, Changes, Adjust, Edit;
    if Do(d, op).Success? {
      match op
      case Answer(value, now) => AnswerIsStored(d, value, now);
      case Revisit(expected, step) => RevisitAsks(d, expected, step);
      case Count(expected, delta) => AdjustCounts(d, expected, delta);
    }
  }

  /** An accepted answer stands, whatever is answered, revisited or adjusted afterwards, until the same
      question is answered again. */
  lemma {:induction false} AnswerStands(d: Draft, v: Value, now: int, ops: seq<Op>)
    requires DraftInv(d) && Advance(d, v, now).Success?
    requires forall k | 0 <= k < |ops| :: !Replaces(Run(After(d, Answer(v, now)), ops[..k]), ops[k], d.step)
    ensures Holds(Run(After(d, Answer(v, now)), ops), d.step, v)
  {
    hide DraftInv, Holds, Advance, Replaces;
    var u := After(d, Answer(v, now));
    AnswerIsStored(d, v, now);
    DoKeeps(d, Answer(v, now));
    if ops != [] {
      var front, last := ops[..|ops| - 1], ops[|ops| - 1];
      forall k | 0 <= k < |front|
        ensures !Replaces(Run(u, front[..k]), front[k], d.step)
      {
        assert front[..k] == ops[..k] && front[k] == ops[k];
      }
      AnswerStands(d, v, now, front);
      RunKeeps(u, front);
      StandsAStep(Run(u, front), last, d.step, v);
    }
  }
}
