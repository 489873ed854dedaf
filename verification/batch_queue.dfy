/** The batch retouch queue of App.tsx as values: the item-list rebuilds, one
    transition function per state update, and `Drive`, the chain of steps that
    `processNextInQueue` schedules for itself. The class in AppComponent is
    proved against these functions; the lemmas here state what a run does. */
module BatchQueue {
  import opened Wrappers
  import opened Types

  /** Credits when nothing is stored (App.tsx:67). */
  const DefaultCredits := 3
  const OutOfCreditsMessage := "Out of credits"

  /** The component state: `mode`, `credits` and the processing state. */
  datatype AppState = AppState(mode: AppMode, credits: int, state: ProcessingState)

  const IdleState := ProcessingState(RunStatus.Idle, [], -1)

  function Min(a: int, b: int): int { if a <= b then a else b }

  // ------------------------------------------------------------------ credits

  /** The stored count, or the default when nothing is stored. */
  function InitialCredits(saved: Option<int>): (credits: int)
    ensures saved.Some? ==> credits == saved.value
    ensures saved.None? ==> credits == DefaultCredits
  {
    if saved.Some? then saved.value else DefaultCredits
  }

  /** `Math.max(0, prev - 1)`: one credit fewer, never below zero. */
  function SpendCredit(credits: int): (r: int)
    ensures r >= 0
    ensures credits >= 1 ==> r == credits - 1
    ensures credits <= 0 ==> r == 0
  {
    if credits - 1 > 0 then credits - 1 else 0
  }

  // ---------------------------------------------------------------- admission

  /** More than one admitted image forces batch mode; otherwise the mode stays. */
  function EffectiveMode(admitted: nat, mode: AppMode): (m: AppMode)
    ensures admitted > 1 ==> m == Batch
    ensures admitted <= 1 ==> m == mode
  {
    if admitted > 1 then Batch else mode
  }

  function NewItem(image: string, id: string): BatchItem
  {
    BatchItem(id, image, None, ItemStatus.Pending, None)
  }

  /** `base64Array.slice(0, credits).map(...)`: the first `credits` images, in
      order, each a fresh pending item. */
  function NewItems(images: seq<string>, credits: int, ids: nat -> string): (items: seq<BatchItem>)
    requires credits > 0
    ensures |items| == Min(|images|, credits)
    ensures forall i :: 0 <= i < |items| ==> items[i] == NewItem(images[i], ids(i))
    ensures forall i :: 0 <= i < |items| ==> items[i].status == ItemStatus.Pending
  {
    var n := Min(|images|, credits);
    seq(n, i requires 0 <= i < n => NewItem(images[i], ids(i)))
  }

  // ------------------------------------------------------ item-list rebuilds

  /** The item taken through the remote call's outcome. */
  function Settle(item: BatchItem, outcome: Outcome): (r: BatchItem)
    ensures r.id == item.id && r.originalImage == item.originalImage
    ensures outcome.Success? ==>
      r.status == ItemStatus.Completed && r.resultImage == Some(outcome.value) && r.error == item.error
    ensures outcome.Failure? ==>
      r.status == ItemStatus.Error && r.error == Some(outcome.error) && r.resultImage == item.resultImage
  {
    match outcome
    case Success(result) => item.(status := ItemStatus.Completed, resultImage := Some(result))
    case Failure(message) => item.(status := ItemStatus.Error, error := Some(message))
  }

  /** The same number of items, each with the same id and original image. */
  predicate SameItems(a: seq<BatchItem>, b: seq<BatchItem>)
  {
    |a| == |b| &&
    forall j :: 0 <= j < |a| ==> a[j].id == b[j].id && a[j].originalImage == b[j].originalImage
  }

  /** Items before the cursor are settled, the rest still pending. */
  predicate Waiting(items: seq<BatchItem>, cursor: nat)
  {
    cursor <= |items| &&
    (forall j :: 0 <= j < cursor ==> Terminal(items[j])) &&
    (forall j :: cursor <= j < |items| ==> items[j].status == ItemStatus.Pending)
  }

  /** Items before the cursor are settled, the one at the cursor is being
      processed, the rest are pending. */
  predicate InFlight(items: seq<BatchItem>, cursor: nat)
  {
    cursor < |items| &&
    (forall j :: 0 <= j < cursor ==> Terminal(items[j])) &&
    items[cursor].status == ItemStatus.Processing &&
    (forall j :: cursor < j < |items| ==> items[j].status == ItemStatus.Pending)
  }

  /** The out-of-credits rebuild: every item from `from` on fails, whatever its status. */
  function MarkOutOfCredits(items: seq<BatchItem>, from: nat): (r: seq<BatchItem>)
    ensures |r| == |items|
    ensures forall j :: 0 <= j < |items| && j < from ==> r[j] == items[j]
    ensures forall j :: from <= j < |items| ==>
      r[j] == items[j].(status := ItemStatus.Error, error := Some(OutOfCreditsMessage))
  {
    seq(|items|, j requires 0 <= j < |items| =>
      if j >= from then items[j].(status := ItemStatus.Error, error := Some(OutOfCreditsMessage)) else items[j])
  }

  /** The item at `index` becomes `processing`; nothing else changes. */
  function StartAt(items: seq<BatchItem>, index: nat): (r: seq<BatchItem>)
    ensures |r| == |items|
    ensures forall j :: 0 <= j < |items| && j != index ==> r[j] == items[j]
    ensures index < |items| ==> r[index] == items[index].(status := ItemStatus.Processing)
    ensures Waiting(items, index) && index < |items| ==> InFlight(r, index)
  {
    seq(|items|, j requires 0 <= j < |items| =>
      if j == index then items[j].(status := ItemStatus.Processing) else items[j])
  }

  /** The item at `index` is settled by the outcome; nothing else changes. */
  function SettleAt(items: seq<BatchItem>, index: nat, outcome: Outcome): (r: seq<BatchItem>)
    ensures |r| == |items|
    ensures forall j :: 0 <= j < |items| && j != index ==> r[j] == items[j]
    ensures index < |items| ==> r[index] == Settle(items[index], outcome)
    ensures InFlight(items, index) ==> Waiting(r, index + 1)
  {
    seq(|items|, j requires 0 <= j < |items| =>
      if j == index then Settle(items[j], outcome) else items[j])
  }

  // -------------------------------------------------------------- transitions

  /** `handleImagesSelected` up to its call of `processNextInQueue(0, ...)`. */
  function Admission(s: AppState, images: seq<string>, ids: nat -> string): (r: AppState)
    ensures s.credits <= 0 ==> r == s
    ensures s.credits > 0 ==>
      var n := Min(|images|, s.credits);
      r.credits == s.credits &&
      r.mode == (if n > 1 then Batch else s.mode) &&
      r.state.status == RunStatus.Processing &&
      r.state.currentProcessingIndex == 0 &&
      r.state.batchItems == NewItems(images, s.credits, ids) &&
      Waiting(r.state.batchItems, 0)
  {
    if s.credits <= 0 then s
    else
      var items := NewItems(images, s.credits, ids);
      AppState(EffectiveMode(|items|, s.mode), s.credits, ProcessingState(RunStatus.Processing, items, 0))
  }

  /** Whether the step at `index` reaches the remote call: `items` is the list
      the step was scheduled with, `captured` the credits it compares. */
  predicate Continues(index: nat, items: seq<BatchItem>, captured: int)
  {
    index < |items| && captured > 0
  }

  /** The part of `processNextInQueue` before its `await`. It never touches
      credits, mode or the number of items; a step that goes on to the remote
      call moves the cursor, one that does not ends the run, completed or in
      error. */
  function BeginStep(s: AppState, index: nat, items: seq<BatchItem>, captured: int): (r: AppState)
    ensures r.mode == s.mode && r.credits == s.credits
    ensures |r.state.batchItems| == |s.state.batchItems|
    ensures Continues(index, items, captured) ==>
      r.state.status == s.state.status && r.state.currentProcessingIndex == index
    ensures !Continues(index, items, captured) ==>
      r.state.status == (if index >= |items| then RunStatus.Completed else RunStatus.Error)
  {
    if index >= |items| then s.(state := s.state.(status := RunStatus.Completed))
    else if captured <= 0 then
      s.(state := s.state.(status := RunStatus.Error, batchItems := MarkOutOfCredits(s.state.batchItems, index)))
    else
      s.(state := s.state.(currentProcessingIndex := index, batchItems := StartAt(s.state.batchItems, index)))
  }

  /** The part of `processNextInQueue` after its `await`: a success spends a
      credit of the current count, a failure spends none; mode, status, cursor
      and the number of items stay. */
  function FinishStep(s: AppState, index: nat, outcome: Outcome): (r: AppState)
    ensures r.mode == s.mode && r.state.status == s.state.status
    ensures r.state.currentProcessingIndex == s.state.currentProcessingIndex
    ensures r.credits == (if outcome.Success? then SpendCredit(s.credits) else s.credits)
    ensures |r.state.batchItems| == |s.state.batchItems|
  {
    match outcome
    case Success(_) =>
      AppState(s.mode, SpendCredit(s.credits), s.state.(batchItems := SettleAt(s.state.batchItems, index, outcome)))
    case Failure(_) =>
      s.(state := s.state.(batchItems := SettleAt(s.state.batchItems, index, outcome)))
  }

  /** Neither half of a step changes an item's id or original image; a step
      that reaches the remote call takes a settled-then-pending queue to one
      with the cursor's item in flight, and back to settled-then-pending one
      position further on. */
  lemma StepKeepsQueueShape(s: AppState, index: nat, items: seq<BatchItem>, captured: int, outcome: Outcome)
    ensures SameItems(BeginStep(s, index, items, captured).state.batchItems, s.state.batchItems)
    ensures SameItems(FinishStep(s, index, outcome).state.batchItems, s.state.batchItems)
    ensures Continues(index, items, captured) && Waiting(s.state.batchItems, index) && index < |s.state.batchItems| ==>
      InFlight(BeginStep(s, index, items, captured).state.batchItems, index)
    ensures InFlight(s.state.batchItems, index) ==>
      Waiting(FinishStep(s, index, outcome).state.batchItems, index + 1)
  {
  }

  function Measure(s: AppState, index: nat, items: seq<BatchItem>): nat
  {
    var len := if |items| >= |s.state.batchItems| then |items| else |s.state.batchItems|;
    if len >= index then len - index else 0
  }

  /** The chain of steps from `processNextInQueue(index, items)`, each step
      scheduling the next with `index + 1` and its own rebuilt list, the
      remote call for item `i` answering `oracle(i)`. */
  function Drive(s: AppState, index: nat, items: seq<BatchItem>, captured: int, oracle: nat -> Outcome): (r: AppState)
    ensures r.mode == s.mode
    ensures r.state.status == RunStatus.Completed || r.state.status == RunStatus.Error
    ensures |r.state.batchItems| == |s.state.batchItems|
    ensures r.credits <= (if s.credits > 0 then s.credits else 0)
    decreases Measure(s, index, items)
  {
    if Continues(index, items, captured) then
      var next := FinishStep(BeginStep(s, index, items, captured), index, oracle(index));
      Drive(next, index + 1, next.state.batchItems, captured, oracle)
    else BeginStep(s, index, items, captured)
  }

  /** One turn of the chain over a settled-then-pending queue: a step that
      reaches the remote call hands over to the chain from `index + 1`, with
      the same shape one position further on and the same items as `start`;
      one that does not is the end, and the whole queue was settled. */
  lemma StepAdvances(s: AppState, index: nat, items: seq<BatchItem>, captured: int, oracle: nat -> Outcome, start: seq<BatchItem>)
    requires s.state.batchItems == items && Waiting(items, index) && captured > 0
    requires SameItems(items, start)
    ensures var next := FinishStep(BeginStep(s, index, items, captured), index, oracle(index));
      Continues(index, items, captured) ==>
        Drive(s, index, items, captured, oracle) == Drive(next, index + 1, next.state.batchItems, captured, oracle) &&
        Waiting(next.state.batchItems, index + 1) &&
        SameItems(next.state.batchItems, start)
    ensures !Continues(index, items, captured) ==>
      Drive(s, index, items, captured, oracle) == BeginStep(s, index, items, captured) && index == |items|
  {
    var begun := BeginStep(s, index, items, captured);
    StepKeepsQueueShape(s, index, items, captured, oracle(index));
    StepKeepsQueueShape(begun, index, items, captured, oracle(index));
  }

  /** A whole submission: admission, then the chain from index 0 with the
      credits counted at submission. */
  function Submit(s: AppState, images: seq<string>, ids: nat -> string, oracle: nat -> Outcome): (r: AppState)
    ensures s.credits <= 0 ==> r == s
    ensures s.credits > 0 ==>
      var n := Min(|images|, s.credits);
      r.mode == EffectiveMode(n, s.mode) &&
      (r.state.status == RunStatus.Completed || r.state.status == RunStatus.Error) &&
      |r.state.batchItems| == n &&
      r.credits <= s.credits
  {
    if s.credits <= 0 then s
    else
      var admitted := Admission(s, images, ids);
      Drive(admitted, 0, admitted.state.batchItems, s.credits, oracle)
  }

  /** `reset`: an idle, empty run; credits and mode untouched. */
  function ResetState(s: AppState): (r: AppState)
    ensures r.credits == s.credits && r.mode == s.mode
    ensures r.state.status == RunStatus.Idle && r.state.batchItems == [] && r.state.currentProcessingIndex == -1
  {
    s.(state := IdleState)
  }

  // ----------------------------------------------------------------- counting

  function CountStatus(items: seq<BatchItem>, status: ItemStatus): nat
  {
    if |items| == 0 then 0
    else (if items[0].status == status then 1 else 0) + CountStatus(items[1..], status)
  }

  /** The number of successful outcomes among items `from` to `to - 1`. */
  function CountSuccesses(oracle: nat -> Outcome, from: nat, to: nat): nat
    decreases to - from
  {
    if from >= to then 0
    else (if oracle(from).Success? then 1 else 0) + CountSuccesses(oracle, from + 1, to)
  }

  /** The items from `from` on, each settled by its own outcome. */
  function SettledFrom(items: seq<BatchItem>, from: nat, oracle: nat -> Outcome): (r: seq<BatchItem>)
    ensures |r| == |items|
    ensures forall j :: 0 <= j < |items| && j < from ==> r[j] == items[j]
    ensures forall j :: from <= j < |items| ==> r[j] == Settle(items[j], oracle(j))
  {
    seq(|items|, j requires 0 <= j < |items| => if j < from then items[j] else Settle(items[j], oracle(j)))
  }

  lemma {:induction false} CountStatusAppend(a: seq<BatchItem>, b: seq<BatchItem>, status: ItemStatus)
    ensures CountStatus(a + b, status) == CountStatus(a, status) + CountStatus(b, status)
    decreases |a|
  {
    if |a| > 0 {
      assert (a + b)[1..] == a[1..] + b;
      CountStatusAppend(a[1..], b, status);
    } else {
      assert a + b == b;
    }
  }

  lemma {:induction false} CountStatusAbsent(items: seq<BatchItem>, status: ItemStatus)
    requires forall j :: 0 <= j < |items| ==> items[j].status != status
    ensures CountStatus(items, status) == 0
    decreases |items|
  {
    if |items| > 0 {
      CountStatusAbsent(items[1..], status);
    }
  }

  /** Between steps no item is being processed. */
  lemma WaitingNoneProcessing(items: seq<BatchItem>, cursor: nat)
    requires Waiting(items, cursor)
    ensures CountStatus(items, ItemStatus.Processing) == 0
  {
    CountStatusAbsent(items, ItemStatus.Processing);
  }

  /** During a step exactly one item, the one at the cursor, is being processed. */
  lemma InFlightOneProcessing(items: seq<BatchItem>, cursor: nat)
    requires InFlight(items, cursor)
    ensures CountStatus(items, ItemStatus.Processing) == 1
    ensures forall j :: 0 <= j < |items| && items[j].status == ItemStatus.Processing ==> j == cursor
  {
    var before, rest := items[..cursor], items[cursor + 1..];
    assert items == before + [items[cursor]] + rest;
    CountStatusAppend(before + [items[cursor]], rest, ItemStatus.Processing);
    CountStatusAppend(before, [items[cursor]], ItemStatus.Processing);
    CountStatusAbsent(before, ItemStatus.Processing);
    CountStatusAbsent(rest, ItemStatus.Processing);
  }

  lemma {:induction false} CountSuccessesAtMost(oracle: nat -> Outcome, from: nat, to: nat)
    ensures CountSuccesses(oracle, from, to) <= (if to >= from then to - from else 0)
    decreases if to >= from then to - from else 0
  {
    if from < to {
      CountSuccessesAtMost(oracle, from + 1, to);
    }
  }

  /** When every item is settled by its outcome, the completed items are the successes. */
  lemma {:induction false} CompletedAreSuccesses(items: seq<BatchItem>, from: nat, oracle: nat -> Outcome)
    requires from <= |items|
    requires forall j :: from <= j < |items| ==> (items[j].status == ItemStatus.Completed <==> oracle(j).Success?)
    ensures CountStatus(items[from..], ItemStatus.Completed) == CountSuccesses(oracle, from, |items|)
    decreases |items| - from
  {
    if from < |items| {
      assert items[from..][1..] == items[from + 1..];
      CompletedAreSuccesses(items, from + 1, oracle);
    }
  }

  // ------------------------------------------------------------------ the run

  /** One full step changes only the item at the cursor: it is settled by the
      outcome, the cursor moves there, and a success costs one credit. */
  lemma StepTouchesOnlyCursor(s: AppState, index: nat, items: seq<BatchItem>, captured: int, outcome: Outcome)
    requires Continues(index, items, captured)
    ensures var r := FinishStep(BeginStep(s, index, items, captured), index, outcome);
      |r.state.batchItems| == |s.state.batchItems| &&
      (forall j :: 0 <= j < |s.state.batchItems| && j != index ==> r.state.batchItems[j] == s.state.batchItems[j]) &&
      (index < |s.state.batchItems| ==> r.state.batchItems[index] == Settle(s.state.batchItems[index], outcome)) &&
      r.state.currentProcessingIndex == index && r.state.status == s.state.status && r.mode == s.mode &&
      r.credits == (if outcome.Success? then SpendCredit(s.credits) else s.credits)
  {
  }

  /** From a state whose list is the one the chain carries and with enough
      credits for the rest, the chain settles every remaining item by its own
      outcome, in index order, spends one credit per success, and ends completed. */
  lemma {:induction false} DriveSettlesRest(s: AppState, index: nat, items: seq<BatchItem>, captured: int, oracle: nat -> Outcome)
    requires s.state.batchItems == items && index <= |items|
    requires captured > 0
    requires s.credits >= |items| - index
    ensures Drive(s, index, items, captured, oracle) == SettledRun(s, index, items, oracle)
    decreases |items| - index
  {
    if index == |items| {
      ChainEndSettled(s, index, items, captured, oracle);
    } else {
      var next := StepSettlesCursor(s, index, items, captured, oracle);
      DriveSettlesRest(next, index + 1, next.state.batchItems, captured, oracle);
      SettledRunStep(s, next, index, items, oracle);
    }
  }

  /** The end of a chain that settled every item from `index` on: one credit
      fewer per success, the run completed, the cursor on the last item. */
  function SettledRun(s: AppState, index: nat, items: seq<BatchItem>, oracle: nat -> Outcome): AppState
  {
    AppState(s.mode, s.credits - CountSuccesses(oracle, index, |items|),
      ProcessingState(RunStatus.Completed, SettledFrom(items, index, oracle),
        if index < |items| then |items| - 1 else s.state.currentProcessingIndex))
  }

  /** With nothing left to settle, the chain's end is the closed form. */
  lemma ChainEndSettled(s: AppState, index: nat, items: seq<BatchItem>, captured: int, oracle: nat -> Outcome)
    requires s.state.batchItems == items && index == |items|
    ensures Drive(s, index, items, captured, oracle) == SettledRun(s, index, items, oracle)
  {
    assert SettledFrom(items, index, oracle) == items;
  }

  /** The closed form after the first step equals the closed form before it. */
  lemma SettledRunStep(s: AppState, next: AppState, index: nat, items: seq<BatchItem>, oracle: nat -> Outcome)
    requires index < |items|
    requires next.mode == s.mode && next.state.currentProcessingIndex == index
    requires |next.state.batchItems| == |items|
    requires next.credits == s.credits - (if oracle(index).Success? then 1 else 0)
    requires SettledFrom(next.state.batchItems, index + 1, oracle) == SettledFrom(items, index, oracle)
    ensures SettledRun(next, index + 1, next.state.batchItems, oracle) == SettledRun(s, index, items, oracle)
  {
    assert CountSuccesses(oracle, index, |items|) ==
      (if oracle(index).Success? then 1 else 0) + CountSuccesses(oracle, index + 1, |items|);
  }

  /** The first step of the chain, as DriveSettlesRest uses it. */
  lemma StepSettlesCursor(s: AppState, index: nat, items: seq<BatchItem>, captured: int, oracle: nat -> Outcome)
    returns (next: AppState)
    requires s.state.batchItems == items && index < |items|
    requires captured > 0
    requires s.credits >= |items| - index
    ensures Drive(s, index, items, captured, oracle) == Drive(next, index + 1, next.state.batchItems, captured, oracle)
    ensures next.mode == s.mode && next.state.currentProcessingIndex == index
    ensures |next.state.batchItems| == |items|
    ensures next.credits == s.credits - (if oracle(index).Success? then 1 else 0)
    ensures next.credits >= |items| - (index + 1)
    ensures SettledFrom(next.state.batchItems, index + 1, oracle) == SettledFrom(items, index, oracle)
  {
    next := FinishStep(BeginStep(s, index, items, captured), index, oracle(index));
    assert next.state.batchItems == SettleAt(StartAt(items, index), index, oracle(index));
    SettleCursorThenRest(items, index, oracle);
  }

  /** Settling the cursor's item in flight and then the rest is settling from the cursor on. */
  lemma SettleCursorThenRest(items: seq<BatchItem>, index: nat, oracle: nat -> Outcome)
    requires index < |items|
    ensures SettledFrom(SettleAt(StartAt(items, index), index, oracle(index)), index + 1, oracle) == SettledFrom(items, index, oracle)
  {
    var settled := SettleAt(StartAt(items, index), index, oracle(index));
    assert Settle(items[index].(status := ItemStatus.Processing), oracle(index)) == Settle(items[index], oracle(index));
    assert settled[index] == Settle(items[index], oracle(index));
  }

  /** A submission with credits left admits the first min(n, credits) images
      in order, settles each by its own outcome, ends completed, and spends
      exactly one credit per completed item, never going below zero; the
      per-step credit check, comparing the count taken at submission, never
      aborts such a run. */
  lemma SubmitSettlesAdmitted(s: AppState, images: seq<string>, ids: nat -> string, oracle: nat -> Outcome)
    requires s.credits > 0
    ensures var n := Min(|images|, s.credits);
      var r := Submit(s, images, ids, oracle);
      r.mode == (if n > 1 then Batch else s.mode) &&
      r.state.status == RunStatus.Completed &&
      |r.state.batchItems| == n &&
      (forall i :: 0 <= i < n ==>
        var item := r.state.batchItems[i];
        item.id == ids(i) && item.originalImage == images[i] &&
        (oracle(i).Success? ==>
          item.status == ItemStatus.Completed && item.resultImage == Some(oracle(i).value) && item.error.None?) &&
        (oracle(i).Failure? ==>
          item.status == ItemStatus.Error && item.error == Some(oracle(i).error) && item.resultImage.None?)) &&
      r.credits == s.credits - CountStatus(r.state.batchItems, ItemStatus.Completed) &&
      r.credits >= 0 &&
      r.state.currentProcessingIndex == (if n == 0 then 0 else n - 1)
  {
    var admitted := Admission(s, images, ids);
    var items := admitted.state.batchItems;
    DriveSettlesRest(admitted, 0, items, s.credits, oracle);
    var r := Submit(s, images, ids, oracle);
    assert r.state.batchItems == SettledFrom(items, 0, oracle);
    CompletedAreSuccesses(r.state.batchItems, 0, oracle);
    assert r.state.batchItems[0..] == r.state.batchItems;
    CountSuccessesAtMost(oracle, 0, |items|);
  }

  /** When the credits the step compares are used up, every item from the
      cursor on fails with 'Out of credits' whatever its status, earlier items
      stay as they were, the run ends in error, and no further step follows. */
  lemma CreditCheckAborts(s: AppState, index: nat, items: seq<BatchItem>, captured: int, oracle: nat -> Outcome)
    requires index < |items| && captured <= 0
    ensures var r := Drive(s, index, items, captured, oracle);
      r.mode == s.mode && r.credits == s.credits &&
      r.state.status == RunStatus.Error &&
      r.state.currentProcessingIndex == s.state.currentProcessingIndex &&
      |r.state.batchItems| == |s.state.batchItems| &&
      (forall j :: 0 <= j < |s.state.batchItems| && j < index ==> r.state.batchItems[j] == s.state.batchItems[j]) &&
      (forall j :: index <= j < |s.state.batchItems| ==>
        r.state.batchItems[j].status == ItemStatus.Error &&
        r.state.batchItems[j].error == Some(OutOfCreditsMessage) &&
        r.state.batchItems[j].resultImage == s.state.batchItems[j].resultImage &&
        r.state.batchItems[j].originalImage == s.state.batchItems[j].originalImage)
  {
  }

  /** Past the last item the chain ends: the run is completed and nothing else changes. */
  lemma ChainEndCompletes(s: AppState, index: nat, items: seq<BatchItem>, captured: int, oracle: nat -> Outcome)
    requires index >= |items|
    ensures Drive(s, index, items, captured, oracle) == s.(state := s.state.(status := RunStatus.Completed))
  {
  }

  /** Without credits a submission changes nothing. */
  lemma SubmitWithoutCredits(s: AppState, images: seq<string>, ids: nat -> string, oracle: nat -> Outcome)
    requires s.credits <= 0
    ensures Submit(s, images, ids, oracle) == s
  {
  }

  /** What ran before has no bearing on a submission after `reset`. */
  lemma SubmitAfterReset(s: AppState, images: seq<string>, ids: nat -> string, oracle: nat -> Outcome)
    requires s.credits > 0
    ensures Submit(ResetState(s), images, ids, oracle) == Submit(s, images, ids, oracle)
  {
  }

  /** There is no guard against a response that arrives after `reset`: it
      still spends a credit, and the step it schedules marks the emptied run
      completed. */
  lemma StaleResponseAfterReset(s: AppState, index: nat, result: string, captured: int, oracle: nat -> Outcome)
    ensures var r := FinishStep(ResetState(s), index, Success(result));
      r.credits == SpendCredit(s.credits) &&
      r.state.batchItems == [] &&
      Drive(r, index + 1, r.state.batchItems, captured, oracle).state.status == RunStatus.Completed
  {
  }

  /** There is no guard either against a step that was already scheduled
      when `reset` came: it still runs with the discarded list, moves the
      cursor of the idle state to its index, sends that item, and spends a
      credit on success; the step after it marks the emptied run completed. */
  lemma StaleStepAfterReset(s: AppState, index: nat, stale: seq<BatchItem>, captured: int, oracle: nat -> Outcome)
    requires index < |stale| && captured > 0
    ensures var r := Drive(ResetState(s), index, stale, captured, oracle);
      r.mode == s.mode &&
      r.credits == (if oracle(index).Success? then SpendCredit(s.credits) else s.credits) &&
      r.state.batchItems == [] &&
      r.state.currentProcessingIndex == index &&
      r.state.status == RunStatus.Completed
  {
  }
}
