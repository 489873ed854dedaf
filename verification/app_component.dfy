/** The App component of App.tsx as an object: its `mode`, `credits`,
    `state` and `options` fields, and the three operations that update them.
    Each method is proved against the transition functions of BatchQueue. */
module AppComponent {
  import opened Wrappers
  import opened Types
  import opened BatchQueue
  import GeminiService

  /** The arguments of one `retouchJewelryImage` call; GeminiService.RetouchJewelryImage
      turns them into the request the SDK receives. */
  datatype RetouchCall = RetouchCall(image: string, options: RetouchOptions)

  /** The style options the component starts with (App.tsx:76-82). */
  const DefaultOptions := RetouchOptions(Background.White, Intensity.Pro, Some(Silver), Some(Original), Some(Ratio1x1))

  /** When every remote call is `retouchJewelryImage`, every item that a
      submitted run leaves in error carries the service's one fixed message,
      unless building the client failed, whose own message it then carries;
      every completed item holds a data URL. */
  lemma SubmittedFailuresReadFixedMessage(s: AppState, images: seq<string>, ids: nat -> string,
                                           responses: nat -> GeminiService.GenerateResponse)
    requires s.credits > 0
    ensures var r := Submit(s, images, ids, (i: nat) => GeminiService.RetouchResult(responses(i)));
      forall i :: 0 <= i < |r.state.batchItems| ==>
        (r.state.batchItems[i].status == ItemStatus.Error ==>
          r.state.batchItems[i].error ==
            Some(if responses(i).ClientThrew? then responses(i).message else GeminiService.RetouchFailureMessage)) &&
        (r.state.batchItems[i].status == ItemStatus.Completed ==>
          r.state.batchItems[i].resultImage.Some? &&
          |r.state.batchItems[i].resultImage.value| >= 5 &&
          r.state.batchItems[i].resultImage.value[..5] == "data:")
  {
    var oracle := (i: nat) => GeminiService.RetouchResult(responses(i));
    SubmitSettlesAdmitted(s, images, ids, oracle);
    var r := Submit(s, images, ids, oracle);
    forall i | 0 <= i < |r.state.batchItems|
      ensures r.state.batchItems[i].status == ItemStatus.Error ==>
        r.state.batchItems[i].error ==
          Some(if responses(i).ClientThrew? then responses(i).message else GeminiService.RetouchFailureMessage)
      ensures r.state.batchItems[i].status == ItemStatus.Completed ==>
        r.state.batchItems[i].resultImage.Some? &&
        |r.state.batchItems[i].resultImage.value| >= 5 &&
        r.state.batchItems[i].resultImage.value[..5] == "data:"
    {
      var outcome := GeminiService.RetouchResult(responses(i));
      assert oracle(i) == outcome;
    }
  }

  class App {
    var mode: AppMode
    var credits: int
    var state: ProcessingState
    var options: RetouchOptions

    function Snapshot(): AppState
      reads this
    {
      AppState(mode, credits, state)
    }

    /** Mount: single mode, the stored credits (3 when nothing is stored), an idle run. */
    constructor (saved: Option<int>)
      ensures Snapshot() == AppState(Single, InitialCredits(saved), IdleState)
      ensures options == DefaultOptions
    {
      mode := Single;
      credits := InitialCredits(saved);
      state := IdleState;
      options := DefaultOptions;
    }

    /** One call of `processNextInQueue(index, items)`, made with the credits
        and options taken when the batch was submitted. When it reaches the
        remote call, `request` is what was sent for `items[index]` and
        `outcome` is what came back; `next` is the list the following step is
        scheduled with. */
    method ProcessNextInQueue(index: nat, items: seq<BatchItem>, captured: int, capturedOptions: RetouchOptions, outcome: Outcome)
      returns (request: Option<RetouchCall>, next: Option<seq<BatchItem>>)
      modifies this
      ensures next.Some? <==> Continues(index, items, captured)
      ensures request.Some? <==> Continues(index, items, captured)
      ensures request.Some? ==>
        request.value == RetouchCall(items[index].originalImage, capturedOptions)
      ensures !Continues(index, items, captured) ==>
        Snapshot() == BeginStep(old(Snapshot()), index, items, captured)
      ensures Continues(index, items, captured) ==>
        Snapshot() == FinishStep(BeginStep(old(Snapshot()), index, items, captured), index, outcome) &&
        next.value == state.batchItems
      ensures options == old(options)
    {
      if index >= |items| {
        state := state.(status := RunStatus.Completed);
        return None, None;
      }
      if captured <= 0 {
        state := state.(status := RunStatus.Error, batchItems := MarkOutOfCredits(state.batchItems, index));
        return None, None;
      }
      state := state.(currentProcessingIndex := index, batchItems := StartAt(state.batchItems, index));
      request := Some(RetouchCall(items[index].originalImage, capturedOptions));
      match outcome {
        case Success(_) =>
          // The completion chime has no effect on the state.
          credits := SpendCredit(credits);
          state := state.(batchItems := SettleAt(state.batchItems, index, outcome));
        case Failure(_) =>
          state := state.(batchItems := SettleAt(state.batchItems, index, outcome));
      }
      next := Some(state.batchItems);
    }

    /** `handleImagesSelected`: admission, then the self-scheduling chain of
        steps, the call for item `i` answering `oracle(i)` and new item `i`
        receiving the id `ids(i)`. `sent` lists the requests of the remote
        calls in the order they were made: one per admitted image, in index
        order, each with the options taken at submission. */
    method HandleImagesSelected(images: seq<string>, ids: nat -> string, oracle: nat -> Outcome)
      returns (sent: seq<RetouchCall>)
      modifies this
      ensures Snapshot() == Submit(old(Snapshot()), images, ids, oracle)
      ensures options == old(options)
      ensures old(credits) <= 0 ==> sent == []
      ensures old(credits) > 0 ==>
        |sent| == Min(|images|, old(credits)) &&
        forall i :: 0 <= i < |sent| ==> sent[i] == RetouchCall(images[i], old(options))
    {
      if credits <= 0 {
        return [];
      }
      var captured, capturedOptions := credits, options;
      var newItems := NewItems(images, credits, ids);
      var effectiveMode := EffectiveMode(|newItems|, mode);
      if effectiveMode != mode {
        mode := effectiveMode;
      }
      state := ProcessingState(RunStatus.Processing, newItems, 0);
      sent := RunQueue(captured, capturedOptions, oracle);
    }

    /** The chain that `processNextInQueue(0, items)` starts, as a loop: each
        step that reaches the remote call schedules the next with `index + 1`
        and the list it rebuilt. `sent` lists the requests in the order they
        were made: one per queued item, in index order. */
    method RunQueue(captured: int, capturedOptions: RetouchOptions, oracle: nat -> Outcome)
      returns (sent: seq<RetouchCall>)
      requires captured > 0 && Waiting(state.batchItems, 0)
      modifies this
      ensures Snapshot() == Drive(old(Snapshot()), 0, old(state.batchItems), captured, oracle)
      ensures options == old(options)
      ensures |sent| == |old(state.batchItems)|
      ensures forall i :: 0 <= i < |sent| ==>
        sent[i] == RetouchCall(old(state.batchItems)[i].originalImage, capturedOptions)
    {
      ghost var start := state.batchItems;
      ghost var target := Drive(Snapshot(), 0, start, captured, oracle);
      var index: nat := 0;
      var items := state.batchItems;
      var running := true;
      sent := [];
      WaitingNoneProcessing(items, index);
      while running
        invariant options == old(options)
        invariant running ==> Drive(Snapshot(), index, items, captured, oracle) == target
        invariant running ==> items == state.batchItems && Waiting(items, index)
        invariant running ==> CountStatus(state.batchItems, ItemStatus.Processing) == 0
        invariant SameItems(items, start) && |sent| == index <= |items|
        invariant forall j :: 0 <= j < |sent| ==>
          sent[j] == RetouchCall(start[j].originalImage, capturedOptions)
        invariant !running ==> Snapshot() == target && index == |items|
        decreases if running then |items| - index + 1 else 0
      {
        StepAdvances(Snapshot(), index, items, captured, oracle, start);
        var request, next := ProcessNextInQueue(index, items, captured, capturedOptions, oracle(index));
        if next.Some? {
          ghost var made := sent;
          sent := sent + [request.value];
          forall j | 0 <= j < |sent|
            ensures sent[j] == RetouchCall(start[j].originalImage, capturedOptions)
          {
            if j < |made| {
              assert sent[j] == made[j];
            }
          }
          index, items := index + 1, next.value;
          WaitingNoneProcessing(items, index);
        } else {
          running := false;
        }
      }
    }

    /** `reset`: an idle, empty run; credits and mode stay. */
    method Reset()
      modifies this
      ensures Snapshot() == ResetState(old(Snapshot()))
      ensures options == old(options)
    {
      state := IdleState;
    }
  }
}
