/** The delayed-completion routines in their own form, each run without interruption. */
module DelayedRequest {
  import opened DelayedCompletion

  /** The work item from where it is to its end. */
  function WorkedThrough(r: Request): Request
    decreases WorkRank(r.work)
  {
    if r.work == NotQueued || r.work.Over? then r else WorkedThrough(Worked(r))
  }

  /** The cancel routine from where it is to its end. */
  function CancelledThrough(r: Request): Request
    decreases CancelRank(r.cancel)
  {
    if r.cancel in {Idle, Done, Missed} then r else CancelledThrough(Cancelling(r))
  }

  lemma WorkedFurther(r: Request)
    requires r.work != NotQueued && !r.work.Over?
    ensures WorkedThrough(r) == WorkedThrough(Worked(r))
  {
  }

  lemma CancelledFurther(r: Request)
    requires r.cancel !in {Idle, Done, Missed}
    ensures CancelledThrough(r) == CancelledThrough(Cancelling(r))
  {
  }

  class Holder {
    const path: Path
    var submitted: bool
    var returned: bool
    var marked: bool
    var timer: Timer
    var work: Work
    var cancel: Cancel
    var output: nat
    var replies: seq<Reply>
    var created: nat
    var deleted: nat
    ghost var stale: bool
    ghost var late: bool

    ghost function View(): Request
      reads this
    {
      Request(path, submitted, returned, marked, timer, work, cancel, output, replies, created, deleted, stale, late)
    }

    constructor (path: Path)
      ensures View() == New(path) && Sound(View())
    {
      this.path := path;
      submitted, returned, marked := false, false, false;
      timer, work, cancel, output := Absent, NotQueued, Idle, 0;
      replies, created, deleted := [], 0, 0;
      stale, late := false, false;
    }

    method CreateTimer()
      modifies `created
      ensures created == old(created) + 1
    {
      created := created + 1;
    }

    method DeleteTimer()
      modifies `deleted
      ensures deleted == old(deleted) + 1
    {
      deleted := deleted + 1;
    }

    method Complete(reply: Reply)
      modifies `replies
      ensures replies == old(replies) + [reply]
    {
      replies := replies + [reply];
    }

    /** The dispatch routine up to starting the timer. */
    method Submit(inputSize: nat, outputSize: nat, timerCreated: bool, workItemCreated: bool)
      requires Sound(View()) && !submitted
      modifies this
      ensures View() == Act(old(View()), Action.Submit(inputSize, outputSize, timerCreated, workItemCreated))
        && Sound(View())
      ensures replies == [] <==>
        inputSize >= SIZE_OF_ULONG && outputSize >= SIZE_OF_ULONG && timerCreated && workItemCreated
      ensures inputSize < SIZE_OF_ULONG ==> replies == [Failed(ShortInput, 0)]
      ensures inputSize >= SIZE_OF_ULONG > outputSize ==> replies == [Failed(ShortOutput, SIZE_OF_ULONG)]
      ensures inputSize >= SIZE_OF_ULONG && outputSize >= SIZE_OF_ULONG && !(timerCreated && workItemCreated) ==>
        replies == [Failed(Unavailable, 0)]
      ensures if replies == [] then timer == Armed && !returned && created == 1 && deleted == 0
              else timer == Absent && returned && created == deleted
    {
      SubmittedSound(View(), inputSize, outputSize, timerCreated, workItemCreated);
      submitted := true;
      var refused, reason, written := true, ShortInput, 0;
      if inputSize >= SIZE_OF_ULONG && outputSize < SIZE_OF_ULONG {
        reason, written := ShortOutput, SIZE_OF_ULONG;
      } else if inputSize >= SIZE_OF_ULONG {
        reason := Unavailable;
        var armed := StartTimer(timerCreated, workItemCreated);
        refused := !armed;
      }
      if refused {
        Complete(Failed(reason, written));
        returned := true;
      }
    }

    /** A timer whose work item cannot be created is deleted again. */
    method StartTimer(timerCreated: bool, workItemCreated: bool) returns (armed: bool)
      modifies `created, `deleted, `timer
      ensures armed <==> timerCreated && workItemCreated
      ensures created == old(created) + (if timerCreated then 1 else 0)
      ensures deleted == old(deleted) + (if timerCreated && !workItemCreated then 1 else 0)
      ensures timer == if armed then Armed else old(timer)
    {
      armed := false;
      if timerCreated {
        CreateTimer();
        if workItemCreated {
          timer := Armed;
          armed := true;
        } else {
          DeleteTimer();
        }
      }
    }

    method Return()
      requires Sound(View()) && submitted && !returned
      modifies this
      ensures View() == Act(old(View()), Action.Return) && Sound(View())
    {
      ActSound(View(), Action.Return);
      returned := true;
      if path == Private {
        late := late || replies != [];
        marked := true;
      }
    }

    method TimerCallback()
      requires Sound(View()) && timer == Expired
      modifies this
      ensures View() == Act(old(View()), Action.TimerCallback) && Sound(View())
    {
      ActSound(View(), Action.TimerCallback);
      timer := Spent;
      work := Queued;
    }

    method UnmarkCancelable() returns (cancelled: bool)
      requires Sound(View()) && path == Private && work == Written
      modifies this
      ensures View() == Worked(old(View())) && Sound(View()) && (cancelled <==> work == Spared)
      ensures cancelled <==> old(cancel) != Idle
    {
      WorkedSound(View());
      cancelled := cancel != Idle;
      if cancelled {
        work := Spared;
      } else {
        marked := false;
        work := Unmarked;
      }
    }

    method CompleteFromWorkItem()
      requires Sound(View()) && work == (if path == Private then Unmarked else Written)
      modifies this
      ensures View() == Worked(old(View())) && Sound(View()) && work == Answered
    {
      WorkedSound(View());
      Complete(Succeeded(SIZE_OF_ULONG));
      work := Answered;
    }

    method DeleteFromWorkItem()
      requires Sound(View()) && work in {Answered, Spared}
      modifies this
      ensures View() == Worked(old(View())) && Sound(View())
      ensures work == Over(old(work) == Spared) && deleted == created == 1
    {
      WorkedSound(View());
      DeleteTimer();
      work := Over(work == Spared);
    }

    method WriteOutput()
      requires Sound(View()) && work == Queued
      modifies this
      ensures View() == Worked(old(View())) && Sound(View())
    {
      WorkedSound(View());
      output := ANSWER;
      work := Written;
    }

    /** The two work-item callbacks; they differ in asking the framework first. */
    method WorkItemCallback()
      requires Sound(View()) && work == Queued
      modifies this
      ensures View() == WorkedThrough(old(View())) && Sound(View())
      ensures deleted == created == 1 && output == ANSWER
      ensures replies == if path == Private && cancel != Idle then [] else [Succeeded(SIZE_OF_ULONG)]
    {
      WorkedFurther(View());
      WriteOutput();
      CompleteUnlessCancelled();
      WorkedFurther(View());
      DeleteFromWorkItem();
      assert WorkedThrough(View()) == View();
    }

    /** The private path asks the framework first; a request the framework has cancelled is left to the cancel
        routine. */
    method CompleteUnlessCancelled()
      requires Sound(View()) && work == Written
      modifies this
      ensures WorkedThrough(View()) == WorkedThrough(old(View())) && Sound(View())
      ensures work == (if path == Private && cancel != Idle then Spared else Answered)
      ensures output == old(output) && cancel == old(cancel)
      ensures replies == if work == Spared then [] else [Succeeded(SIZE_OF_ULONG)]
    {
      WorkedFurther(View());
      var cancelled := false;
      if path == Private {
        cancelled := UnmarkCancelable();
        WorkedFurther(View());
      }
      if !cancelled {
        CompleteFromWorkItem();
      }
    }

    /** Stopping the timer succeeds only while it is armed; stopping a deleted one is recorded. */
    method StopTimer() returns (stopped: bool)
      modifies `timer, `stale
      ensures stopped <==> old(deleted == 0 && timer == Armed)
      ensures timer == if stopped then Stopped else old(timer)
      ensures stale == (old(stale) || deleted > 0)
    {
      stale := stale || deleted > 0;
      stopped := deleted == 0 && timer == Armed;
      if stopped {
        timer := Stopped;
      }
    }

    /** The rest of a cancel routine whose stop succeeded. */
    method CompleteCancelled()
      requires Sound(View()) && cancel == Halted
      modifies this
      ensures View() == CancelledThrough(old(View())) && Sound(View())
      ensures replies == [Cancelled] && deleted == created == 1 && cancel == Done && stale == old(stale)
    {
      CancellingSound(View());
      CancellingSound(Cancelling(View()));
      CancelledFurther(View());
      CancelledFurther(Cancelling(View()));
      Complete(Cancelled);
      cancel := Replied;
      assert View() == Cancelling(old(View()));
      DeleteTimer();
      cancel := Done;
      assert View() == Cancelling(Cancelling(old(View())));
    }

    /** The two cancel routines. */
    method CancelRoutine()
      requires Sound(View()) && cancel == Entered
      modifies this
      ensures View() == CancelledThrough(old(View())) && Sound(View())
      ensures cancel == (if old(timer) == Armed then Done else Missed)
      ensures stale <==> old(deleted) > 0
      ensures old(timer) == Armed ==> replies == [Cancelled] && deleted == created == 1
      ensures old(timer) != Armed ==> replies == old(replies) && deleted == old(deleted)
    {
      CancellingSound(View());
      CancelledFurther(View());
      var stopped := StopTimer();
      cancel := if stopped then Halted else Missed;
      assert View() == Cancelling(old(View()));
      if stopped {
        CompleteCancelled();
      }
    }
  }
}
