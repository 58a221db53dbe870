/**
 The stream calls in their own form.  Each method is one whole call; a completion may be under way when
 it begins, and goes on while the last suspend waits for it.
 */
module StreamDevice {
  import opened StreamStatus

  class Device {
    var streams: int
    var status: int
    var event: bool
    var request: Request
    ghost var opens: int
    ghost var used: bool
    ghost const initial: int

    ghost function View(): State
      reads this
    {
      State(streams, status, event, request, Rest, opens, used, false)
    }

    /** At rest: no stream call in flight, the completion routine anywhere. */
    ghost predicate Valid()
      reads this
    {
      Inv(View(), initial)
    }

    constructor (status: int)
      ensures Valid() && View() == Initial(status) && initial == status
    {
      streams, this.status, event, request := 0, status, true, Ready;
      opens, used, initial := 0, false, status;
    }

    method GetStreamStatus() returns (live: bool)
      requires Valid()
      ensures live <==> NtSuccess(status)
      ensures streams == 0 && live ==> NtSuccess(initial) && !used
    {
      live := status >= 0;
    }

    method EnableStatusNotification(sent: bool) returns (nt: int)
      requires request.Ready? || request.Reported?
      modifies `event, `request
      ensures NtSuccess(nt) <==> sent
      ensures event <==> !sent
      ensures request == if sent then Outstanding(false) else old(request)
    {
      event := false;
      if sent {
        request := Outstanding(false);
        return STATUS_SUCCESS;
      }
      event := true;
      return STATUS_INVALID_DEVICE_STATE;
    }

    /** `openOk` and `sent` answer the open call and the send.  A failed start takes everything back. */
    method StreamStart(openOk: bool, sent: bool) returns (nt: int)
      requires Valid()
      modifies this
      ensures Valid() && View() == StartResult(old(View()), openOk, sent)
      ensures NtSuccess(nt) <==> old(streams) > 0 || (openOk && sent)
      ensures !NtSuccess(nt) ==>
        streams == old(streams) && opens == old(opens) && event == old(event) && request == old(request)
    {
      used := true;
      nt := STATUS_SUCCESS;
      streams := streams + 1;
      if streams == 1 {
        var streamStart := false;
        nt := if openOk then STATUS_SUCCESS else STATUS_INVALID_DEVICE_STATE;
        if NtSuccess(nt) {
          opens := opens + 1;
          streamStart := true;
          status := STATUS_SUCCESS;
          nt := EnableStatusNotification(sent);
        }
        if !NtSuccess(nt) {
          streams := streams - 1;
          if streamStart {
            opens := opens - 1;
          }
          status := STATUS_INVALID_DEVICE_STATE;
        }
      }
    }

    /** The driver completes the request. */
    method CompleteRequest(ok: bool, reported: int)
      requires request.Outstanding?
      modifies `request
      ensures View() == Apply(old(View()), Complete(ok, reported)) && request.Storing?
    {
      request := Storing(if ok then reported else STATUS_INVALID_DEVICE_STATE);
    }

    /** The completion routine stores the result, */
    method StoreResult()
      requires request.Storing?
      modifies `status, `request
      ensures View() == ContinueCompletion(old(View())) && request.Signalling?
    {
      status := request.result;
      request := Signalling;
    }

    /** and then sets the event. */
    method SignalEvent()
      requires request.Signalling?
      modifies `event, `request
      ensures View() == ContinueCompletion(old(View())) && request.Reported?
    {
      event := true;
      request := Reported;
    }

    /** The completion routine from wherever the request is to its end. */
    method StreamStatusCompletion(ok: bool, reported: int)
      requires Away(View())
      modifies `status, `event, `request
      ensures View() == Completed(old(View()), ok, reported)
      ensures request == Reported && event
      ensures old(request).Outstanding? ==> status == if ok then reported else STATUS_INVALID_DEVICE_STATE
    {
      if request.Outstanding? {
        CompleteRequest(ok, reported);
      }
      if request.Storing? {
        StoreResult();
      }
      SignalEvent();
    }

    /** Cancels, waits and reuses.  `ok` and `reported` are how a request still out completes. */
    method StopStatusNotification(ok: bool, reported: int, reused: bool)
      requires !request.Ready? && (event <==> request.Reported?)
      modifies `status, `event, `request
      ensures event && request == if reused then Ready else Reported
    {
      if request.Outstanding? {
        request := Outstanding(true);
      }
      if !event {
        StreamStatusCompletion(ok, reported);    // what the wait waits for
      }
      if reused {
        request := Ready;
      }
    }

    method StreamSuspend(closed: int, ok: bool, reported: int, reused: bool) returns (nt: int)
      requires Valid() && streams > 0
      modifies this
      ensures Valid() && View() == SuspendResult(old(View()), reused)
      ensures nt == if streams > 0 then STATUS_SUCCESS else closed
    {
      nt := STATUS_SUCCESS;
      streams := streams - 1;
      if streams == 0 {
        nt := closed;
        opens := opens - 1;
        StopStatusNotification(ok, reported, reused);
        status := STATUS_INVALID_DEVICE_STATE;
      }
    }
  }
}
