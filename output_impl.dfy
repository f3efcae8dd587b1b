/**
 * The dispatcher object as the Java code runs it: three fields updated in
 * place, a drain loop, and `send` / `send_all_scheduled` / `schedule`
 * calling one another over the shrinking queue. The timer becomes the
 * `armed` flag and its task an explicit `Fire` step; the HTTP transport
 * becomes the ghost log `sent`. Every method is proved to have exactly the
 * effect the matching function of `OutputSpec` describes.
 */
module OutputImpl {
  import S = OutputSpec

  class Output {
    var queue: seq<S.Request>
    var enabled: bool
    /** Stands for a scheduled, not yet cancelled `Timer`. */
    var armed: bool
    /** Every request handed to `Integration.http_post`, in call order. */
    ghost var sent: seq<S.Request>

    ghost function State(): S.Dispatcher
      reads this
    {
      S.Dispatcher(queue, enabled, armed, sent)
    }

    ghost predicate Valid()
      reads this
    {
      S.Inv(State())
    }

    constructor ()
      ensures State() == S.Initial() && Valid()
    {
      queue, enabled, armed := [], true, false;
      sent := [];
    }

    /** Cancel the timer, if any. */
    method Unschedule()
      modifies this
      ensures State() == S.Unschedule(old(State()))
    {
      armed := false;
    }

    /** Cancel the timer, then poll and send until the queue is empty (if enabled). */
    method SendAllScheduled()
      modifies this
      ensures State() == S.Flush(old(State()))
      decreases if enabled then 1 else 0, if enabled then |queue| else 0, 0
    {
      Unschedule();
      if enabled {
        while queue != []
          invariant enabled && !armed
          invariant |queue| <= |old(queue)|
          invariant sent + queue == old(sent) + old(queue)
          decreases |queue|
        {
          var item := queue[0];
          queue := queue[1..];
          Send(item.url, item.body);
        }
      }
    }

    /** Enqueue; then, if enabled, flush at WAIT_ITEMS or re-arm the single timer. */
    method Schedule(url: string, body: string)
      modifies this
      ensures State() == S.Schedule(old(State()), S.Request(url, body))
      ensures old(Valid()) ==> Valid()
      decreases if enabled then 1 else 0, if enabled then |queue| + 1 else 0, 1
    {
      queue := queue + [S.Request(url, body)];
      if enabled {
        if |queue| >= S.WAIT_ITEMS {
          SendAllScheduled();
        } else {
          Unschedule();
          armed := true;
        }
      }
    }

    /** POST one request and drain the rest; while disabled, enqueue it instead. */
    method Send(url: string, body: string)
      modifies this
      ensures State() == S.Send(old(State()), S.Request(url, body))
      ensures old(Valid()) ==> Valid()
      decreases if enabled then 1 else 0, if enabled then |queue| else 0, 2
    {
      if enabled {
        // Integration.http_post(url, body); any exception is swallowed.
        sent := sent + [S.Request(url, body)];
        SendAllScheduled();
      } else {
        Schedule(url, body);
      }
    }

    method EnableSending()
      modifies this
      ensures State() == S.Enable(old(State())) && Valid()
    {
      enabled := true;
      SendAllScheduled();
    }

    method DisableSending()
      modifies this
      ensures State() == S.Disable(old(State())) && Valid()
    {
      enabled := false;
      Unschedule();
    }

    /** `Task.run`: the armed timer goes off. */
    method Fire()
      requires armed
      modifies this
      ensures State() == S.Fire(old(State())) && Valid()
    {
      SendAllScheduled();
    }
  }
}
