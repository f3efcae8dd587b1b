# Event Platform Client: output buffer and token bookkeeping

A Dafny model of two classes of the Wikimedia Event Platform Client (Java).

- `Output` buffers outgoing HTTP POST requests. These are `[url, body]` pairs held in a FIFO queue. It sends the whole queue at once when the queue reaches `WAIT_ITEMS` (10) items. Otherwise it re-arms a single `WAIT_MS` (2000 ms) timer, and when the timer goes off the queue is flushed. `enable_sending` and `disable_sending` switch delivery on and off. While sending is disabled, items only pile up in the queue.
- `Token` hands out session, pageview and activity identifiers. Each scope (session, pageview) has a table holding:
  - a random 32-hex-digit id
  - a generation counter `:sg`, starting at 1
  - one sequence number per activity name

  An activity id is the scope id followed by the sequence number in `%04x`.

The modules are:

- `OutputSpec` models the dispatcher as a value (`Dispatcher`: queue, enabled flag, armed timer, log of sent requests). It has one function per operation and the multi-step lemmas: threshold flush, timer flush, backlog delivery, idempotent enable/disable, and no loss or reordering. That at most one flush timer is pending is not a lemma: it holds by representation, because the timer is the single flag `armed`, so the model cannot distinguish a cancelled-then-re-armed timer from a kept one.
- `OutputImpl` has the class `Output` with the fields `queue`, `enabled` and `armed`, plus a ghost log `sent`. Its methods follow the Java code: the drain loop of `send_all_scheduled`, and the mutual recursion of `send`, `send_all_scheduled` and `schedule`. Each method is proved to have exactly the effect of the matching `OutputSpec` function. Termination is by the measure (enabled, length of the queue, call rank).
- `IdFormat` covers `%04x`, `new_id` and the activity id format, each with its parser and the round-trip proofs.
- `TokenSpec` models a scope table as a record (`Table`). It has the table invariant: the id format holds, the sequence numbers are distinct, and each one is in `[1, sg)`. It also has the pure table updates made by `activity` and `activity_reset`.
- `TokenImpl` has the class `Token` with two nullable (`Option`) table fields. The tables are created lazily and updated in place.

Two behaviours of the code are worth stating directly:

- `send_all_scheduled` tests `ENABLED` once before draining, and `send` tests it again for each item. The timer task runs on the `Timer`'s own background thread, without any locking against the caller's thread; the model treats each operation, `Fire` included, as one atomic step (see "## Left out").
- `send` is public. While sending is enabled, it posts its own request before the queued ones. So `OutputSpec.Send` preserves the requests as a multiset, not in FIFO order.

## Model

| member | source | states |
|---|---|---|
| `OutputSpec.Initial` | src/java/Output.java:45-54 | a new dispatcher is enabled, with an empty queue and no timer, and satisfies the invariant |
| `OutputSpec.Unschedule` | src/java/Output.java:92-97 | cancelling disarms the timer and changes nothing else |
| `OutputSpec.Flush` | src/java/Output.java:102-118 | the timer is disarmed. While enabled, the whole queue is appended to the sent log in FIFO order and the queue is empty. While disabled, the queue and the log are unchanged. Sent plus queued is conserved, and the invariant holds after |
| `OutputSpec.Schedule` | src/java/Output.java:131-149 | while disabled: appended at the tail, nothing sent, timer untouched. While enabled and reaching WAIT_ITEMS: old queue plus the item sent in order, queue empty, no timer. While enabled below WAIT_ITEMS: queue one longer, nothing sent, timer armed. Sent plus queue equals old sent, old queue and the item. The invariant is preserved |
| `OutputSpec.Send` | src/java/Output.java:159-175 | while enabled: the request is logged first, then the queue in order; queue empty, no timer (a failed POST is not re-enqueued). While disabled: appended to the queue, nothing sent. No request is lost (multiset). The invariant is preserved |
| `OutputSpec.Enable` | src/java/Output.java:73-77 | enabled afterwards; the whole backlog is sent in insertion order; queue empty, no timer |
| `OutputSpec.Disable` | src/java/Output.java:83-87 | disabled afterwards, no timer, queue and log unchanged |
| `OutputSpec.Fire` | src/java/Output.java:61-67 | the firing timer sends exactly the waiting items in order and leaves the invariant holding |
| `OutputSpec.ScheduleAllConserves` | src/java/Output.java:131-149 | over any sequence of schedule calls, sent plus queue is the old sent plus the old queue plus the scheduled items; the enabled flag and the invariant are kept |
| `OutputSpec.DisabledAccumulates` | src/java/Output.java:131-136 | while disabled, any number of schedule calls only append to the queue: nothing is sent and no timer is armed |
| `OutputSpec.ThresholdFlush` | src/java/Output.java:136-142 | when enabled, the schedule call that brings the queue to WAIT_ITEMS sends every waiting item in order and leaves no timer |
| `OutputSpec.TimerFlush` | src/java/Output.java:143-146 | below the threshold each schedule call re-arms one timer and sends nothing; firing then delivers exactly those items in order |
| `OutputSpec.BacklogDelivered` | src/java/Output.java:73-87 | disable, schedule a backlog, enable: everything queued before and during the pause is sent in insertion order |
| `OutputSpec.EnableIdempotent` | src/java/Output.java:73-77 | enabling twice equals enabling once |
| `OutputSpec.DisableIdempotent` | src/java/Output.java:83-87 | disabling twice equals disabling once |
| `OutputImpl.Output.constructor` | src/java/Output.java:48-54 | the object starts in the initial dispatcher state |
| `OutputImpl.Output.Unschedule` | src/java/Output.java:92-97 | the in-place cancel has the effect of `OutputSpec.Unschedule` |
| `OutputImpl.Output.SendAllScheduled` | src/java/Output.java:102-118 | the poll-and-send loop, with its recursive sends, has the effect of `OutputSpec.Flush` |
| `OutputImpl.Output.Schedule` | src/java/Output.java:131-149 | has the effect of `OutputSpec.Schedule` and keeps the invariant |
| `OutputImpl.Output.Send` | src/java/Output.java:159-175 | has the effect of `OutputSpec.Send` and keeps the invariant |
| `OutputImpl.Output.EnableSending` | src/java/Output.java:73-77 | has the effect of `OutputSpec.Enable` |
| `OutputImpl.Output.DisableSending` | src/java/Output.java:83-87 | has the effect of `OutputSpec.Disable` |
| `OutputImpl.Output.Fire` | src/java/Output.java:61-67 | a timer can fire only while armed, and it flushes |
| `IdFormat.Hex04` | src/java/Token.java:106 | `%04x` is lower-case hex, at least 4 digits, exactly 4 below 0x10000, with no leading zero when longer than 4, and parses back to the number |
| `IdFormat.HexParses` | src/java/Token.java:106 | the shortest hex spelling parses back to its number |
| `IdFormat.HexWidth` | src/java/Token.java:23-31 | a number below 16^k needs at most k hex digits |
| `IdFormat.LeadingZeros` | src/java/Token.java:106 | zero padding does not change the value |
| `IdFormat.NewId` | src/java/Token.java:17-33 | `new_id` is lower-case hex with at least four digits per word |
| `IdFormat.ParseIdInvertsNewId` | src/java/Token.java:23-32 | for words below 0x10000 the id has exactly four digits per word, and splitting it into four-digit words gives back the drawn words |
| `IdFormat.DrawnIdFormat` | src/java/Token.java:23-32 | eight draws of `nextInt(65535)` make an id of exactly 32 lower-case hex characters that encodes the draw |
| `IdFormat.ActivityId` | src/java/Token.java:106 | the activity id starts with the scope id; the remainder is exactly four digits below 0x10000, has no leading zero when longer, and parses back to the sequence number |
| `TokenSpec.NewTable` | src/java/Token.java:40-46 | a fresh table has counter 1, no activity names, and a well-formed id from the draw |
| `TokenSpec.Current` | src/java/Token.java:48-69 | a table is created only when the field is null; an existing table is kept as it is |
| `TokenSpec.Activate` | src/java/Token.java:97-116 | a new name gets the old counter and the counter grows by exactly 1, other names untouched; a known name changes nothing. The distinct, in-range numbering invariant is preserved |
| `TokenSpec.Reset` | src/java/Token.java:121-136 | removing a name keeps the id, the counter and every other name, and preserves the table invariant |
| `TokenSpec.ActivityOf` | src/java/Token.java:105-106 | the returned string is the scope id followed by the name's sequence number in hex |
| `TokenSpec.ActivityIdsDistinct` | src/java/Token.java:97-117 | two different names in one scope never get the same activity id |
| `TokenSpec.ActivateIdempotent` | src/java/Token.java:99-106 | a repeated activity call for the same name changes nothing |
| `TokenSpec.ReactivatedIsLarger` | src/java/Token.java:92-136 | after a reset, re-activating a name gives it a strictly larger number |
| `TokenImpl.Token.constructor` | src/java/Token.java:12-13 | both tables start null |
| `TokenImpl.Token.PageviewCheck` | src/java/Token.java:48-53 | the pageview table is created only if null; the session table is untouched |
| `TokenImpl.Token.SessionCheck` | src/java/Token.java:55-78 | the session table is created only if null; the pageview table is untouched |
| `TokenImpl.Token.Session` | src/java/Token.java:80-84 | returns a well-formed session id, the same id on every call once the table exists |
| `TokenImpl.Token.Pageview` | src/java/Token.java:86-90 | returns a well-formed pageview id, the same id on every call once the table exists |
| `TokenImpl.Token.Activity` | src/java/Token.java:92-119 | session or pageview scope: the table is created if needed, updated by `Activate`, and the result is the activity id of the name. Any other scope: null, and nothing changes. The table invariants are kept |
| `TokenImpl.Token.ActivityReset` | src/java/Token.java:121-136 | the name is removed from the pageview table if it is there, with the session table untouched; otherwise it is removed from the session table |

## Left out

- `Timer`/`TimerTask` threading and the real 2000 ms delay (src/java/Output.java:46, 54, 145-146). The timer is the `armed` flag, and its task is the explicit `Fire` step; there is no clock.
- `Integration.http_post` is not part of this model. A POST attempt is appended to the ghost `sent` log. Success and failure look the same, because the exception is swallowed.
- Concurrency between the timer thread and the caller's thread. In the source, `Task.run` (src/java/Output.java:61-67) runs `send_all_scheduled` on the `Timer`'s background thread, sharing the unsynchronised `LinkedList` and the non-volatile `ENABLED` with `schedule`, `send`, `enable_sending` and `disable_sending` on the caller's thread. The model treats `Fire` and every other operation as one atomic step and does not model the resulting races. One of them: a `disable_sending` landing between the `poll` (:109) and the `ENABLED` test in `send` (:161) makes `send` re-append the polled item (:169, :134), and the outer drain loop, which never rechecks `ENABLED`, keeps polling and re-appending for as long as sending stays disabled.
- Stack depth. `send_all_scheduled` and `send` call each other once per queued item (src/java/Output.java:109-110, 167), nesting two Java frames per item, and the queue is unbounded while disabled (:138-139). A large enough backlog makes `enable_sending` overflow the thread stack; the `StackOverflowError` is not caught by the `catch (Exception e)` at :164 and leaves part of the backlog queued. `OutputSpec.Enable`, `OutputSpec.BacklogDelivered` and `OutputImpl.Output.EnableSending` deliver a backlog of any size.
- `java.util.Random` is not modelled. The eight `nextInt(65535)` values of each `new_id` call are method parameters (`draw`, `pvDraw`, `sessionDraw`), and only their range is assumed.
- The `session_timeout` regeneration branch (src/java/Token.java:70-77) is left out, because `session_timeout` always returns false.
- The persistent session store is left out; every call to it is commented out in the source.
- `Integer.parseInt`/`Integer.toString` of the counter: sequence numbers are unbounded naturals. The 32-bit overflow after 2^31 activities is not modelled.
- Reference comparison of scope names (`scopename == "session"`) is modelled as string equality.
- `TokenImpl.Token.Activity`: requires that the name is not `":id"` or `":sg"`, because in the source these keys share the table's map with activity names. `activity(":id", scope)` finds the key and throws `NumberFormatException` when parsing the 32-hex-digit id as an `int` (src/java/Token.java:105, 115). `activity(":sg", scope)` skips the `put`s (:99-102) and returns the scope id followed by the current counter in `%04x`, changing nothing.
- `TokenImpl.Token.ActivityReset`: requires that the name is not `":id"` or `":sg"`. In the source, `activity_reset` of either name removes that key from the table (src/java/Token.java:124-125 or :132-133); afterwards `pageview()`/`session()` return null (for `":id"`), and the next `activity` of a new name throws on `parseInt(null)` (for `":sg"`).
- `Token.main` (console printing) is left out.
