/** One run of `check_room_bookings`: fetch the appointments in the time window,
    and for each, in start order, identify it, filter it by room, check the store,
    send the notification, and mark it as processed; then log a summary. */
module PollCycle {
  import opened Text
  import opened Booking
  import opened DedupStore
  import opened Telegram

  /** The window starts an hour before now and ends 24 hours after its start. */
  const LookBehind := 60
  const WindowLength := 1440

  function WindowStart(now: int): int
  {
    now - LookBehind
  }

  function WindowEnd(now: int): int
  {
    WindowStart(now) + WindowLength
  }

  /** The `Restrict` filter: `[Start] >= window start AND [End] <= window end`. */
  predicate InWindow(a: Appointment, now: int)
  {
    WindowStart(now) <= a.start && a.end <= WindowEnd(now)
  }

  /** The appointments inside the window, in the calendar's (start) order: each
      in-window appointment as often as it occurs in `items`, no other. */
  function Restrict(items: seq<Appointment>, now: int): (r: seq<Appointment>)
    ensures forall a :: a in r <==> a in items && InWindow(a, now)
    ensures forall a :: multiset(r)[a] == if InWindow(a, now) then multiset(items)[a] else 0
    ensures |r| <= |items|
  {
    if items == [] then []
    else
      assert items == [items[0]] + items[1..];
      (if InWindow(items[0], now) then [items[0]] else []) + Restrict(items[1..], now)
  }

  /** Restricting keeps the order: the window of a concatenation is the window of
      the first part followed by that of the second. With the single-item case
      this makes `Restrict` the order-preserving filter. */
  lemma {:induction false} RestrictAppend(xs: seq<Appointment>, ys: seq<Appointment>, now: int)
    ensures Restrict(xs + ys, now) == Restrict(xs, now) + Restrict(ys, now)
    decreases |xs|
  {
    if xs == [] {
      assert xs + ys == ys;
    } else {
      assert (xs + ys)[1..] == xs[1..] + ys;
      RestrictAppend(xs[1..], ys, now);
    }
  }

  /** A single appointment is kept exactly when it lies inside the window. */
  lemma RestrictSingle(a: Appointment, now: int)
    ensures Restrict([a], now) == if InWindow(a, now) then [a] else []
  {
    assert [a][1..] == [];
  }

  /** Appointments sorted by start stay sorted by start. */
  predicate StartOrdered(items: seq<Appointment>)
  {
    forall i, j :: 0 <= i < j < |items| ==> items[i].start <= items[j].start
  }

  /** An appointment that starts no later than any of a start-ordered sequence
      can be put in front of it. */
  lemma ConsStartOrdered(x: Appointment, rest: seq<Appointment>)
    requires StartOrdered(rest)
    requires forall a :: a in rest ==> x.start <= a.start
    ensures StartOrdered([x] + rest)
  {
    var r := [x] + rest;
    forall i, j | 0 <= i < j < |r| ensures r[i].start <= r[j].start {
      assert r[j] == rest[j - 1];
      if i > 0 {
        assert r[i] == rest[i - 1];
      }
    }
  }

  lemma {:induction false} RestrictKeepsStartOrder(items: seq<Appointment>, now: int)
    requires StartOrdered(items)
    ensures StartOrdered(Restrict(items, now))
    decreases |items|
  {
    if items != [] {
      var rest := Restrict(items[1..], now);
      RestrictKeepsStartOrder(items[1..], now);
      if InWindow(items[0], now) {
        forall a | a in rest ensures items[0].start <= a.start {
          var k :| 0 <= k < |items[1..]| && items[1..][k] == a;
          assert items[k + 1] == a;
        }
        ConsStartOrdered(items[0], rest);
      }
    }
  }

  /** The environment's answers for one appointment: the store lookup, the two
      delivery attempts and the insert. Answers a run does not ask for are ignored. */
  datatype Outcomes = Outcomes(lookup: Access, first: Attempt, retry: Attempt, insert: Access)

  /** What happened to one appointment of the window. */
  datatype Visit =
    | Skipped                                            // fallback calendar, not about the room
    | Seen                                               // already in the store
    | Notified(id: EventId, delivered: bool, marked: bool) // passed to send_telegram_message

  /** What the calendar source gave: the appointments of either the room's shared
      calendar or, as fallback, the user's own calendar; or an exception.
      `Interrupted` is a fetch whose appointment loop raised `error` while handling
      the window's `at`-th appointment: when reading one of its properties, its
      recipients or the default folder, or in `strftime`. That happens before the
      store lookup, or (`pastLookup`) between the lookup and the send. An `at`
      past the end of the window never fires. */
  datatype Fetch =
    | Fetched(personalCalendar: bool, items: seq<Appointment>)
    | Interrupted(personalCalendar: bool, items: seq<Appointment>, at: nat, pastLookup: bool, error: string)
    | FetchFailed(error: string)

  /** What handling one appointment does: the processed events afterwards, the
      messages the group receives, the send calls, the log lines and the visit. */
  datatype Effect = Effect(
    events: map<EventId, EventRecord>,
    received: seq<string>,
    calls: nat,
    lines: seq<LogLine>,
    visit: Visit)

  /** The log lines `mark_event_processed` and the loop body write for a
      delivered appointment: the info line after a successful insert, the
      error line otherwise. */
  function RecordLines(events: map<EventId, EventRecord>, a: Appointment, insert: Access): seq<LogLine>
  {
    if Admits(events, GenerateEventId(a), insert) then [LogLine(Info, "已发送通知: " + ShownSubject(a))]
    else InsertLines(events, GenerateEventId(a), insert)
  }

  /** Sending a new appointment's message and, once it is delivered, marking it. */
  function Delivery(events: map<EventId, EventRecord>, a: Appointment, o: Outcomes, now: int): (r: Effect)
    ensures r.visit.Notified? && r.visit.id == GenerateEventId(a)
    ensures r.visit.delivered <==> o.first.Delivered? || o.retry.Delivered?
    ensures r.calls == (if o.first.Delivered? then 1 else 2)
    ensures r.received == (if r.visit.delivered then [Message(a)] else [])
    ensures r.visit.marked <==> r.visit.delivered && Admits(events, GenerateEventId(a), o.insert)
    ensures r.events == (if r.visit.marked then events[GenerateEventId(a) := RecordOf(a, now)] else events)
  {
    var id, plan := GenerateEventId(a), SendPlan(o.first, o.retry);
    if !plan.ok then
      Effect(events, [], plan.attempts, plan.errors, Notified(id, false, false))
    else if Admits(events, id, o.insert) then
      Effect(events[id := RecordOf(a, now)], [Message(a)], plan.attempts, plan.errors + RecordLines(events, a, o.insert), Notified(id, true, true))
    else
      Effect(events, [Message(a)], plan.attempts, plan.errors + RecordLines(events, a, o.insert), Notified(id, true, false))
  }

  /** The appointment is looked at: always on the room's own calendar, and on the
      fallback calendar only when it concerns the room. */
  predicate Relevant(a: Appointment, roomEmail: string, personal: bool)
  {
    !personal || ConcernsRoom(a, roomEmail)
  }

  /** The body of the appointment loop, run against the processed events `events`. */
  function Handle(events: map<EventId, EventRecord>, a: Appointment, o: Outcomes, roomEmail: string, personal: bool, now: int): (r: Effect)
    ensures r.visit.Skipped? <==> !Relevant(a, roomEmail, personal)
    ensures r.visit.Seen? <==> Relevant(a, roomEmail, personal) && Found(events, GenerateEventId(a), o.lookup)
    ensures !r.visit.Notified? ==> r.events == events && r.received == [] && r.calls == 0 && r.lines == []
    ensures r.visit.Notified? ==> r.visit.id == GenerateEventId(a) && 1 <= r.calls <= 2
    ensures r.visit.Notified? && r.visit.delivered ==> r.received == [Message(a)]
    ensures r.visit.Notified? && !r.visit.delivered ==> r.received == [] && !r.visit.marked
    ensures Marked(r.visit) ==> r.visit.id !in events && r.events == events[r.visit.id := RecordOf(a, now)]
    ensures !Marked(r.visit) ==> r.events == events
  {
    if !Relevant(a, roomEmail, personal) then
      Effect(events, [], 0, [], Skipped)
    else if Found(events, GenerateEventId(a), o.lookup) then
      Effect(events, [], 0, [], Seen)
    else
      var d := Delivery(events, a, o, now);
      d.(lines := LookupLines(o.lookup) + d.lines)
  }

  predicate Marked(v: Visit)
  {
    v.Notified? && v.marked
  }

  /** The effect of a run so far: the processed events, the messages the group
      received, the send calls made, the log lines written, one visit per
      appointment, and the `notifications_sent` counter. */
  datatype Tally = Tally(
    events: map<EventId, EventRecord>,
    received: seq<string>,
    calls: nat,
    lines: seq<LogLine>,
    visits: seq<Visit>,
    count: nat)

  function Begin(events: map<EventId, EventRecord>): Tally
  {
    Tally(events, [], 0, [], [], 0)
  }

  /** The tally after one more appointment had the effect `e`. */
  function Apply(t: Tally, e: Effect): Tally
  {
    Tally(e.events, t.received + e.received, t.calls + e.calls, t.lines + e.lines,
          t.visits + [e.visit], t.count + if Marked(e.visit) then 1 else 0)
  }

  function Step(t: Tally, a: Appointment, o: Outcomes, roomEmail: string, personal: bool, now: int): Tally
  {
    Apply(t, Handle(t.events, a, o, roomEmail, personal, now))
  }

  /** The loop over `items`, the k-th appointment answered by `outs(k)`: one
      visit added per appointment. */
  function Run(t0: Tally, items: seq<Appointment>, outs: nat -> Outcomes, roomEmail: string, personal: bool, now: int): (r: Tally)
    ensures |r.visits| == |t0.visits| + |items|
    decreases |items|
  {
    if items == [] then t0
    else
      var k := |items| - 1;
      Step(Run(t0, items[..k], outs, roomEmail, personal, now), items[k], outs(k), roomEmail, personal, now)
  }

  /** A run keeps the visits before it and adds at most one count and two send
      attempts per appointment. */
  lemma {:induction false} RunBounds(t0: Tally, items: seq<Appointment>, outs: nat -> Outcomes, roomEmail: string, personal: bool, now: int)
    ensures var r := Run(t0, items, outs, roomEmail, personal, now);
      && r.visits[..|t0.visits|] == t0.visits
      && t0.count <= r.count <= t0.count + |items|
      && t0.calls <= r.calls <= t0.calls + 2 * |items|
    decreases |items|
  {
    if items != [] {
      var k := |items| - 1;
      var p := Run(t0, items[..k], outs, roomEmail, personal, now);
      RunBounds(t0, items[..k], outs, roomEmail, personal, now);
      var e := Handle(p.events, items[k], outs(k), roomEmail, personal, now);
      assert (p.visits + [e.visit])[..|t0.visits|] == p.visits[..|t0.visits|];
    }
  }

  /** The closing log line of a run: an info line that says "no new booking"
      exactly when nothing was counted. */
  function Summary(count: nat): (r: LogLine)
    ensures r.kind == Info
    ensures r.text == "本次检查未发现新预订" <==> count == 0
  {
    assert count > 0 ==> ("本次检查共发送 " + IntText(count) + " 条新通知")[4] == '共';
    if count > 0 then LogLine(Info, "本次检查共发送 " + IntText(count) + " 条新通知")
    else LogLine(Info, "本次检查未发现新预订")
  }

  /** A finished run: its log lines closed by the summary. */
  function Finish(t: Tally): Tally
  {
    t.(lines := t.lines + [Summary(t.count)])
  }

  /** The line the outer `except` of `check_room_bookings` logs. */
  function FailureLine(error: string): LogLine
  {
    LogLine(Error, "检查会议室预订失败，配置是否正确？: " + error)
  }

  /** The log lines of the turn an exception cuts short: the lookup's error line,
      when the exception came after the lookup of a relevant appointment. */
  function CutShortLines(a: Appointment, o: Outcomes, roomEmail: string, personal: bool, pastLookup: bool): seq<LogLine>
  {
    if pastLookup && Relevant(a, roomEmail, personal) then LookupLines(o.lookup) else []
  }

  /** A run that an exception ended: the lines of the cut-short turn and the
      error line follow, and there is no summary. */
  function Abandon(t: Tally, cut: seq<LogLine>, error: string): Tally
  {
    t.(lines := t.lines + cut + [FailureLine(error)])
  }

  /** The appointment loop runs to its end: the fetch worked and nothing in the
      window raised. */
  predicate Completes(fetch: Fetch, now: int)
  {
    fetch.Fetched? || (fetch.Interrupted? && fetch.at >= |Restrict(fetch.items, now)|)
  }

  /** The whole of `check_room_bookings` as a value: the appointment loop over
      the window and the summary; or the loop up to the appointment that raised,
      then the error line; or only the error line when the fetch failed. The
      last line is the summary exactly when the loop completed, and otherwise the
      handler's error line. */
  function Cycle(events: map<EventId, EventRecord>, fetch: Fetch, outs: nat -> Outcomes, roomEmail: string, now: int): (r: Tally)
    ensures r.lines != []
    ensures Completes(fetch, now) ==> r.lines[|r.lines| - 1] == Summary(r.count)
    ensures !Completes(fetch, now) ==> r.lines[|r.lines| - 1] == FailureLine(fetch.error)
    ensures fetch.FetchFailed? ==> r == Tally(events, [], 0, [FailureLine(fetch.error)], [], 0)
  {
    match fetch
    case FetchFailed(e) =>
      Abandon(Begin(events), [], e)
    case Fetched(personal, items) =>
      Finish(Run(Begin(events), Restrict(items, now), outs, roomEmail, personal, now))
    case Interrupted(personal, items, at, pastLookup, e) =>
      var window := Restrict(items, now);
      if at < |window| then
        Abandon(Run(Begin(events), window[..at], outs, roomEmail, personal, now),
                CutShortLines(window[at], outs(at), roomEmail, personal, pastLookup), e)
      else
        Finish(Run(Begin(events), window, outs, roomEmail, personal, now))
  }

  /** `mark_event_processed` followed by the loop body's info line on success. */
  method Record(store: Store, a: Appointment, insert: Access, now: int) returns (marked: bool)
    requires store.Valid()
    modifies store
    ensures store.Valid()
    ensures marked <==> Admits(old(store.events), GenerateEventId(a), insert)
    ensures store.events == if marked then old(store.events)[GenerateEventId(a) := RecordOf(a, now)] else old(store.events)
    ensures store.logs == old(store.logs) + Stamp(old(store.nextLogId), RecordLines(old(store.events), a, insert), now)
    ensures store.nextLogId == old(store.nextLogId) + |RecordLines(old(store.events), a, insert)|
  {
    marked := store.MarkEventProcessed(GenerateEventId(a), a, insert, now);
    if marked {
      store.LogMessage(LogLine(Info, "已发送通知: " + ShownSubject(a)), now);
    }
  }

  /** `send_telegram_message` for a new appointment and, on delivery, `Record`. */
  method Deliver(store: Store, client: Channel, a: Appointment, o: Outcomes, now: int) returns (marked: bool)
    requires store.Valid()
    modifies store, client
    ensures store.Valid()
    ensures var d := Delivery(old(store.events), a, o, now);
      && store.events == d.events
      && client.received == old(client.received) + d.received
      && client.calls == old(client.calls) + d.calls
      && store.logs == old(store.logs) + Stamp(old(store.nextLogId), d.lines, now)
      && store.nextLogId == old(store.nextLogId) + |d.lines|
      && marked == Marked(d.visit)
  {
    var sent := SendTelegramMessage(client, store, Message(a), o.first, o.retry, now);
    if !sent {
      return false;
    }
    ghost var errors, mid, midId := SendPlan(o.first, o.retry).errors, store.logs, store.nextLogId;
    ghost var recorded := RecordLines(store.events, a, o.insert);
    marked := Record(store, a, o.insert, now);
    LogsGrow(old(store.logs), old(store.nextLogId), errors, mid, midId, recorded, store.logs, errors + recorded, now);
  }

  /** The loop body for one appointment of the window: room filter, store check,
      then `Deliver`. */
  method ProcessAppointment(store: Store, client: Channel, a: Appointment, o: Outcomes, roomEmail: string, personal: bool, now: int)
    returns (marked: bool)
    requires store.Valid()
    modifies store, client
    ensures store.Valid()
    ensures var e := Handle(old(store.events), a, o, roomEmail, personal, now);
      && store.events == e.events
      && client.received == old(client.received) + e.received
      && client.calls == old(client.calls) + e.calls
      && store.logs == old(store.logs) + Stamp(old(store.nextLogId), e.lines, now)
      && store.nextLogId == old(store.nextLogId) + |e.lines|
      && marked == Marked(e.visit)
  {
    if personal {
      var concerned := IsRoomEvent(a, roomEmail);
      if !concerned {
        return false;
      }
    }
    var processed := store.IsEventProcessed(GenerateEventId(a), o.lookup, now);
    if processed {
      return false;
    }
    ghost var mid, midId := store.logs, store.nextLogId;
    ghost var d := Delivery(store.events, a, o, now);
    marked := Deliver(store, client, a, o, now);
    LogsGrow(old(store.logs), old(store.nextLogId), LookupLines(o.lookup), mid, midId, d.lines, store.logs, LookupLines(o.lookup) + d.lines, now);
  }

  /** The store and the chat show the effect `t` on top of their earlier state:
      the logs `logs0` with next id `n0`, and the messages `received0` after
      `calls0` send calls. */
  ghost predicate Mirrors(store: Store, client: Channel, logs0: seq<LogEntry>, n0: nat, received0: seq<string>, calls0: nat, t: Tally, now: int)
    reads store, client
  {
    && store.events == t.events
    && client.received == received0 + t.received
    && client.calls == calls0 + t.calls
    && store.logs == logs0 + Stamp(n0, t.lines, now)
    && store.nextLogId == n0 + |t.lines|
  }

  /** A store that mirrors a run on top of well-ordered logs is valid. */
  lemma MirrorsValid(store: Store, client: Channel, logs0: seq<LogEntry>, n0: nat, received0: seq<string>, calls0: nat, t: Tally, now: int)
    requires LogsBelow(logs0, n0) && Mirrors(store, client, logs0, n0, received0, calls0, t, now)
    ensures store.Valid()
  {
    StampKeepsLogsBelow(logs0, n0, t.lines, now);
  }

  /** At the end of the loop the store mirrors the whole run. */
  lemma RunDone(store: Store, client: Channel, items: seq<Appointment>, i: nat, outs: nat -> Outcomes, roomEmail: string, personal: bool, now: int,
                logs0: seq<LogEntry>, n0: nat, received0: seq<string>, calls0: nat, t0: Tally)
    requires i == |items| && LogsBelow(logs0, n0)
    requires Mirrors(store, client, logs0, n0, received0, calls0, Run(t0, items[..i], outs, roomEmail, personal, now), now)
    ensures store.Valid() && Mirrors(store, client, logs0, n0, received0, calls0, Run(t0, items, outs, roomEmail, personal, now), now)
    ensures Run(t0, items[..i], outs, roomEmail, personal, now).count == Run(t0, items, outs, roomEmail, personal, now).count
  {
    MirrorsValid(store, client, logs0, n0, received0, calls0, Run(t0, items[..i], outs, roomEmail, personal, now), now);
    assert items[..i] == items;
  }

  /** Mirroring carries over an effect observed on top of a mirrored state. */
  lemma MirrorsApply(store: Store, client: Channel, logs0: seq<LogEntry>, n0: nat, received0: seq<string>, calls0: nat, t: Tally,
                     mid: seq<LogEntry>, nextMid: nat, receivedMid: seq<string>, callsMid: nat, e: Effect, now: int)
    requires mid == logs0 + Stamp(n0, t.lines, now) && nextMid == n0 + |t.lines|
    requires receivedMid == received0 + t.received && callsMid == calls0 + t.calls
    requires store.events == e.events
    requires client.received == receivedMid + e.received && client.calls == callsMid + e.calls
    requires store.logs == mid + Stamp(nextMid, e.lines, now)
    requires store.nextLogId == nextMid + |e.lines|
    ensures Mirrors(store, client, logs0, n0, received0, calls0, Apply(t, e), now)
  {
    LogsGrow(logs0, n0, t.lines, mid, nextMid, e.lines, store.logs, t.lines + e.lines, now);
    assert received0 + t.received + e.received == received0 + (t.received + e.received);
  }

  /** One turn of the appointment loop, as a step of `Run`. */
  method Advance(store: Store, client: Channel, a: Appointment, o: Outcomes, roomEmail: string, personal: bool, now: int,
                 ghost logs0: seq<LogEntry>, ghost n0: nat, ghost received0: seq<string>, ghost calls0: nat, ghost t: Tally)
    returns (marked: bool)
    requires store.Valid() && Mirrors(store, client, logs0, n0, received0, calls0, t, now)
    modifies store, client
    ensures store.Valid() && Mirrors(store, client, logs0, n0, received0, calls0, Step(t, a, o, roomEmail, personal, now), now)
    ensures marked == Marked(Handle(t.events, a, o, roomEmail, personal, now).visit)
  {
    ghost var mid, nextMid, receivedMid, callsMid := store.logs, store.nextLogId, client.received, client.calls;
    ghost var e := Handle(store.events, a, o, roomEmail, personal, now);
    marked := ProcessAppointment(store, client, a, o, roomEmail, personal, now);
    MirrorsApply(store, client, logs0, n0, received0, calls0, t, mid, nextMid, receivedMid, callsMid, e, now);
  }

  /** Adding one appointment to the loop adds one `Step`. */
  lemma RunSnoc(t0: Tally, items: seq<Appointment>, i: nat, outs: nat -> Outcomes, roomEmail: string, personal: bool, now: int)
    requires i < |items|
    ensures Run(t0, items[..i + 1], outs, roomEmail, personal, now)
      == Step(Run(t0, items[..i], outs, roomEmail, personal, now), items[i], outs(i), roomEmail, personal, now)
  {
    assert items[..i + 1][..i] == items[..i];
  }

  /** The `i`-th turn of the appointment loop over `items`. */
  method Turn(store: Store, client: Channel, items: seq<Appointment>, i: nat, outs: nat -> Outcomes, roomEmail: string, personal: bool, now: int,
              ghost logs0: seq<LogEntry>, ghost n0: nat, ghost received0: seq<string>, ghost calls0: nat, ghost t0: Tally)
    returns (marked: bool)
    requires i < |items|
    requires LogsBelow(logs0, n0) && Mirrors(store, client, logs0, n0, received0, calls0, Run(t0, items[..i], outs, roomEmail, personal, now), now)
    modifies store, client
    ensures Mirrors(store, client, logs0, n0, received0, calls0, Run(t0, items[..i + 1], outs, roomEmail, personal, now), now)
    ensures Run(t0, items[..i + 1], outs, roomEmail, personal, now).count
      == Run(t0, items[..i], outs, roomEmail, personal, now).count + if marked then 1 else 0
  {
    ghost var t := Run(t0, items[..i], outs, roomEmail, personal, now);
    StampKeepsLogsBelow(logs0, n0, t.lines, now);
    marked := Advance(store, client, items[i], outs(i), roomEmail, personal, now, logs0, n0, received0, calls0, t);
    RunSnoc(t0, items, i, outs, roomEmail, personal, now);
  }

  /** The appointment loop of `check_room_bookings` over the window's appointments. */
  method ProcessWindow(store: Store, client: Channel, items: seq<Appointment>, outs: nat -> Outcomes, roomEmail: string, personal: bool, now: int)
    returns (notificationsSent: nat)
    requires store.Valid()
    modifies store, client
    ensures store.Valid()
    ensures var t := Run(Begin(old(store.events)), items, outs, roomEmail, personal, now);
      && Mirrors(store, client, old(store.logs), old(store.nextLogId), old(client.received), old(client.calls), t, now)
      && notificationsSent == t.count
  {
    ghost var logs0, n0, received0, calls0 := store.logs, store.nextLogId, client.received, client.calls;
    ghost var t0 := Begin(store.events);
    notificationsSent := 0;
    var i := 0;
    assert items[..0] == [];
    while i < |items|
      invariant 0 <= i <= |items|
      invariant LogsBelow(logs0, n0)
      invariant Mirrors(store, client, logs0, n0, received0, calls0, Run(t0, items[..i], outs, roomEmail, personal, now), now)
      invariant notificationsSent == Run(t0, items[..i], outs, roomEmail, personal, now).count
    {
      var marked := Turn(store, client, items, i, outs, roomEmail, personal, now, logs0, n0, received0, calls0, t0);
      notificationsSent := notificationsSent + if marked then 1 else 0;
      i := i + 1;
    }
    RunDone(store, client, items, i, outs, roomEmail, personal, now, logs0, n0, received0, calls0, t0);
  }

  /** The summary line that closes a run. */
  method Summarize(store: Store, client: Channel, count: nat, now: int,
                   ghost logs0: seq<LogEntry>, ghost n0: nat, ghost received0: seq<string>, ghost calls0: nat, ghost t: Tally)
    requires store.Valid() && Mirrors(store, client, logs0, n0, received0, calls0, t, now) && count == t.count
    modifies store
    ensures store.Valid() && Mirrors(store, client, logs0, n0, received0, calls0, Finish(t), now)
  {
    ghost var mid, midId := store.logs, store.nextLogId;
    store.LogMessage(Summary(count), now);
    LogsGrow(logs0, n0, t.lines, mid, midId, [Summary(count)], store.logs, Finish(t).lines, now);
  }

  /** The turn an exception cuts short: the room filter and, when the exception
      came after it, the store lookup; nothing is sent or stored. */
  method CutShort(store: Store, a: Appointment, o: Outcomes, roomEmail: string, personal: bool, pastLookup: bool, now: int)
    requires store.Valid()
    modifies store
    ensures store.Valid()
    ensures store.events == old(store.events)
    ensures store.logs == old(store.logs) + Stamp(old(store.nextLogId), CutShortLines(a, o, roomEmail, personal, pastLookup), now)
    ensures store.nextLogId == old(store.nextLogId) + |CutShortLines(a, o, roomEmail, personal, pastLookup)|
  {
    if pastLookup {
      var concerned := true;
      if personal {
        concerned := IsRoomEvent(a, roomEmail);
      }
      if concerned {
        var processed := store.IsEventProcessed(GenerateEventId(a), o.lookup, now);
      }
    }
  }

  /** The end of a run that an exception interrupted at appointment `a`: the
      cut-short turn, then the outer handler's error line. */
  method Interrupt(store: Store, client: Channel, a: Appointment, o: Outcomes, roomEmail: string, personal: bool, pastLookup: bool, error: string, now: int,
                   ghost logs0: seq<LogEntry>, ghost n0: nat, ghost received0: seq<string>, ghost calls0: nat, ghost t: Tally)
    requires store.Valid() && Mirrors(store, client, logs0, n0, received0, calls0, t, now)
    modifies store
    ensures store.Valid()
    ensures Mirrors(store, client, logs0, n0, received0, calls0, Abandon(t, CutShortLines(a, o, roomEmail, personal, pastLookup), error), now)
  {
    ghost var cut := CutShortLines(a, o, roomEmail, personal, pastLookup);
    ghost var mid, midId := store.logs, store.nextLogId;
    CutShort(store, a, o, roomEmail, personal, pastLookup, now);
    LogsGrow(logs0, n0, t.lines, mid, midId, cut, store.logs, t.lines + cut, now);
    ghost var mid2, midId2 := store.logs, store.nextLogId;
    store.LogMessage(FailureLine(error), now);
    LogsGrow(logs0, n0, t.lines + cut, mid2, midId2, [FailureLine(error)], store.logs, t.lines + cut + [FailureLine(error)], now);
  }

  /** `check_room_bookings`. The window's k-th appointment is answered by `outs(k)`. */
  method CheckRoomBookings(store: Store, client: Channel, fetch: Fetch, outs: nat -> Outcomes, roomEmail: string, now: int)
    returns (notificationsSent: nat)
    requires store.Valid()
    modifies store, client
    ensures store.Valid()
    ensures var t := Cycle(old(store.events), fetch, outs, roomEmail, now);
      && Mirrors(store, client, old(store.logs), old(store.nextLogId), old(client.received), old(client.calls), t, now)
      && notificationsSent == t.count
  {
    if fetch.FetchFailed? {
      store.LogMessage(FailureLine(fetch.error), now);
      return 0;
    }
    var window := Restrict(fetch.items, now);
    if fetch.Interrupted? && fetch.at < |window| {
      var prefix := window[..fetch.at];
      ghost var p := Run(Begin(store.events), prefix, outs, roomEmail, fetch.personalCalendar, now);
      notificationsSent := ProcessWindow(store, client, prefix, outs, roomEmail, fetch.personalCalendar, now);
      Interrupt(store, client, window[fetch.at], outs(fetch.at), roomEmail, fetch.personalCalendar, fetch.pastLookup, fetch.error, now,
                old(store.logs), old(store.nextLogId), old(client.received), old(client.calls), p);
      return;
    }
    ghost var t := Run(Begin(store.events), window, outs, roomEmail, fetch.personalCalendar, now);
    notificationsSent := ProcessWindow(store, client, window, outs, roomEmail, fetch.personalCalendar, now);
    Summarize(store, client, notificationsSent, now, old(store.logs), old(store.nextLogId), old(client.received), old(client.calls), t);
  }
}
