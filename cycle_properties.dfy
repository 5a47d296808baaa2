/** What a run of `check_room_bookings` guarantees, stated on the specification
    `Run` from an initial store `events0`: the counter, the store that only grows
    by confirmed notifications, no second notification of a stored event, and a
    second run over the same appointments that stays quiet. */
module CycleProperties {
  import opened Text
  import opened Booking
  import opened DedupStore
  import opened Telegram
  import opened PollCycle

  /** The number of visits that ended with a record inserted. */
  function MarkedCount(visits: seq<Visit>): nat
  {
    if visits == [] then 0
    else MarkedCount(visits[..|visits| - 1]) + if Marked(visits[|visits| - 1]) then 1 else 0
  }

  predicate Sent(v: Visit)
  {
    v.Notified? && v.delivered
  }

  /** The number of visits whose message reached the group. */
  function DeliveredCount(visits: seq<Visit>): nat
  {
    if visits == [] then 0
    else DeliveredCount(visits[..|visits| - 1]) + if Sent(visits[|visits| - 1]) then 1 else 0
  }

  /** A run from `events0` over `items`. */
  function RunFrom(events0: map<EventId, EventRecord>, items: seq<Appointment>, outs: nat -> Outcomes, roomEmail: string, personal: bool, now: int): Tally
  {
    Run(Begin(events0), items, outs, roomEmail, personal, now)
  }

  /** The last step of a run, spelled out. */
  lemma RunLast(events0: map<EventId, EventRecord>, items: seq<Appointment>, outs: nat -> Outcomes, roomEmail: string, personal: bool, now: int)
    requires items != []
    ensures var k := |items| - 1;
      var p := RunFrom(events0, items[..k], outs, roomEmail, personal, now);
      var e := Handle(p.events, items[k], outs(k), roomEmail, personal, now);
      var t := RunFrom(events0, items, outs, roomEmail, personal, now);
      && t == Apply(p, e)
      && t.visits == p.visits + [e.visit]
  {
  }

  /** One visit per appointment; `notifications_sent` is the number of visits
      that inserted a record, which is also how many rows the store gained, and
      never more than the messages the group received (one per delivered visit). */
  lemma {:induction false} RunCounts(events0: map<EventId, EventRecord>, items: seq<Appointment>, outs: nat -> Outcomes, roomEmail: string, personal: bool, now: int)
    ensures var t := RunFrom(events0, items, outs, roomEmail, personal, now);
      && |t.visits| == |items|
      && t.count == MarkedCount(t.visits)
      && |t.events| == |events0| + t.count
      && |t.received| == DeliveredCount(t.visits)
      && t.count <= |t.received|
    decreases |items|
  {
    if items != [] {
      var k := |items| - 1;
      RunCounts(events0, items[..k], outs, roomEmail, personal, now);
      RunLast(events0, items, outs, roomEmail, personal, now);
      var t := RunFrom(events0, items, outs, roomEmail, personal, now);
      assert t.visits[..|t.visits| - 1] == RunFrom(events0, items[..k], outs, roomEmail, personal, now).visits;
    }
  }

  /** A visit is about appointment `a`: skipped exactly when the run does not
      look at it, and otherwise carrying its id. */
  predicate Follows(a: Appointment, v: Visit, roomEmail: string, personal: bool)
  {
    && (v.Skipped? <==> !Relevant(a, roomEmail, personal))
    && (v.Notified? ==> v.id == GenerateEventId(a))
  }

  /** The k-th visit is about the k-th appointment. */
  predicate VisitsFollow(items: seq<Appointment>, visits: seq<Visit>, roomEmail: string, personal: bool)
  {
    && |visits| == |items|
    && forall k :: 0 <= k < |items| ==> Follows(items[k], visits[k], roomEmail, personal)
  }

  lemma VisitsFollowStep(items: seq<Appointment>, pVisits: seq<Visit>, v: Visit, roomEmail: string, personal: bool)
    requires items != []
    requires VisitsFollow(items[..|items| - 1], pVisits, roomEmail, personal)
    requires Follows(items[|items| - 1], v, roomEmail, personal)
    ensures VisitsFollow(items, pVisits + [v], roomEmail, personal)
  {
    var n := |items| - 1;
    assert items[..n] + [items[n]] == items;
    PairwiseSnoc(items[..n], pVisits, items[n], v, (a, w) => Follows(a, w, roomEmail, personal));
  }

  /** A relation that holds position by position along two sequences still does
      after one more related pair is appended to both. */
  lemma PairwiseSnoc<A, B>(xs: seq<A>, ys: seq<B>, x: A, y: B, rel: (A, B) -> bool)
    requires |xs| == |ys| && forall k :: 0 <= k < |xs| ==> rel(xs[k], ys[k])
    requires rel(x, y)
    ensures forall k :: 0 <= k < |xs| + 1 ==> rel((xs + [x])[k], (ys + [y])[k])
  {
    forall k | 0 <= k < |xs| + 1
      ensures rel((xs + [x])[k], (ys + [y])[k])
    {
      if k < |xs| {
        assert (xs + [x])[k] == xs[k] && (ys + [y])[k] == ys[k];
      }
    }
  }

  lemma {:induction false} RunVisits(events0: map<EventId, EventRecord>, items: seq<Appointment>, outs: nat -> Outcomes, roomEmail: string, personal: bool, now: int)
    ensures VisitsFollow(items, RunFrom(events0, items, outs, roomEmail, personal, now).visits, roomEmail, personal)
    decreases |items|
  {
    if items != [] {
      var k := |items| - 1;
      RunVisits(events0, items[..k], outs, roomEmail, personal, now);
      RunLast(events0, items, outs, roomEmail, personal, now);
      var p := RunFrom(events0, items[..k], outs, roomEmail, personal, now);
      var e := Handle(p.events, items[k], outs(k), roomEmail, personal, now);
      VisitsFollowStep(items, p.visits, e.visit, roomEmail, personal);
    }
  }

  /** The store only grows: rows present before are kept unchanged, every new row
      belongs to a visit whose message was delivered and then marked, and every
      marked visit left its row. */
  lemma {:induction false} RunStores(events0: map<EventId, EventRecord>, items: seq<Appointment>, outs: nat -> Outcomes, roomEmail: string, personal: bool, now: int)
    ensures var t := RunFrom(events0, items, outs, roomEmail, personal, now);
      && (forall id :: id in events0 ==> id in t.events && t.events[id] == events0[id])
      && (forall id :: id in t.events && id !in events0 ==> Notified(id, true, true) in t.visits)
      && (forall v :: v in t.visits && Marked(v) ==> v.id in t.events)
    decreases |items|
  {
    if items != [] {
      var k := |items| - 1;
      RunStores(events0, items[..k], outs, roomEmail, personal, now);
      RunLast(events0, items, outs, roomEmail, personal, now);
    }
  }

  /** No appointment whose id is in `events0` and whose lookup works was notified. */
  predicate SkipsStored(items: seq<Appointment>, visits: seq<Visit>, outs: nat -> Outcomes, events0: map<EventId, EventRecord>)
  {
    && |visits| == |items|
    && forall k :: 0 <= k < |items| && GenerateEventId(items[k]) in events0 && outs(k).lookup.Succeeds? ==> !visits[k].Notified?
  }

  lemma SkipsStoredStep(items: seq<Appointment>, pVisits: seq<Visit>, v: Visit, outs: nat -> Outcomes, events0: map<EventId, EventRecord>)
    requires items != []
    requires SkipsStored(items[..|items| - 1], pVisits, outs, events0)
    requires GenerateEventId(items[|items| - 1]) in events0 && outs(|items| - 1).lookup.Succeeds? ==> !v.Notified?
    ensures SkipsStored(items, pVisits + [v], outs, events0)
  {
    var n, visits := |items| - 1, pVisits + [v];
    forall k | 0 <= k < |items| && GenerateEventId(items[k]) in events0 && outs(k).lookup.Succeeds?
      ensures !visits[k].Notified?
    {
      if k < n {
        assert items[..n][k] == items[k] && visits[k] == pVisits[k];
      }
    }
  }

  /** An appointment whose id was stored before the run is never passed to
      `send_telegram_message` while the store can be read. */
  lemma {:induction false} RunSkipsStored(events0: map<EventId, EventRecord>, items: seq<Appointment>, outs: nat -> Outcomes, roomEmail: string, personal: bool, now: int)
    ensures SkipsStored(items, RunFrom(events0, items, outs, roomEmail, personal, now).visits, outs, events0)
    decreases |items|
  {
    if items != [] {
      var k := |items| - 1;
      RunSkipsStored(events0, items[..k], outs, roomEmail, personal, now);
      RunStores(events0, items[..k], outs, roomEmail, personal, now);
      RunLast(events0, items, outs, roomEmail, personal, now);
      var p := RunFrom(events0, items[..k], outs, roomEmail, personal, now);
      var e := Handle(p.events, items[k], outs(k), roomEmail, personal, now);
      SkipsStoredStep(items, p.visits, e.visit, outs, events0);
    }
  }

  /** No appointment was notified after an earlier one with the same id was
      marked in the same run, where its own lookup works. */
  predicate NoDoubleNotice(items: seq<Appointment>, visits: seq<Visit>, outs: nat -> Outcomes)
  {
    && |visits| == |items|
    && forall j, k :: 0 <= j < k < |items| ==> NotResent(visits[j], items[k], outs(k), visits[k])
  }

  /** Visit `v` of appointment `a`, whose lookup answered `o`, is no notification
      when the earlier visit `w` marked the same id. */
  predicate NotResent(w: Visit, a: Appointment, o: Outcomes, v: Visit)
  {
    Marked(w) && w.id == GenerateEventId(a) && o.lookup.Succeeds? ==> !v.Notified?
  }

  lemma NoDoubleNoticeStep(items: seq<Appointment>, pVisits: seq<Visit>, v: Visit, outs: nat -> Outcomes)
    requires items != []
    requires NoDoubleNotice(items[..|items| - 1], pVisits, outs)
    requires forall w :: w in pVisits ==> NotResent(w, items[|items| - 1], outs(|items| - 1), v)
    ensures NoDoubleNotice(items, pVisits + [v], outs)
  {
    var n, visits := |items| - 1, pVisits + [v];
    forall j, k | 0 <= j < k < |items|
      ensures NotResent(visits[j], items[k], outs(k), visits[k])
    {
      assert visits[j] == pVisits[j];
      if k < n {
        assert items[..n][k] == items[k] && visits[k] == pVisits[k];
      } else {
        assert pVisits[j] in pVisits;
      }
    }
  }

  /** An appointment is never notified twice in one run: once it is marked, a
      later appointment with the same id is seen in the store, as long as the
      store can be read. */
  lemma {:induction false} RunNoDoubleNotice(events0: map<EventId, EventRecord>, items: seq<Appointment>, outs: nat -> Outcomes, roomEmail: string, personal: bool, now: int)
    ensures NoDoubleNotice(items, RunFrom(events0, items, outs, roomEmail, personal, now).visits, outs)
    decreases |items|
  {
    if items != [] {
      var k := |items| - 1;
      RunNoDoubleNotice(events0, items[..k], outs, roomEmail, personal, now);
      RunStores(events0, items[..k], outs, roomEmail, personal, now);
      RunLast(events0, items, outs, roomEmail, personal, now);
      var p := RunFrom(events0, items[..k], outs, roomEmail, personal, now);
      var e := Handle(p.events, items[k], outs(k), roomEmail, personal, now);
      NoDoubleNoticeStep(items, p.visits, e.visit, outs);
    }
  }

  /** A message that was not delivered leaves no row, so as long as no other
      appointment of the run stored the same id, the next run with a readable
      store sends it again. */
  lemma UndeliveredRetried(events0: map<EventId, EventRecord>, items: seq<Appointment>, outs: nat -> Outcomes, roomEmail: string, personal: bool, now: int,
                           k: nat, next: Outcomes, later: int)
    requires k < |items|
    requires GenerateEventId(items[k]) !in events0
    requires forall v :: v in RunFrom(events0, items, outs, roomEmail, personal, now).visits ==> v != Notified(GenerateEventId(items[k]), true, true)
    requires RunFrom(events0, items, outs, roomEmail, personal, now).visits[k] == Notified(GenerateEventId(items[k]), false, false)
    requires next.lookup.Succeeds?
    ensures var t := RunFrom(events0, items, outs, roomEmail, personal, now);
      && GenerateEventId(items[k]) !in t.events
      && Handle(t.events, items[k], next, roomEmail, personal, later).visit.Notified?
  {
    RunStores(events0, items, outs, roomEmail, personal, now);
    RunVisits(events0, items, outs, roomEmail, personal, now);
  }

  /** With a readable store, a delivered first attempt and a working insert, an
      appointment the run looks at is stored after its visit. */
  lemma GoodVisitStores(events: map<EventId, EventRecord>, a: Appointment, o: Outcomes, roomEmail: string, personal: bool, now: int)
    requires o.lookup.Succeeds? && o.first.Delivered? && o.insert.Succeeds?
    requires Relevant(a, roomEmail, personal)
    ensures GenerateEventId(a) in Handle(events, a, o, roomEmail, personal, now).events
  {
  }

  /** Appointment `a`, if the run looks at it, has its id in `events`. */
  predicate StoredIfRelevant(a: Appointment, events: map<EventId, EventRecord>, roomEmail: string, personal: bool)
  {
    Relevant(a, roomEmail, personal) ==> GenerateEventId(a) in events
  }

  /** Every appointment of `items` that the run looks at has its id in `events`. */
  predicate AllStored(items: seq<Appointment>, events: map<EventId, EventRecord>, roomEmail: string, personal: bool)
  {
    forall k :: 0 <= k < |items| ==> StoredIfRelevant(items[k], events, roomEmail, personal)
  }

  lemma AllStoredStep(items: seq<Appointment>, before: map<EventId, EventRecord>, after: map<EventId, EventRecord>, roomEmail: string, personal: bool)
    requires items != []
    requires AllStored(items[..|items| - 1], before, roomEmail, personal) && before.Keys <= after.Keys
    requires StoredIfRelevant(items[|items| - 1], after, roomEmail, personal)
    ensures AllStored(items, after, roomEmail, personal)
  {
    var n, prefix := |items| - 1, items[..|items| - 1];
    forall k | 0 <= k < n
      ensures StoredIfRelevant(prefix[k], after, roomEmail, personal)
    {
      StoredGrows(prefix[k], before, after, roomEmail, personal);
    }
    assert prefix + [items[n]] == items;
    EverySnoc(prefix, items[n], a => StoredIfRelevant(a, after, roomEmail, personal));
  }

  /** A property of every element still holds after one more element that has it. */
  lemma EverySnoc<A>(xs: seq<A>, x: A, p: A -> bool)
    requires forall k :: 0 <= k < |xs| ==> p(xs[k])
    requires p(x)
    ensures forall k :: 0 <= k < |xs| + 1 ==> p((xs + [x])[k])
  {
    forall k | 0 <= k < |xs| + 1
      ensures p((xs + [x])[k])
    {
      if k < |xs| {
        assert (xs + [x])[k] == xs[k];
      }
    }
  }

  lemma StoredGrows(a: Appointment, before: map<EventId, EventRecord>, after: map<EventId, EventRecord>, roomEmail: string, personal: bool)
    requires StoredIfRelevant(a, before, roomEmail, personal) && before.Keys <= after.Keys
    ensures StoredIfRelevant(a, after, roomEmail, personal)
  {
  }

  /** When every lookup works, every first attempt is delivered and every insert
      works, each appointment the run looks at ends up stored. */
  lemma {:induction false} RunStoresAll(events0: map<EventId, EventRecord>, items: seq<Appointment>, outs: nat -> Outcomes, roomEmail: string, personal: bool, now: int)
    requires forall k :: 0 <= k < |items| ==> outs(k).lookup.Succeeds? && outs(k).first.Delivered? && outs(k).insert.Succeeds?
    ensures AllStored(items, RunFrom(events0, items, outs, roomEmail, personal, now).events, roomEmail, personal)
    decreases |items|
  {
    if items != [] {
      var k := |items| - 1;
      RunStoresAll(events0, items[..k], outs, roomEmail, personal, now);
      RunLast(events0, items, outs, roomEmail, personal, now);
      var p := RunFrom(events0, items[..k], outs, roomEmail, personal, now);
      var e := Handle(p.events, items[k], outs(k), roomEmail, personal, now);
      if Relevant(items[k], roomEmail, personal) {
        GoodVisitStores(p.events, items[k], outs(k), roomEmail, personal, now);
      }
      AllStoredStep(items, p.events, e.events, roomEmail, personal);
    }
  }

  /** When every appointment the run looks at is already stored and the store
      can be read, the run sends nothing, writes nothing and counts nothing. */
  lemma {:induction false} RunQuietWhenStored(events0: map<EventId, EventRecord>, items: seq<Appointment>, outs: nat -> Outcomes, roomEmail: string, personal: bool, now: int)
    requires forall k :: 0 <= k < |items| ==> outs(k).lookup.Succeeds?
    requires forall k :: 0 <= k < |items| && Relevant(items[k], roomEmail, personal) ==> GenerateEventId(items[k]) in events0
    ensures var t := RunFrom(events0, items, outs, roomEmail, personal, now);
      t.events == events0 && t.received == [] && t.calls == 0 && t.lines == [] && t.count == 0
    decreases |items|
  {
    if items != [] {
      var k := |items| - 1;
      RunQuietWhenStored(events0, items[..k], outs, roomEmail, personal, now);
      RunLast(events0, items, outs, roomEmail, personal, now);
    }
  }

  /** A later cycle after a fully successful one: when everything in the later
      window was in the earlier window and the store can be read, the later cycle
      notifies nobody, leaves the store as it is and logs only its summary. */
  lemma SecondCycleQuiet(events0: map<EventId, EventRecord>, personal: bool, items: seq<Appointment>, outs: nat -> Outcomes, now: int,
                         refetched: seq<Appointment>, again: nat -> Outcomes, later: int, roomEmail: string)
    requires forall k :: 0 <= k < |Restrict(items, now)| ==> outs(k).lookup.Succeeds? && outs(k).first.Delivered? && outs(k).insert.Succeeds?
    requires forall a :: a in Restrict(refetched, later) ==> a in Restrict(items, now)
    requires forall k :: 0 <= k < |Restrict(refetched, later)| ==> again(k).lookup.Succeeds?
    ensures var first := Cycle(events0, Fetched(personal, items), outs, roomEmail, now);
      var second := Cycle(first.events, Fetched(personal, refetched), again, roomEmail, later);
      && second.events == first.events
      && second.received == [] && second.calls == 0 && second.count == 0
      && second.lines == [Summary(0)]
  {
    RunStoresAll(events0, Restrict(items, now), outs, roomEmail, personal, now);
    var first := RunFrom(events0, Restrict(items, now), outs, roomEmail, personal, now);
    AllStoredCovers(Restrict(items, now), Restrict(refetched, later), first.events, roomEmail, personal);
    RunQuietWhenStored(first.events, Restrict(refetched, later), again, roomEmail, personal, later);
  }

  /** Every appointment of `w2` that the run looks at is stored when `w1` holds all
      of `w2` and all of `w1` is stored. */
  lemma AllStoredCovers(w1: seq<Appointment>, w2: seq<Appointment>, events: map<EventId, EventRecord>, roomEmail: string, personal: bool)
    requires AllStored(w1, events, roomEmail, personal)
    requires forall a :: a in w2 ==> a in w1
    ensures forall k :: 0 <= k < |w2| && Relevant(w2[k], roomEmail, personal) ==> GenerateEventId(w2[k]) in events
  {
    forall k | 0 <= k < |w2| && Relevant(w2[k], roomEmail, personal)
      ensures GenerateEventId(w2[k]) in events
    {
      assert w2[k] in w2;
      var j :| 0 <= j < |w1| && w1[j] == w2[k];
      assert StoredIfRelevant(w1[j], events, roomEmail, personal);
    }
  }

  /** An exception inside the appointment loop keeps what the turns before it
      did: their rows (and every row stored before the run), their messages and
      their log lines. Only error lines follow, the last being the handler's, so
      no summary is written. */
  lemma InterruptedKeepsPrefix(events0: map<EventId, EventRecord>, personal: bool, items: seq<Appointment>, at: nat, pastLookup: bool, error: string,
                               outs: nat -> Outcomes, roomEmail: string, now: int)
    requires at < |Restrict(items, now)|
    ensures var c := Cycle(events0, Interrupted(personal, items, at, pastLookup, error), outs, roomEmail, now);
      var p := RunFrom(events0, Restrict(items, now)[..at], outs, roomEmail, personal, now);
      && c.events == p.events && c.received == p.received && c.calls == p.calls && c.count == p.count
      && (forall id :: id in events0 ==> id in c.events && c.events[id] == events0[id])
      && (forall v :: v in p.visits && Marked(v) ==> v.id in c.events)
      && |p.lines| < |c.lines| && c.lines[..|p.lines|] == p.lines
      && (forall k :: |p.lines| <= k < |c.lines| ==> c.lines[k].kind == Error)
      && c.lines[|c.lines| - 1] == FailureLine(error)
  {
    var window := Restrict(items, now);
    var p := RunFrom(events0, window[..at], outs, roomEmail, personal, now);
    var cut := CutShortLines(window[at], outs(at), roomEmail, personal, pastLookup);
    assert Cycle(events0, Interrupted(personal, items, at, pastLookup, error), outs, roomEmail, now) == Abandon(p, cut, error);
    AbandonKeeps(p, cut, error);
    RunStores(events0, window[..at], outs, roomEmail, personal, now);
  }

  /** Abandoning a run keeps everything but its log lines, to which only error
      lines are added, the handler's last. */
  lemma AbandonKeeps(t: Tally, cut: seq<LogLine>, error: string)
    requires forall k :: 0 <= k < |cut| ==> cut[k].kind == Error
    ensures var c := Abandon(t, cut, error);
      && c.events == t.events && c.received == t.received && c.calls == t.calls && c.count == t.count && c.visits == t.visits
      && |t.lines| < |c.lines| && c.lines[..|t.lines|] == t.lines
      && (forall k :: |t.lines| <= k < |c.lines| ==> c.lines[k].kind == Error)
      && c.lines[|c.lines| - 1] == FailureLine(error)
  {
    var c := Abandon(t, cut, error);
    var tail := cut + [FailureLine(error)];
    assert c.lines == t.lines + tail;
    forall k | |t.lines| <= k < |c.lines| ensures c.lines[k].kind == Error {
      assert c.lines[k] == tail[k - |t.lines|];
    }
    assert c.lines[..|t.lines|] == t.lines;
  }

  /** A read fault makes a stored appointment look new: it is sent again, and the
      insert that follows fails on the duplicate key, leaving the store as it was. */
  lemma ReadFaultResends(events: map<EventId, EventRecord>, a: Appointment, o: Outcomes, roomEmail: string, personal: bool, now: int)
    requires Relevant(a, roomEmail, personal) && GenerateEventId(a) in events
    requires o.lookup.Fails? && o.first.Delivered?
    ensures var e := Handle(events, a, o, roomEmail, personal, now);
      && e.visit == Notified(GenerateEventId(a), true, false)
      && e.received == [Message(a)]
      && e.events == events
  {
  }

  /** One new appointment in the window of an empty store, with everything
      working: one message, one row, counter 1. */
  lemma SingleBookingNotified(a: Appointment, personal: bool, outs: nat -> Outcomes, roomEmail: string, now: int)
    requires InWindow(a, now) && Relevant(a, roomEmail, personal)
    requires outs(0) == Outcomes(Succeeds, Delivered, Delivered, Succeeds)
    ensures var c := Cycle(map[], Fetched(personal, [a]), outs, roomEmail, now);
      && c.count == 1
      && c.received == [Message(a)]
      && c.calls == 1
      && c.events == map[GenerateEventId(a) := RecordOf(a, now)]
      && c.lines == [LogLine(Info, "已发送通知: " + ShownSubject(a)), Summary(1)]
  {
    CycleSingle(map[], a, personal, outs, roomEmail, now);
    FreshGoodStep(a, outs(0), roomEmail, personal, now);
  }

  /** The step and the summary for a relevant appointment on an empty store with
      everything working. */
  lemma FreshGoodStep(a: Appointment, o: Outcomes, roomEmail: string, personal: bool, now: int)
    requires Relevant(a, roomEmail, personal)
    requires o == Outcomes(Succeeds, Delivered, Delivered, Succeeds)
    ensures var c := Finish(Step(Begin(map[]), a, o, roomEmail, personal, now));
      && c.count == 1
      && c.received == [Message(a)]
      && c.calls == 1
      && c.events == map[GenerateEventId(a) := RecordOf(a, now)]
      && c.lines == [LogLine(Info, "已发送通知: " + ShownSubject(a)), Summary(1)]
  {
    var e := Handle(map[], a, o, roomEmail, personal, now);
    FreshGoodVisit(a, o, roomEmail, personal, now);
    FinishSingle(e);
  }

  /** A completed cycle over one appointment in the window is one step and the
      summary. */
  lemma CycleSingle(events: map<EventId, EventRecord>, a: Appointment, personal: bool, outs: nat -> Outcomes, roomEmail: string, now: int)
    requires InWindow(a, now)
    ensures Cycle(events, Fetched(personal, [a]), outs, roomEmail, now)
      == Finish(Step(Begin(events), a, outs(0), roomEmail, personal, now))
  {
    RestrictSingle(a, now);
    RunSingle(Begin(events), a, outs, roomEmail, personal, now);
  }

  /** A run over one appointment is one step. */
  lemma RunSingle(t0: Tally, a: Appointment, outs: nat -> Outcomes, roomEmail: string, personal: bool, now: int)
    ensures Run(t0, [a], outs, roomEmail, personal, now) == Step(t0, a, outs(0), roomEmail, personal, now)
  {
    assert [a][..0] == [];
  }

  /** A cycle over one appointment that was marked: its effect and the summary
      of one notification. */
  lemma FinishSingle(e: Effect)
    requires Marked(e.visit)
    ensures var c := Finish(Apply(Begin(map[]), e));
      && c.count == 1 && c.received == e.received && c.calls == e.calls
      && c.events == e.events && c.lines == e.lines + [Summary(1)]
  {
  }

  /** A relevant appointment on an empty store with everything working: one
      attempt, one message, one row and the info line. */
  lemma FreshGoodVisit(a: Appointment, o: Outcomes, roomEmail: string, personal: bool, now: int)
    requires Relevant(a, roomEmail, personal)
    requires o == Outcomes(Succeeds, Delivered, Delivered, Succeeds)
    ensures Handle(map[], a, o, roomEmail, personal, now)
      == Effect(map[GenerateEventId(a) := RecordOf(a, now)], [Message(a)], 1,
                [LogLine(Info, "已发送通知: " + ShownSubject(a))], Notified(GenerateEventId(a), true, true))
  {
  }

  /** The summary names the number of new notifications exactly when there were some. */
  lemma SummaryReportsCount(n: nat)
    ensures Contains(Summary(n).text, "条新通知") <==> n > 0
    ensures n > 0 ==> Contains(Summary(n).text, IntText(n))
  {
    if n > 0 {
      var pre, x := "本次检查共发送 ", IntText(n);
      InfixContained(pre, x, " 条新通知");
      assert pre + x + " 条新通知" == (pre + x + " ") + "条新通知" + "";
      InfixContained(pre + x + " ", "条新通知", "");
    } else {
      ContainsFirstChar(Summary(n).text, "条新通知");
    }
  }
}
