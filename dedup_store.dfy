/** The SQLite database of the notifier: the `processed_events` table, keyed by
    event id, and the append-only `logs` table with auto-incremented ids. */
module DedupStore {
  import opened Wrappers
  import opened Text
  import opened Booking

  /** A row of `processed_events`, less its key. */
  datatype EventRecord = EventRecord(
    subject: string,
    organizer: string,
    startTime: string,
    endTime: string,
    eventDate: string,
    location: string,
    processedTime: int,
    createdAt: int)

  /** The row written for an appointment notified at `now`: the shown subject,
      the organizer, the `%H:%M` start and end, the start's date and the location,
      created and processed at `now`. */
  function RecordOf(a: Appointment, now: int): (r: EventRecord)
    ensures r.subject == ShownSubject(a) && r.organizer == a.organizer && r.location == a.location
    ensures r.startTime == ClockText(a.start) && r.endTime == ClockText(a.end) && r.eventDate == DateText(a.start)
    ensures r.createdAt == now && r.processedTime == now
  {
    EventRecord(ShownSubject(a), a.organizer, ClockText(a.start), ClockText(a.end),
                DateText(a.start), a.location, now, now)
  }

  /** The row shows the same subject, date and time range as the notification. */
  lemma RecordMatchesMessage(a: Appointment, now: int)
    ensures var r := RecordOf(a, now);
      && Contains(Message(a), SubjectLabel + r.subject)
      && Contains(Message(a), r.eventDate)
      && Contains(Message(a), r.startTime + " - " + r.endTime)
  {
    LabelledValueShown(Message(a), "📅 日期: ", DateText(a.start), "\n");
    RangeShown(Message(a), "🕒 时间: ", ClockText(a.start), " - ", ClockText(a.end), "\n");
  }

  /** A text that contains a labelled line contains the line's value. */
  lemma LabelledValueShown(m: string, caption: string, value: string, tail: string)
    requires Contains(m, caption + value + tail)
    ensures Contains(m, value)
  {
    InfixContained(caption, value, tail);
    ContainsTransitive(m, caption + value + tail, value);
  }

  /** A text that contains a labelled range line contains the range. */
  lemma RangeShown(m: string, caption: string, from: string, dash: string, to: string, tail: string)
    requires Contains(m, caption + from + dash + to + tail)
    ensures Contains(m, from + dash + to)
  {
    assert caption + from + dash + to + tail == caption + (from + dash + to) + tail;
    LabelledValueShown(m, caption, from + dash + to, tail);
  }

  /** The stored subject falls back to the placeholder and the stored location to "". */
  lemma RecordDefaults(a: Appointment, now: int)
    ensures a.subject == [] ==> RecordOf(a, now).subject == NoSubject
    ensures a.location == [] ==> RecordOf(a, now).location == ""
    ensures RecordOf(a, now).createdAt == now
  {
  }

  datatype LogKind = Info | Error

  /** A log message before the database gives it an id and a timestamp. */
  datatype LogLine = LogLine(kind: LogKind, text: string)

  /** A row of `logs`. */
  datatype LogEntry = LogEntry(id: nat, kind: LogKind, text: string, createdAt: int)

  /** Whether a database operation gets through; `Fails` carries the exception text. */
  datatype Access = Succeeds | Fails(error: string)

  /** SQLite's message for an insert that repeats a primary key. */
  const DuplicateKey := "UNIQUE constraint failed: processed_events.event_id"

  /** The rows that inserting `lines` at time `now` adds, with ids from `firstId` on. */
  function Stamp(firstId: nat, lines: seq<LogLine>, now: int): (r: seq<LogEntry>)
    ensures |r| == |lines|
    decreases |lines|
  {
    if lines == [] then [] else [LogEntry(firstId, lines[0].kind, lines[0].text, now)] + Stamp(firstId + 1, lines[1..], now)
  }

  /** The k-th stamped row carries the k-th line and the id `firstId + k`. */
  lemma {:induction false} StampAt(firstId: nat, lines: seq<LogLine>, now: int, k: nat)
    requires k < |lines|
    ensures Stamp(firstId, lines, now)[k] == LogEntry(firstId + k, lines[k].kind, lines[k].text, now)
    decreases k
  {
    if k > 0 {
      StampAt(firstId + 1, lines[1..], now, k - 1);
    }
  }

  /** Inserting two batches of lines one after the other stamps them as one batch. */
  lemma {:induction false} StampAppend(firstId: nat, xs: seq<LogLine>, ys: seq<LogLine>, now: int)
    ensures Stamp(firstId, xs + ys, now) == Stamp(firstId, xs, now) + Stamp(firstId + |xs|, ys, now)
    decreases |xs|
  {
    if xs == [] {
      assert xs + ys == ys;
    } else {
      assert (xs + ys)[1..] == xs[1..] + ys;
      StampAppend(firstId + 1, xs[1..], ys, now);
    }
  }

  /** Rows appended in two batches are the rows of the two batches appended at
      once: `mid` holds the rows of `xs` after `logs`, the next id being `midId`,
      `after` holds those of `ys` after `mid`, and `zs` is `xs` followed by `ys`. */
  lemma LogsGrow(logs: seq<LogEntry>, firstId: nat, xs: seq<LogLine>, mid: seq<LogEntry>, midId: nat, ys: seq<LogLine>, after: seq<LogEntry>, zs: seq<LogLine>, now: int)
    requires mid == logs + Stamp(firstId, xs, now) && midId == firstId + |xs|
    requires after == mid + Stamp(midId, ys, now)
    requires zs == xs + ys
    ensures after == logs + Stamp(firstId, zs, now)
  {
    StampAppend(firstId, xs, ys, now);
    var p, q := Stamp(firstId, xs, now), Stamp(midId, ys, now);
    assert |after| == |logs| + |p| + |q|;
    forall i | 0 <= i < |after|
      ensures after[i] == (logs + (p + q))[i]
    {
    }
  }

  /** AUTOINCREMENT: ids strictly increase along the table. */
  predicate IdsIncreasing(logs: seq<LogEntry>)
  {
    forall i, j :: 0 <= i < j < |logs| ==> logs[i].id < logs[j].id
  }

  /** Log rows below `nextId`, in increasing id order. */
  predicate LogsBelow(logs: seq<LogEntry>, nextId: nat)
  {
    IdsIncreasing(logs) && forall e :: e in logs ==> e.id < nextId
  }

  /** Appending freshly stamped rows keeps the ids increasing and below the new counter. */
  lemma StampKeepsLogsBelow(logs: seq<LogEntry>, nextId: nat, lines: seq<LogLine>, now: int)
    requires LogsBelow(logs, nextId)
    ensures LogsBelow(logs + Stamp(nextId, lines, now), nextId + |lines|)
  {
    var s := logs + Stamp(nextId, lines, now);
    forall i, j | 0 <= i < j < |s| ensures s[i].id < s[j].id {
      if j < |logs| {
      } else if i < |logs| {
        assert s[i] in logs;
        StampAt(nextId, lines, now, j - |logs|);
      } else {
        StampAt(nextId, lines, now, i - |logs|);
        StampAt(nextId, lines, now, j - |logs|);
      }
    }
    forall e | e in s ensures e.id < nextId + |lines| {
      var k :| 0 <= k < |s| && s[k] == e;
      if k >= |logs| {
        StampAt(nextId, lines, now, k - |logs|);
      }
    }
  }

  /** `DELETE FROM logs WHERE created_at < cutoff`, order kept. */
  function Retained(logs: seq<LogEntry>, cutoff: int): (r: seq<LogEntry>)
    ensures forall e :: e in r <==> e in logs && e.createdAt >= cutoff
    ensures |r| <= |logs|
  {
    if logs == [] then []
    else (if logs[0].createdAt >= cutoff then [logs[0]] else []) + Retained(logs[1..], cutoff)
  }

  /** Deleting rows keeps the remaining ids increasing. */
  lemma {:induction false} RetainedIncreasing(logs: seq<LogEntry>, cutoff: int)
    requires IdsIncreasing(logs)
    ensures IdsIncreasing(Retained(logs, cutoff))
  {
    if logs != [] {
      var rest := Retained(logs[1..], cutoff);
      RetainedIncreasing(logs[1..], cutoff);
      forall e | e in rest ensures logs[0].id < e.id {
        var k :| 1 <= k < |logs| && logs[k] == e;
      }
    }
  }

  /** The ids `SELECT COUNT(*) … WHERE created_at < cutoff` counts and the
      matching `DELETE` removes: stored ids whose record is older than the cutoff. */
  function Expired(events: map<EventId, EventRecord>, cutoff: int): (r: set<EventId>)
    ensures r <= events.Keys
    ensures forall id :: id in r <==> id in events && events[id].createdAt < cutoff
  {
    set id | id in events && events[id].createdAt < cutoff
  }

  /** What that delete leaves: the records created at or after the cutoff, unchanged. */
  function Unexpired(events: map<EventId, EventRecord>, cutoff: int): (r: map<EventId, EventRecord>)
    ensures forall id :: id in r <==> id in events && cutoff <= events[id].createdAt
    ensures forall id :: id in r ==> r[id] == events[id]
  {
    map id | id in events && cutoff <= events[id].createdAt :: events[id]
  }

  /** The rows counted before the delete are exactly the rows it removes. */
  lemma PruneAccounting(events: map<EventId, EventRecord>, cutoff: int)
    ensures Unexpired(events, cutoff).Keys !! Expired(events, cutoff)
    ensures |Unexpired(events, cutoff)| + |Expired(events, cutoff)| == |events|
  {
    var kept, gone := Unexpired(events, cutoff).Keys, Expired(events, cutoff);
    assert kept + gone == events.Keys;
    assert kept * gone == {};
  }

  /** The boundary is strict: a record created exactly at the cutoff stays, one
      created a minute before it goes. */
  lemma RetentionBoundary(events: map<EventId, EventRecord>, cutoff: int, id: EventId)
    requires id in events
    ensures events[id].createdAt == cutoff ==> id in Unexpired(events, cutoff)
    ensures events[id].createdAt == cutoff - 1 ==> id !in Unexpired(events, cutoff) && id in Expired(events, cutoff)
  {
  }

  /** `is_event_processed`: a failing query counts as "not processed". */
  predicate Found(events: map<EventId, EventRecord>, id: EventId, access: Access)
  {
    access.Succeeds? && id in events
  }

  function LookupLines(access: Access): seq<LogLine>
  {
    if access.Fails? then [LogLine(Error, "检查事件处理状态失败: " + access.error)] else []
  }

  /** The insert of `mark_event_processed` goes through only on a working
      database and a fresh key. */
  predicate Admits(events: map<EventId, EventRecord>, id: EventId, access: Access)
  {
    access.Succeeds? && id !in events
  }

  function InsertLines(events: map<EventId, EventRecord>, id: EventId, access: Access): seq<LogLine>
  {
    if Admits(events, id, access) then []
    else [LogLine(Error, "标记事件失败: " + (if access.Fails? then access.error else DuplicateKey))]
  }

  /** The message `clean_old_events` logs after a purge that removed something. */
  function PurgeLines(count: nat): seq<LogLine>
  {
    if count > 0 then [LogLine(Info, "已清理 " + IntText(count) + " 条过期事件记录")] else []
  }

  /** The log line `init_database` writes once the tables exist; when the database
      cannot be opened the error is only printed. */
  function InitLines(access: Access): seq<LogLine>
  {
    if access.Succeeds? then [LogLine(Info, "数据库初始化成功")] else []
  }

  class Store {
    var events: map<EventId, EventRecord>
    var logs: seq<LogEntry>
    var nextLogId: nat

    ghost predicate Valid()
      reads this
    {
      LogsBelow(logs, nextLogId)
    }

    /** `init_database` on a fresh database file: empty tables, then its own log
        line, the first AUTOINCREMENT id being 1. */
    constructor (access: Access, now: int)
      ensures Valid()
      ensures events == map[]
      ensures logs == Stamp(1, InitLines(access), now) && nextLogId == 1 + |InitLines(access)|
    {
      StampKeepsLogsBelow([], 1, InitLines(access), now);
      events := map[];
      logs := [] + Stamp(1, InitLines(access), now);
      nextLogId := 1 + |InitLines(access)|;
    }

    /** `init_database` on an existing database file: `CREATE TABLE IF NOT EXISTS`
        keeps every stored row, and AUTOINCREMENT continues from `nextLogId0`, past
        every id used before. */
    constructor Reopen(events0: map<EventId, EventRecord>, logs0: seq<LogEntry>, nextLogId0: nat, access: Access, now: int)
      requires LogsBelow(logs0, nextLogId0)
      ensures Valid()
      ensures events == events0
      ensures logs == logs0 + Stamp(nextLogId0, InitLines(access), now)
      ensures nextLogId == nextLogId0 + |InitLines(access)|
    {
      StampKeepsLogsBelow(logs0, nextLogId0, InitLines(access), now);
      events := events0;
      logs := logs0 + Stamp(nextLogId0, InitLines(access), now);
      nextLogId := nextLogId0 + |InitLines(access)|;
    }

    /** `log_message`: one row appended with the next id and the current time. */
    method LogMessage(line: LogLine, now: int)
      requires Valid()
      modifies this
      ensures Valid()
      ensures events == old(events)
      ensures logs == old(logs) + Stamp(old(nextLogId), [line], now)
      ensures nextLogId == old(nextLogId) + 1
    {
      StampKeepsLogsBelow(logs, nextLogId, [line], now);
      logs := logs + [LogEntry(nextLogId, line.kind, line.text, now)];
      nextLogId := nextLogId + 1;
    }

    /** `is_event_processed`: whether a record with this id exists; false when the
        query fails, after logging the error. */
    method IsEventProcessed(id: EventId, access: Access, now: int) returns (processed: bool)
      requires Valid()
      modifies this
      ensures Valid()
      ensures processed <==> access.Succeeds? && id in events
      ensures events == old(events)
      ensures logs == old(logs) + Stamp(old(nextLogId), LookupLines(access), now)
      ensures nextLogId == old(nextLogId) + |LookupLines(access)|
    {
      match access
      case Succeeds =>
        processed := id in events;
      case Fails(error) =>
        LogMessage(LogLine(Error, "检查事件处理状态失败: " + error), now);
        processed := false;
    }

    /** `mark_event_processed`: insert the record for `id`. A repeated key or a
        failing database leaves the table as it was, logs the error and answers false. */
    method MarkEventProcessed(id: EventId, a: Appointment, access: Access, now: int) returns (marked: bool)
      requires Valid()
      modifies this
      ensures Valid()
      ensures marked <==> access.Succeeds? && id !in old(events)
      ensures events == if marked then old(events)[id := RecordOf(a, now)] else old(events)
      ensures logs == old(logs) + Stamp(old(nextLogId), InsertLines(old(events), id, access), now)
      ensures nextLogId == old(nextLogId) + |InsertLines(old(events), id, access)|
    {
      if access.Fails? {
        LogMessage(LogLine(Error, "标记事件失败: " + access.error), now);
        marked := false;
      } else if id in events {
        LogMessage(LogLine(Error, "标记事件失败: " + DuplicateKey), now);
        marked := false;
      } else {
        events := events[id := RecordOf(a, now)];
        marked := true;
      }
    }

    /** `clean_old_events`: with a cutoff and a working database, delete the event
        and log rows created before the cutoff and report how many events went;
        otherwise change nothing but log the error. `cutoff` is None when the
        retention setting cannot be read. */
    method CleanOldEvents(cutoff: Option<int>, access: Access, now: int) returns (count: nat)
      requires Valid()
      modifies this
      ensures Valid()
      ensures cutoff.None? ==>
        && count == 0 && events == old(events)
        && logs == old(logs) + Stamp(old(nextLogId), [LogLine(Error, "清理过期数据失败: 'data_retention_days'")], now)
        && nextLogId == old(nextLogId) + 1
      ensures cutoff.Some? && access.Fails? ==>
        && count == 0 && events == old(events)
        && logs == old(logs) + Stamp(old(nextLogId), [LogLine(Error, "清理过期数据失败: " + access.error)], now)
        && nextLogId == old(nextLogId) + 1
      ensures cutoff.Some? && access.Succeeds? ==>
        && count == |Expired(old(events), cutoff.value)|
        && events == Unexpired(old(events), cutoff.value)
        && logs == Retained(old(logs), cutoff.value) + Stamp(old(nextLogId), PurgeLines(count), now)
        && nextLogId == old(nextLogId) + |PurgeLines(count)|
    {
      if cutoff.None? {
        LogMessage(LogLine(Error, "清理过期数据失败: 'data_retention_days'"), now);
        count := 0;
      } else if access.Fails? {
        LogMessage(LogLine(Error, "清理过期数据失败: " + access.error), now);
        count := 0;
      } else {
        var c := cutoff.value;
        count := |Expired(events, c)|;
        events := Unexpired(events, c);
        RetainedIncreasing(logs, c);
        logs := Retained(logs, c);
        if count > 0 {
          LogMessage(LogLine(Info, "已清理 " + IntText(count) + " 条过期事件记录"), now);
        }
      }
    }
  }
}
