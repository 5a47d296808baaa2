/** One calendar appointment as the notifier sees it: its identity, whether it
    concerns the watched room, and the notification text built from it. */
module Booking {
  import opened Text

  /** Times are whole minutes since a fixed epoch. */
  const MinutesPerDay := 1440

  /** An Outlook appointment, read-only. `recipients` holds `str(recipient)` of
      each attendee. */
  datatype Appointment = Appointment(
    subject: string,
    organizer: string,
    start: int,
    end: int,
    location: string,
    recipients: seq<string>)

  const NoSubject := "无主题"

  /** The subject shown in messages and stored in records: an empty subject
      becomes the "no subject" placeholder. */
  function ShownSubject(a: Appointment): (r: string)
    ensures r != []
    ensures a.subject != [] ==> r == a.subject
  {
    if a.subject != [] then a.subject else NoSubject
  }

  /** `str(datetime)`: rendered as the decimal minute count, which reads back as `t`. */
  function StampText(t: int): (r: string)
    ensures r != [] && SignedValue(r) == t
  {
    IntText(t)
  }

  /** `strftime('%Y-%m-%d')`: rendered as the decimal day number, which reads
      back as the day `t` falls on. */
  function DateText(t: int): (r: string)
    ensures r != [] && SignedValue(r) == t / MinutesPerDay
  {
    IntText(t / MinutesPerDay)
  }

  /** `strftime('%H:%M')`: the hour of the day and the minute of the hour, each
      as two decimal digits, separated by `:`. */
  function ClockText(t: int): (r: string)
    ensures |r| == 5 && r[2] == ':'
    ensures forall i :: i in {0, 1, 3, 4} ==> '0' <= r[i] <= '9'
    ensures DigitValue(r[0]) * 10 + DigitValue(r[1]) == (t % MinutesPerDay) / 60
    ensures DigitValue(r[3]) * 10 + DigitValue(r[4]) == t % 60
  {
    var m := t % MinutesPerDay;
    MinuteOfDay(t);
    Pad2(m / 60) + ":" + Pad2(m % 60)
  }

  /** The minute of the hour is the same whether counted from the epoch or from
      the start of the day. */
  lemma MinuteOfDay(t: int)
    ensures (t % MinutesPerDay) % 60 == t % 60
  {
  }

  /** Two times show the same `%H:%M` exactly when they fall on the same minute of
      the day. */
  lemma ClockTextSameMinuteOfDay(t: int, u: int)
    ensures ClockText(t) == ClockText(u) <==> t % MinutesPerDay == u % MinutesPerDay
  {
  }

  /** The SHA-256 digest of a text, kept symbolic: two ids are equal exactly
      when their pre-images are (the hash is taken to be collision-free). */
  datatype EventId = Sha256(preimage: string)

  /** The text that is hashed: subject, start, end and organizer joined by `_`.
      The raw subject opens it and the organizer closes it; its length leaves room
      for the two times and three separators only, so the location is not part of it. */
  function IdentityText(a: Appointment): (r: string)
    ensures |r| == |a.subject| + |StampText(a.start)| + |StampText(a.end)| + |a.organizer| + 3
    ensures r[..|a.subject|] == a.subject && r[|a.subject|] == '_'
    ensures r[|r| - |a.organizer|..] == a.organizer && r[|r| - |a.organizer| - 1] == '_'
  {
    var head := a.subject + "_" + StampText(a.start) + "_" + StampText(a.end) + "_";
    assert (head + a.organizer)[..|a.subject|] == a.subject;
    head + a.organizer
  }

  /** `generate_event_id`: the digest of the identity text. Erasing the location
      and the recipients gives the same text, and an empty subject is hashed as
      it is, not as the placeholder, so the text then starts with `_`. */
  function GenerateEventId(a: Appointment): (r: EventId)
    ensures r.preimage == IdentityText(a.(location := "", recipients := []))
    ensures a.subject == [] ==> r.preimage[0] == '_'
  {
    Sha256(IdentityText(a))
  }

  /** The id depends on subject, start, end and organizer only: location and
      recipients do not affect it. */
  lemma EventIdIgnoresLocation(a: Appointment, b: Appointment)
    requires a.subject == b.subject && a.start == b.start && a.end == b.end && a.organizer == b.organizer
    ensures GenerateEventId(a) == GenerateEventId(b)
  {
  }

  /** Equal joins with a common prefix and suffix have equal middles. */
  lemma JoinCancel(p: string, x: string, y: string, q: string)
    requires p + x + q == p + y + q
    ensures x == y
  {
    assert |x| == |y|;
    assert x == (p + x + q)[|p|..|p| + |x|];
    assert y == (p + y + q)[|p|..|p| + |y|];
  }

  /** Equal joins with a common suffix have equal heads. */
  lemma SuffixCancel(x: string, y: string, q: string)
    ensures x + q == y + q ==> x == y
  {
    if x + q == y + q {
      assert x == (x + q)[..|x|];
    }
  }

  /** How many of subject, start, end and organizer differ between two appointments. */
  function ChangedIdentityFields(a: Appointment, b: Appointment): nat
  {
    (if a.subject != b.subject then 1 else 0) + (if a.start != b.start then 1 else 0)
    + (if a.end != b.end then 1 else 0) + (if a.organizer != b.organizer then 1 else 0)
  }

  lemma SubjectChangesId(a: Appointment, b: Appointment)
    requires a.subject != b.subject && a.start == b.start && a.end == b.end && a.organizer == b.organizer
    ensures GenerateEventId(a) != GenerateEventId(b)
  {
    var rest := "_" + StampText(a.start) + "_" + StampText(a.end) + "_" + a.organizer;
    assert IdentityText(a) == a.subject + rest;
    assert IdentityText(b) == b.subject + rest;
    SuffixCancel(a.subject, b.subject, rest);
  }

  lemma StartChangesId(a: Appointment, b: Appointment)
    requires a.subject == b.subject && a.start != b.start && a.end == b.end && a.organizer == b.organizer
    ensures GenerateEventId(a) != GenerateEventId(b)
  {
    var sa, sb := StampText(a.start), StampText(b.start);
    var e := StampText(a.end);
    var p, q := a.subject + "_", "_" + e + "_" + a.organizer;
    JoinAround(a.subject, sa, e, a.organizer);
    JoinAround(a.subject, sb, e, a.organizer);
    if IdentityText(a) == IdentityText(b) {
      JoinCancel(p, sa, sb, q);
      IntTextInjective(a.start, b.start);
    }
  }

  lemma EndChangesId(a: Appointment, b: Appointment)
    requires a.subject == b.subject && a.start == b.start && a.end != b.end && a.organizer == b.organizer
    ensures GenerateEventId(a) != GenerateEventId(b)
  {
    var ea, eb := StampText(a.end), StampText(b.end);
    var st := StampText(a.start);
    var p, q := a.subject + "_" + st + "_", "_" + a.organizer;
    JoinAround(a.subject, st, ea, a.organizer);
    JoinAround(a.subject, st, eb, a.organizer);
    if IdentityText(a) == IdentityText(b) {
      JoinCancel(p, ea, eb, q);
      IntTextInjective(a.end, b.end);
    }
  }

  /** The identity text regrouped around its start and around its end. */
  lemma JoinAround(s: string, x: string, y: string, o: string)
    ensures var r := s + "_" + x + "_" + y + "_" + o;
      && r == (s + "_") + x + ("_" + y + "_" + o)
      && r == (s + "_" + x + "_") + y + ("_" + o)
  {
  }

  lemma OrganizerChangesId(a: Appointment, b: Appointment)
    requires a.subject == b.subject && a.start == b.start && a.end == b.end && a.organizer != b.organizer
    ensures GenerateEventId(a) != GenerateEventId(b)
  {
    var p := a.subject + "_" + StampText(a.start) + "_" + StampText(a.end) + "_";
    assert IdentityText(a) == p + a.organizer + "";
    assert IdentityText(b) == p + b.organizer + "";
    if IdentityText(a) == IdentityText(b) {
      JoinCancel(p, a.organizer, b.organizer, "");
    }
  }

  /** Changing any single one of the four identifying fields changes the id. */
  lemma EventIdSeparatesSingleChange(a: Appointment, b: Appointment)
    requires ChangedIdentityFields(a, b) == 1
    ensures GenerateEventId(a) != GenerateEventId(b)
  {
    if a.subject != b.subject {
      SubjectChangesId(a, b);
    } else if a.start != b.start {
      StartChangesId(a, b);
    } else if a.end != b.end {
      EndChangesId(a, b);
    } else {
      OrganizerChangesId(a, b);
    }
  }

  /** The plain `_` join is ambiguous: two bookings that differ in both subject and
      organizer can share an id, and the later one is then taken as already notified. */
  lemma EventIdJoinIsAmbiguous()
    ensures var a := Appointment("s_1_2_o", "p", 3, 4, "", []);
            var b := Appointment("s", "o_3_4_p", 1, 2, "", []);
            a.subject != b.subject && GenerateEventId(a) == GenerateEventId(b)
  {
    var a := Appointment("s_1_2_o", "p", 3, 4, "", []);
    var b := Appointment("s", "o_3_4_p", 1, 2, "", []);
    assert StampText(1) == "1" && StampText(2) == "2";
    assert StampText(3) == "3" && StampText(4) == "4";
    assert IdentityText(a) == "s_1_2_o" + "_" + "3" + "_" + "4" + "_" + "p";
    assert IdentityText(b) == "s" + "_" + "1" + "_" + "2" + "_" + "o_3_4_p";
  }

  /** On the personal (fallback) calendar an appointment is kept when its location
      mentions the part of the room address before `@`, or when some recipient
      mentions the whole address; both compared lower-cased. With an empty room
      address both tests match the empty text, which every text contains: every
      appointment with a location or a recipient passes. */
  predicate ConcernsRoom(a: Appointment, roomEmail: string)
    ensures roomEmail == [] ==> (ConcernsRoom(a, roomEmail) <==> a.location != [] || a.recipients != [])
  {
    EmptyAddressMatches(a);
    || (a.location != [] && Contains(Lower(a.location), Lower(LocalPart(roomEmail))))
    || exists i :: 0 <= i < |a.recipients| && Contains(Lower(a.recipients[i]), Lower(roomEmail))
  }

  /** Every text contains the empty text, so the empty address and its empty
      local part match any location and any recipient. */
  lemma EmptyAddressMatches(a: Appointment)
    ensures (|| (a.location != [] && Contains(Lower(a.location), Lower(LocalPart(""))))
             || exists i :: 0 <= i < |a.recipients| && Contains(Lower(a.recipients[i]), Lower("")))
      <==> a.location != [] || a.recipients != []
  {
    assert LocalPart("") == "" && Lower("") == "";
    assert OccursAt(Lower(a.location), "", 0);
    if a.recipients != [] {
      assert OccursAt(Lower(a.recipients[0]), "", 0);
    }
  }

  /** The room filter as the poll loop runs it: the location test, then a scan of
      the recipients that stops at the first match. */
  method IsRoomEvent(a: Appointment, roomEmail: string) returns (isRoomEvent: bool)
    ensures isRoomEvent == ConcernsRoom(a, roomEmail)
  {
    isRoomEvent := false;
    var roomName := Lower(LocalPart(roomEmail));
    if a.location != [] && Contains(Lower(a.location), roomName) {
      isRoomEvent := true;
    }
    if !isRoomEvent {
      var needle := Lower(roomEmail);
      var i := 0;
      while i < |a.recipients|
        invariant 0 <= i <= |a.recipients|
        invariant !isRoomEvent ==> forall j :: 0 <= j < i ==> !Contains(Lower(a.recipients[j]), needle)
        invariant isRoomEvent ==> ConcernsRoom(a, roomEmail)
        invariant !(a.location != [] && Contains(Lower(a.location), roomName))
      {
        if Contains(Lower(a.recipients[i]), needle) {
          isRoomEvent := true;
          break;
        }
        i := i + 1;
      }
    }
  }

  /** A location that mentions the whole room address also mentions its local
      part, so such an appointment passes the filter. */
  lemma FullAddressInLocationPasses(a: Appointment, roomEmail: string)
    requires a.location != [] && Contains(Lower(a.location), Lower(roomEmail))
    ensures ConcernsRoom(a, roomEmail)
  {
    var local := LocalPart(roomEmail);
    LowerPrefix(roomEmail, |local|);
    ContainsPrefix(Lower(roomEmail), |local|);
    ContainsTransitive(Lower(a.location), Lower(roomEmail), Lower(local));
  }

  /** An appointment with neither location nor recipients never passes. */
  lemma BareAppointmentSkipped(a: Appointment, roomEmail: string)
    requires a.location == [] && a.recipients == []
    ensures !ConcernsRoom(a, roomEmail)
  {
  }

  const Header := "🔔 会议室预订通知（自动任务）\n\n"
  const LocationLabel := "\n📍 地点: "

  function DateLine(a: Appointment): string
  {
    "📅 日期: " + DateText(a.start) + "\n"
  }

  function TimeLine(a: Appointment): string
  {
    "🕒 时间: " + ClockText(a.start) + " - " + ClockText(a.end) + "\n"
  }

  function OrganizerLine(a: Appointment): string
  {
    "👤 预订人: " + a.organizer + "\n"
  }

  /** The date, time and organizer lines. */
  function Details(a: Appointment): string
  {
    DateLine(a) + TimeLine(a) + OrganizerLine(a)
  }

  const SubjectLabel := "📝 主题: "

  /** The location line, present only when the location is non-empty. */
  function LocationLine(a: Appointment): string
  {
    if a.location != [] then LocationLabel + a.location else ""
  }

  /** The notification: header, date, time range, organizer, shown subject, and a
      location line only when the location is non-empty. Each of date, time range,
      organizer and shown subject appears behind its label. */
  function Message(a: Appointment): (r: string)
    ensures Contains(r, DateLine(a))
    ensures Contains(r, TimeLine(a))
    ensures Contains(r, OrganizerLine(a))
    ensures Contains(r, SubjectLabel + ShownSubject(a))
  {
    PiecesContained(Header, DateLine(a), TimeLine(a), OrganizerLine(a), SubjectLabel + ShownSubject(a), LocationLine(a));
    Header + Details(a) + (SubjectLabel + ShownSubject(a)) + LocationLine(a)
  }

  /** Each middle piece of a six-piece text is contained in it. */
  lemma PiecesContained(h: string, d: string, t: string, o: string, s: string, l: string)
    ensures var r := h + (d + t + o) + s + l;
      Contains(r, d) && Contains(r, t) && Contains(r, o) && Contains(r, s)
  {
    var r := h + (d + t + o) + s + l;
    assert r == h + d + (t + o + s + l);
    InfixContained(h, d, t + o + s + l);
    assert r == (h + d) + t + (o + s + l);
    InfixContained(h + d, t, o + s + l);
    assert r == (h + d + t) + o + (s + l);
    InfixContained(h + d + t, o, s + l);
    assert r == (h + (d + t + o)) + s + l;
    InfixContained(h + (d + t + o), s, l);
  }

  /** Giving an appointment a location appends exactly one location line to its
      message and changes nothing before it. */
  lemma LocationLineAppended(a: Appointment, location: string)
    requires a.location == [] && location != []
    ensures Message(a.(location := location)) == Message(a) + LocationLabel + location
  {
  }

  /** Every message starts with the header. */
  lemma MessageStartsWithHeader(a: Appointment)
    ensures |Header| <= |Message(a)| && Message(a)[..|Header|] == Header
  {
    var rest := Details(a) + (SubjectLabel + ShownSubject(a)) + LocationLine(a);
    assert Message(a) == Header + rest;
  }

  /** An empty subject is shown as the placeholder. */
  lemma EmptySubjectShown(a: Appointment)
    requires a.subject == []
    ensures Contains(Message(a), SubjectLabel + NoSubject)
  {
    InfixContained(Header + Details(a), SubjectLabel + NoSubject, LocationLine(a));
  }
}
