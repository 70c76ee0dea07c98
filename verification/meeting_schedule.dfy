/** `MeetingSchedule`: the fixed list of upcoming meetings, shown in
    chronological order with a label and a badge colour per meeting type. */
module MeetingSchedule {
  import opened Wrappers
  import opened Text

  datatype Meeting = Meeting(id: string, title: string, date: string, time: string, durationMinutes: int, kind: string)

  /** A calendar instant to the minute. */
  datatype Instant = Instant(year: nat, month: nat, day: nat, hour: nat, minute: nat)

  function Reverse<T>(s: seq<T>): (r: seq<T>)
    ensures |r| == |s| && forall i :: 0 <= i < |s| ==> r[i] == s[|s| - 1 - i]
  {
    if |s| == 0 then [] else [s[|s| - 1]] + Reverse(s[..|s| - 1])
  }

  /** `${m.date.split('/').reverse().join('-')}T${m.time}`: "DD/MM/YYYY" and
      "HH:MM" become "YYYY-MM-DDTHH:MM". */
  function Stamp(m: Meeting): (r: string)
    ensures |r| > |m.time| && r[|r| - |m.time| - 1..] == "T" + m.time
  {
    Join(Reverse(Split(m.date, '/')), '-') + "T" + m.time
  }

  /** The instant named by the five digit fields of a stamp, when each is a
      digit string and in range. */
  function FieldsInstant(yyyy: string, mm: string, dd: string, hh: string, mi: string): Option<Instant>
  {
    if AllDigits(yyyy) && AllDigits(mm) && AllDigits(dd) && AllDigits(hh) && AllDigits(mi) then
      var i := Instant(DigitsValue(yyyy), DigitsValue(mm), DigitsValue(dd), DigitsValue(hh), DigitsValue(mi));
      if 1 <= i.month <= 12 && 1 <= i.day <= 31 && i.hour <= 23 && i.minute <= 59 then Some(i) else None
    else None
  }

  /** `new Date(stamp)` for a stamp of the form "YYYY-MM-DDTHH:MM" with the
      fields in range; anything else is an invalid date. */
  function ParseStamp(s: string): Option<Instant>
  {
    if |s| == 16 && s[4] == '-' && s[7] == '-' && s[10] == 'T' && s[13] == ':'
    then FieldsInstant(s[0..4], s[5..7], s[8..10], s[11..13], s[14..16])
    else None
  }

  /** The instant of a meeting, `None` when its stamp is an invalid date. */
  function Key(m: Meeting): (r: Option<Instant>)
    ensures r.Some? ==> 1 <= r.value.month <= 12 && 1 <= r.value.day <= 31 && r.value.hour <= 23 && r.value.minute <= 59
    ensures r.Some? ==> |Stamp(m)| == 16 && Stamp(m)[10] == 'T' && Stamp(m)[13] == ':'
  {
    ParseStamp(Stamp(m))
  }

  /** `a` is not later than `b`: year, month, day, hour and minute compared in turn. */
  predicate NotAfter(a: Instant, b: Instant)
  {
    || a.year < b.year
    || (a.year == b.year && (a.month < b.month
    || (a.month == b.month && (a.day < b.day
    || (a.day == b.day && (a.hour < b.hour
    || (a.hour == b.hour && a.minute <= b.minute)))))))
  }

  /** `NotAfter` is a total order on instants. */
  lemma NotAfterOrder(a: Instant, b: Instant, c: Instant)
    ensures NotAfter(a, a)
    ensures NotAfter(a, b) || NotAfter(b, a)
    ensures NotAfter(a, b) && NotAfter(b, c) ==> NotAfter(a, c)
    ensures NotAfter(a, b) && NotAfter(b, a) ==> a == b
  {
  }

  // ---------------------------------------------------------------------
  // Sorting by a key

  /** Every element has a key. */
  predicate Keyed<T>(s: seq<T>, key: T -> Option<Instant>)
  {
    forall k :: 0 <= k < |s| ==> key(s[k]).Some?
  }

  /** The keys never go back in time along the list. */
  predicate SortedBy<T>(s: seq<T>, key: T -> Option<Instant>)
    requires Keyed(s, key)
  {
    forall i, j :: 0 <= i < j < |s| ==> NotAfter(key(s[i]).value, key(s[j]).value)
  }

  /** Puts `x` into a sorted list, before the first element not earlier than it. */
  function InsertBy<T(==)>(x: T, s: seq<T>, key: T -> Option<Instant>): (r: seq<T>)
    requires key(x).Some? && Keyed(s, key) && SortedBy(s, key)
    ensures |r| == |s| + 1 && Keyed(r, key) && SortedBy(r, key)
    ensures multiset(r) == multiset(s) + multiset{x}
  {
    if |s| == 0 then [x]
    else if NotAfter(key(x).value, key(s[0]).value) then
      InsertFront(x, s, key);
      [x] + s
    else
      var r' := InsertBy(x, s[1..], key);
      InsertBehind(x, s, r', key);
      assert s == [s[0]] + s[1..];
      [s[0]] + r'
  }

  lemma InsertFront<T>(x: T, s: seq<T>, key: T -> Option<Instant>)
    requires key(x).Some? && Keyed(s, key) && SortedBy(s, key) && |s| > 0
    requires NotAfter(key(x).value, key(s[0]).value)
    ensures Keyed([x] + s, key) && SortedBy([x] + s, key)
  {
    var r := [x] + s;
    forall i, j | 0 <= i < j < |r|
      ensures NotAfter(key(r[i]).value, key(r[j]).value)
    {
      if i == 0 && j > 1 {
        NotAfterOrder(key(x).value, key(s[0]).value, key(s[j - 1]).value);
      }
    }
  }

  lemma InsertBehind<T>(x: T, s: seq<T>, r': seq<T>, key: T -> Option<Instant>)
    requires key(x).Some? && Keyed(s, key) && SortedBy(s, key) && |s| > 0
    requires !NotAfter(key(x).value, key(s[0]).value)
    requires Keyed(r', key) && SortedBy(r', key) && multiset(r') == multiset(s[1..]) + multiset{x}
    ensures Keyed([s[0]] + r', key) && SortedBy([s[0]] + r', key)
  {
    NotAfterOrder(key(x).value, key(s[0]).value, key(x).value);
    var r := [s[0]] + r';
    forall i, j | 0 <= i < j < |r|
      ensures NotAfter(key(r[i]).value, key(r[j]).value)
    {
      if i == 0 {
        var y := r'[j - 1];
        assert y in multiset(r');
        if y != x {
          assert y in multiset(s[1..]);
          var k :| 0 <= k < |s[1..]| && s[1..][k] == y;
          assert s[k + 1] == y;
        }
      }
    }
  }

  /** A stable insertion sort by key. */
  function SortBy<T(==)>(s: seq<T>, key: T -> Option<Instant>): (r: seq<T>)
    requires Keyed(s, key)
    ensures Keyed(r, key) && SortedBy(r, key)
    ensures multiset(r) == multiset(s)
  {
    if |s| == 0 then []
    else
      assert s == [s[0]] + s[1..];
      InsertBy(s[0], SortBy(s[1..], key), key)
  }

  // ---------------------------------------------------------------------
  // The meetings in chronological order

  /** Every meeting's date and time make a valid instant. */
  predicate AllTimed(ms: seq<Meeting>)
  {
    forall k :: 0 <= k < |ms| ==> Key(ms[k]).Some?
  }

  predicate Chronological(ms: seq<Meeting>)
    requires AllTimed(ms)
  {
    forall i, j :: 0 <= i < j < |ms| ==> NotAfter(Key(ms[i]).value, Key(ms[j]).value)
  }

  /** `[...meetings].sort(byTime)`: a new list, in chronological order, holding
      the same meetings; the list it was given is a value and stays as it was. */
  function SortByTime(ms: seq<Meeting>): (r: seq<Meeting>)
    requires AllTimed(ms)
    ensures |r| == |ms|
    ensures AllTimed(r) && Chronological(r)
    ensures multiset(r) == multiset(ms)
  {
    var r := SortBy(ms, Key);
    assert |multiset(r)| == |multiset(ms)|;
    r
  }

  /** `a + [sep] + b` splits into `a` followed by the pieces of `b`. */
  lemma {:induction false} SplitAfterPiece(a: string, b: string, sep: char)
    requires sep !in a
    ensures Split(a + [sep] + b, sep) == [a] + Split(b, sep)
  {
    if |a| > 0 {
      SplitAfterPiece(a[1..], b, sep);
      var s := a + [sep] + b;
      assert s[0] == a[0] && s[0] != sep;
      assert s[1..] == a[1..] + [sep] + b;
      var rest := Split(s[1..], sep);
      assert rest[0] == a[1..] && rest[1..] == Split(b, sep);
      assert [s[0]] + rest[0] == a;
    } else {
      assert (a + [sep] + b)[1..] == b;
    }
  }

  /** A string without the separator is one piece. */
  lemma {:induction false} SplitWhole(a: string, sep: char)
    requires sep !in a
    ensures Split(a, sep) == [a]
  {
    if |a| > 0 {
      SplitWhole(a[1..], sep);
      assert a == [a[0]] + a[1..];
    }
  }

  /** A date "DD/MM/YYYY" and a time "HH:MM" give the stamp "YYYY-MM-DDTHH:MM". */
  lemma StampOfDate(m: Meeting, dd: string, mm: string, yyyy: string)
    requires '/' !in dd && '/' !in mm && '/' !in yyyy
    requires m.date == dd + "/" + mm + "/" + yyyy
    ensures Stamp(m) == yyyy + "-" + mm + "-" + dd + "T" + m.time
  {
    var parts := [dd, mm, yyyy];
    assert Split(m.date, '/') == parts by {
      assert m.date == dd + ['/'] + (mm + ['/'] + yyyy);
      SplitAfterPiece(dd, mm + ['/'] + yyyy, '/');
      SplitAfterPiece(mm, yyyy, '/');
      SplitWhole(yyyy, '/');
    }
    assert Reverse(parts) == [yyyy, mm, dd];
    assert Join([yyyy, mm, dd], '-') == yyyy + "-" + mm + "-" + dd by {
      assert [yyyy, mm, dd][1..] == [mm, dd];
      assert [mm, dd][1..] == [dd];
      assert Join([mm, dd], '-') == mm + ['-'] + dd;
      assert Join([yyyy, mm, dd], '-') == yyyy + ['-'] + (mm + ['-'] + dd);
    }
  }

  // ---------------------------------------------------------------------
  // Labels

  function TypeLabel(kind: string): (r: string)
    ensures r == "Revisão" <==> kind == "review"
    ensures r == "Planejamento" <==> kind == "planning"
    ensures r == "Reunião" <==> kind != "review" && kind != "planning"
  {
    if kind == "review" then "Revisão"
    else if kind == "planning" then "Planejamento"
    else "Reunião"
  }

  /** The badge switch splits the types as `TypeLabel` does; `LabelDeterminesBadge`
      relates the two. */
  function BadgeVariant(kind: string): (r: string)
    ensures r == "bg-amber-100 text-amber-800 border-amber-200" <==> kind == "review"
    ensures r == "bg-blue-100 text-blue-800 border-blue-200" <==> kind == "planning"
    ensures r == "bg-purple-100 text-purple-800 border-purple-200" <==> kind != "review" && kind != "planning"
  {
    if kind == "review" then "bg-amber-100 text-amber-800 border-amber-200"
    else if kind == "planning" then "bg-blue-100 text-blue-800 border-blue-200"
    else "bg-purple-100 text-purple-800 border-purple-200"
  }

  /** Label and badge agree: the same label always comes with the same badge. */
  lemma LabelDeterminesBadge(k1: string, k2: string)
    ensures TypeLabel(k1) == TypeLabel(k2) <==> BadgeVariant(k1) == BadgeVariant(k2)
  {
  }

  /** Where the fields of a "YYYY-MM-DDTHH:MM" stamp sit. */
  lemma StampLayout(yyyy: string, mm: string, dd: string, hh: string, mi: string)
    requires |dd| == 2 && |mm| == 2 && |yyyy| == 4 && |hh| == 2 && |mi| == 2
    ensures var st := yyyy + "-" + mm + "-" + dd + "T" + hh + ":" + mi;
      && |st| == 16 && st[4] == '-' && st[7] == '-' && st[10] == 'T' && st[13] == ':'
      && st[0..4] == yyyy && st[5..7] == mm && st[8..10] == dd && st[11..13] == hh && st[14..16] == mi
  {
  }

  /** A meeting dated "DD/MM/YYYY" at "HH:MM" is at the instant those fields name. */
  lemma KeyOfFields(m: Meeting, dd: string, mm: string, yyyy: string, hh: string, mi: string)
    requires |dd| == 2 && |mm| == 2 && |yyyy| == 4 && |hh| == 2 && |mi| == 2
    requires '/' !in dd && '/' !in mm && '/' !in yyyy
    requires m.date == dd + "/" + mm + "/" + yyyy && m.time == hh + ":" + mi
    ensures Key(m) == FieldsInstant(yyyy, mm, dd, hh, mi)
  {
    StampOfDate(m, dd, mm, yyyy);
    StampLayout(yyyy, mm, dd, hh, mi);
    var st := yyyy + "-" + mm + "-" + dd + "T" + hh + ":" + mi;
    assert Stamp(m) == st;
    assert ParseStamp(st) == FieldsInstant(st[0..4], st[5..7], st[8..10], st[11..13], st[14..16]);
  }

  /** The value of a two-digit field. */
  lemma TwoDigitsValue(s: string)
    requires |s| == 2 && AllDigits(s)
    ensures DigitsValue(s) == 10 * DigitValue(s[0]) + DigitValue(s[1])
  {
    var a := s[..1];
    assert a[..0] == [] && a[0] == s[0];
    assert DigitsValue(a) == DigitValue(s[0]);
    assert s[..|s| - 1] == a;
  }

  /** The value of a four-digit field. */
  lemma FourDigitsValue(s: string)
    requires |s| == 4 && AllDigits(s)
    ensures DigitsValue(s) == 1000 * DigitValue(s[0]) + 100 * DigitValue(s[1]) + 10 * DigitValue(s[2]) + DigitValue(s[3])
  {
    var b := s[..3];
    TwoDigitsValue(b[..2]);
    assert b[..2][0] == s[0] && b[..2][1] == s[1] && b[2] == s[2];
    assert b[..|b| - 1] == b[..2];
    assert DigitsValue(b) == 100 * DigitValue(s[0]) + 10 * DigitValue(s[1]) + DigitValue(s[2]);
    assert s[..|s| - 1] == b;
  }

  // ---------------------------------------------------------------------
  // The fixed meetings

  const Meetings: seq<Meeting> := [
    Meeting("meeting1", "Revisão de Design", "20/06/2025", "14:00", 60, "review"),
    Meeting("meeting2", "Planejamento Sprint 3", "25/06/2025", "10:00", 90, "planning"),
    Meeting("meeting3", "Apresentação de Resultados", "30/06/2025", "15:30", 45, "other")
  ]

  /** The instant of five digit fields of the given values, all in range. */
  lemma FieldsOfValues(yyyy: string, mm: string, dd: string, hh: string, mi: string, i: Instant)
    requires AllDigits(yyyy) && AllDigits(mm) && AllDigits(dd) && AllDigits(hh) && AllDigits(mi)
    requires DigitsValue(yyyy) == i.year && DigitsValue(mm) == i.month && DigitsValue(dd) == i.day
    requires DigitsValue(hh) == i.hour && DigitsValue(mi) == i.minute
    requires 1 <= i.month <= 12 && 1 <= i.day <= 31 && i.hour <= 23 && i.minute <= 59
    ensures FieldsInstant(yyyy, mm, dd, hh, mi) == Some(i)
  {
  }

  /** A meeting on DD/06/2025 at HH:MM, with two-digit day, hour and minute. */
  lemma JuneMeeting(m: Meeting, dd: string, hh: string, mi: string, i: Instant)
    requires |dd| == 2 && |hh| == 2 && |mi| == 2 && AllDigits(dd) && AllDigits(hh) && AllDigits(mi)
    requires m.date == dd + "/" + "06" + "/" + "2025" && m.time == hh + ":" + mi
    requires i.year == 2025 && i.month == 6
    requires i.day == 10 * DigitValue(dd[0]) + DigitValue(dd[1]) && 1 <= i.day <= 31
    requires i.hour == 10 * DigitValue(hh[0]) + DigitValue(hh[1]) && i.hour <= 23
    requires i.minute == 10 * DigitValue(mi[0]) + DigitValue(mi[1]) && i.minute <= 59
    ensures Key(m) == Some(i)
  {
    assert '/' !in dd by {
      assert IsDigit(dd[0]) && IsDigit(dd[1]);
    }
    assert '/' !in "06" && '/' !in "2025";
    KeyOfFields(m, dd, "06", "2025", hh, mi);
    assert AllDigits("06") && AllDigits("2025");
    assert DigitsValue("06") == 6 by {
      TwoDigitsValue("06");
    }
    assert DigitsValue("2025") == 2025 by {
      FourDigitsValue("2025");
    }
    TwoDigitsValue(dd);
    TwoDigitsValue(hh);
    TwoDigitsValue(mi);
    FieldsOfValues("2025", "06", dd, hh, mi, i);
  }

  lemma MeetingOneInstant()
    ensures Key(Meetings[0]) == Some(Instant(2025, 6, 20, 14, 0))
  {
    assert Meetings[0].date == "20" + "/" + "06" + "/" + "2025" && Meetings[0].time == "14" + ":" + "00";
    JuneMeeting(Meetings[0], "20", "14", "00", Instant(2025, 6, 20, 14, 0));
  }

  lemma MeetingTwoInstant()
    ensures Key(Meetings[1]) == Some(Instant(2025, 6, 25, 10, 0))
  {
    assert Meetings[1].date == "25" + "/" + "06" + "/" + "2025" && Meetings[1].time == "10" + ":" + "00";
    JuneMeeting(Meetings[1], "25", "10", "00", Instant(2025, 6, 25, 10, 0));
  }

  lemma MeetingThreeInstant()
    ensures Key(Meetings[2]) == Some(Instant(2025, 6, 30, 15, 30))
  {
    assert Meetings[2].date == "30" + "/" + "06" + "/" + "2025" && Meetings[2].time == "15" + ":" + "30";
    JuneMeeting(Meetings[2], "30", "15", "30", Instant(2025, 6, 30, 15, 30));
  }

  /** Three elements whose keys are increasing are keyed and sorted. */
  lemma ThreeInOrder<T>(ms: seq<T>, key: T -> Option<Instant>, a: Instant, b: Instant, c: Instant)
    requires |ms| == 3 && key(ms[0]) == Some(a) && key(ms[1]) == Some(b) && key(ms[2]) == Some(c)
    requires NotAfter(a, b) && NotAfter(b, c)
    ensures Keyed(ms, key) && SortedBy(ms, key)
  {
    NotAfterOrder(a, b, c);
  }

  /** The fixed meetings are on 20, 25 and 30 June 2025 at 14:00, 10:00 and
      15:30: every one has a valid instant, so the list can be sorted, and
      they are listed in chronological order already. */
  lemma MeetingsInstants()
    ensures AllTimed(Meetings) && Chronological(Meetings)
  {
    MeetingOneInstant();
    MeetingTwoInstant();
    MeetingThreeInstant();
    ThreeInOrder(Meetings, Key, Instant(2025, 6, 20, 14, 0), Instant(2025, 6, 25, 10, 0), Instant(2025, 6, 30, 15, 30));
  }
}
