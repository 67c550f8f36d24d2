/** The reminder loop of `useReminders`: once a minute it compares every enabled
    medicine's schedule with the current `HH:MM`, dispatches each due slot once
    per day by remembering the key `id-time-day`, and then forgets every key
    that does not mention today's date. */
module Reminders {
  import opened Records
  import opened Text

  /** `${h padded}:${m padded}`: the current minute as the schedule stores it. */
  function CurrentTime(hour: nat, minute: nat): (r: string)
    ensures IsSuffix(PadStart(Decimal(minute), 2, '0'), r)
  {
    var h := PadStart(Decimal(hour), 2, '0');
    var m := PadStart(Decimal(minute), 2, '0');
    ConcatSuffix(h + ":", m);
    h + ":" + m
  }

  /** For a clock reading, the time string is five characters `HH:MM`, and
      different readings give different strings. */
  lemma CurrentTimeFormat(hour: nat, minute: nat)
    requires hour < 24 && minute < 60
    ensures |CurrentTime(hour, minute)| == 5
    ensures CurrentTime(hour, minute) == [Digit(hour / 10), Digit(hour % 10), ':', Digit(minute / 10), Digit(minute % 10)]
  {
    TwoDigits(hour);
    TwoDigits(minute);
  }

  lemma CurrentTimeInjective(h1: nat, m1: nat, h2: nat, m2: nat)
    requires h1 < 24 && m1 < 60 && h2 < 24 && m2 < 60
    requires CurrentTime(h1, m1) == CurrentTime(h2, m2)
    ensures h1 == h2 && m1 == m2
  {
    CurrentTimeFormat(h1, m1);
    CurrentTimeFormat(h2, m2);
    var s1, s2 := CurrentTime(h1, m1), CurrentTime(h2, m2);
    assert s1[0] == s2[0] && s1[1] == s2[1] && s1[3] == s2[3] && s1[4] == s2[4];
  }

  /** The de-duplication key of one slot on one day. */
  function ReminderKey(id: string, time: string, day: string): (k: string)
    ensures IsSuffix(day, k)
  {
    ConcatSuffix(id + "-" + time + "-", day);
    id + "-" + time + "-" + day
  }

  /** One call of `sendNotification(medicine, time)`. */
  datatype Reminder = Reminder(medicine: Medicine, time: string)

  function KeyOf(r: Reminder, day: string): string
  {
    ReminderKey(r.medicine.id, r.time, day)
  }

  /** A browser notification: its title, body text and tag. */
  datatype Notice = Notice(title: string, body: string, tag: string)

  /** The notice for a dispatch: its tag is the slot's key without the day, and
      its body names the medicine and, in parentheses at the end, its dosage. */
  function NoticeOf(r: Reminder): (n: Notice)
    ensures forall day :: KeyOf(r, day) == n.tag + "-" + day
    ensures IsPrefix("Time to take " + r.medicine.name + " (", n.body)
    ensures IsSuffix(r.medicine.dosage + ")", n.body)
  {
    var body := "Time to take " + r.medicine.name + " (" + r.medicine.dosage + ")";
    ConcatSuffix("Time to take " + r.medicine.name + " (", r.medicine.dosage + ")");
    assert body == ("Time to take " + r.medicine.name + " (") + (r.medicine.dosage + ")");
    assert body[..|"Time to take " + r.medicine.name + " ("|] == "Time to take " + r.medicine.name + " (";
    Notice("\U{1F48A} Medicine Reminder", body, r.medicine.id + "-" + r.time)
  }

  function NoticesOf(fired: seq<Reminder>): (ns: seq<Notice>)
    ensures |ns| == |fired|
    ensures forall i :: 0 <= i < |fired| ==> ns[i] == NoticeOf(fired[i])
  {
    if fired == [] then [] else NoticesOf(fired[..|fired| - 1]) + [NoticeOf(fired[|fired| - 1])]
  }

  lemma NoticesOfConcat(a: seq<Reminder>, b: seq<Reminder>)
    ensures NoticesOf(a + b) == NoticesOf(a) + NoticesOf(b)
  {
  }

  /** The set of remembered keys and the dispatches made so far in a tick. */
  datatype Scan = Scan(checked: set<string>, fired: seq<Reminder>)

  /** The inner `forEach` over one medicine's schedule, entry by entry. */
  function ScanSchedule(m: Medicine, times: seq<string>, now: string, day: string, seen: set<string>): Scan
    decreases |times|
  {
    if times == [] then Scan(seen, [])
    else
      var before := ScanSchedule(m, times[..|times| - 1], now, day, seen);
      var t := times[|times| - 1];
      var k := ReminderKey(m.id, t, day);
      if t == now && k !in before.checked then Scan(before.checked + {k}, before.fired + [Reminder(m, t)])
      else before
  }

  /** The outer `forEach` over the medicines; disabled ones are skipped. */
  function ScanAll(meds: seq<Medicine>, now: string, day: string, seen: set<string>): Scan
    decreases |meds|
  {
    if meds == [] then Scan(seen, [])
    else
      var before := ScanAll(meds[..|meds| - 1], now, day, seen);
      var m := meds[|meds| - 1];
      if !m.reminderEnabled then before
      else
        var inner := ScanSchedule(m, m.scheduleTimes, now, day, before.checked);
        Scan(inner.checked, before.fired + inner.fired)
  }

  /** One more schedule entry in `ScanSchedule`, as the loop takes it. */
  lemma ScanScheduleStep(m: Medicine, j: nat, now: string, day: string, seen: set<string>)
    requires j < |m.scheduleTimes|
    ensures var before := ScanSchedule(m, m.scheduleTimes[..j], now, day, seen);
            var t := m.scheduleTimes[j];
            var k := ReminderKey(m.id, t, day);
            ScanSchedule(m, m.scheduleTimes[..j + 1], now, day, seen)
              == if t == now && k !in before.checked then Scan(before.checked + {k}, before.fired + [Reminder(m, t)])
                 else before
  {
    assert m.scheduleTimes[..j + 1][..j] == m.scheduleTimes[..j];
  }

  /** One more medicine in `ScanAll`, as the loop takes it. */
  lemma ScanAllStep(meds: seq<Medicine>, i: nat, now: string, day: string, seen: set<string>)
    requires i < |meds|
    ensures var before := ScanAll(meds[..i], now, day, seen);
            ScanAll(meds[..i + 1], now, day, seen)
              == if !meds[i].reminderEnabled then before
                 else
                   var inner := ScanSchedule(meds[i], meds[i].scheduleTimes, now, day, before.checked);
                   Scan(inner.checked, before.fired + inner.fired)
  {
    assert meds[..i + 1][..i] == meds[..i];
  }

  /** The clean-up pass: only keys that contain today's date string survive. */
  function Evict(checked: set<string>, day: string): (r: set<string>)
    ensures forall k :: k in r <==> k in checked && Contains(k, day)
  {
    set k | k in checked && Contains(k, day)
  }

  /** One whole tick of `checkReminders`. */
  function Tick(checked: set<string>, meds: seq<Medicine>, now: string, day: string): Scan
  {
    var s := ScanAll(meds, now, day, checked);
    Scan(Evict(s.checked, day), s.fired)
  }

  /** A medicine takes part in this minute's tick. */
  predicate Due(m: Medicine, now: string)
  {
    m.reminderEnabled && now in m.scheduleTimes
  }

  /** The keys this minute's due slots use. */
  function DueKeys(meds: seq<Medicine>, now: string, day: string): set<string>
  {
    set m | m in meds && Due(m, now) :: ReminderKey(m.id, now, day)
  }

  function FiredKeys(fired: seq<Reminder>, day: string): set<string>
  {
    set r | r in fired :: KeyOf(r, day)
  }

  /** No two dispatches of a tick share a key. */
  predicate KeysDistinct(fired: seq<Reminder>, day: string)
  {
    forall i, j :: 0 <= i < j < |fired| ==> KeyOf(fired[i], day) != KeyOf(fired[j], day)
  }

  /** Within one medicine, only entries equal to `now` matter, and however often
      `now` is listed the slot is dispatched at most once. */
  lemma {:induction false} ScanScheduleEffect(m: Medicine, times: seq<string>, now: string, day: string, seen: set<string>)
    ensures ScanSchedule(m, times, now, day, seen).checked
         == seen + (if now in times then {ReminderKey(m.id, now, day)} else {})
    ensures ScanSchedule(m, times, now, day, seen).fired
         == if now in times && ReminderKey(m.id, now, day) !in seen then [Reminder(m, now)] else []
    decreases |times|
  {
    if times != [] {
      var init := times[..|times| - 1];
      ScanScheduleEffect(m, init, now, day, seen);
      assert times == init + [times[|times| - 1]];
      assert now in times <==> now in init || now == times[|times| - 1];
    }
  }

  lemma DueKeysSnoc(init: seq<Medicine>, m: Medicine, now: string, day: string)
    ensures DueKeys(init + [m], now, day)
         == DueKeys(init, now, day) + (if Due(m, now) then {ReminderKey(m.id, now, day)} else {})
  {
  }

  lemma FiredKeysConcat(a: seq<Reminder>, b: seq<Reminder>, day: string)
    ensures FiredKeys(a + b, day) == FiredKeys(a, day) + FiredKeys(b, day)
  {
  }

  lemma NoFiredKeysNoFired(fired: seq<Reminder>, day: string)
    ensures fired == [] <==> FiredKeys(fired, day) == {}
  {
    if fired != [] {
      assert KeyOf(fired[0], day) in FiredKeys(fired, day);
    }
  }

  /** A scan of all medicines adds exactly the keys of the due slots. */
  lemma {:induction false} ScanAllChecked(meds: seq<Medicine>, now: string, day: string, seen: set<string>)
    ensures ScanAll(meds, now, day, seen).checked == seen + DueKeys(meds, now, day)
    decreases |meds|
  {
    if meds != [] {
      var init := meds[..|meds| - 1];
      var m := meds[|meds| - 1];
      assert meds == init + [m];
      ScanAllChecked(init, now, day, seen);
      DueKeysSnoc(init, m, now, day);
      if m.reminderEnabled {
        ScanScheduleEffect(m, m.scheduleTimes, now, day, ScanAll(init, now, day, seen).checked);
      }
    }
  }

  /** A scan of all medicines dispatches exactly the due slots whose keys were
      not yet remembered. */
  lemma {:induction false} ScanAllFiredKeys(meds: seq<Medicine>, now: string, day: string, seen: set<string>)
    ensures FiredKeys(ScanAll(meds, now, day, seen).fired, day) == DueKeys(meds, now, day) - seen
    decreases |meds|
  {
    if meds != [] {
      var init := meds[..|meds| - 1];
      var m := meds[|meds| - 1];
      assert meds == init + [m];
      ScanAllFiredKeys(init, now, day, seen);
      ScanAllChecked(init, now, day, seen);
      DueKeysSnoc(init, m, now, day);
      var before := ScanAll(init, now, day, seen);
      if m.reminderEnabled {
        ScanScheduleEffect(m, m.scheduleTimes, now, day, before.checked);
        var inner := ScanSchedule(m, m.scheduleTimes, now, day, before.checked);
        FiredKeysConcat(before.fired, inner.fired, day);
        var k := ReminderKey(m.id, now, day);
        if inner.fired != [] {
          assert FiredKeys(inner.fired, day) == {k} by {
            assert inner.fired == [Reminder(m, now)];
            assert KeyOf(Reminder(m, now), day) == k;
          }
        } else {
          assert FiredKeys(inner.fired, day) == {};
        }
      }
    }
  }

  /** Each key is dispatched at most once per scan. */
  lemma {:induction false} ScanAllDistinct(meds: seq<Medicine>, now: string, day: string, seen: set<string>)
    ensures KeysDistinct(ScanAll(meds, now, day, seen).fired, day)
    decreases |meds|
  {
    if meds != [] {
      var init := meds[..|meds| - 1];
      var m := meds[|meds| - 1];
      ScanAllDistinct(init, now, day, seen);
      ScanAllFiredKeys(init, now, day, seen);
      ScanAllChecked(init, now, day, seen);
      var before := ScanAll(init, now, day, seen);
      if m.reminderEnabled {
        ScanScheduleEffect(m, m.scheduleTimes, now, day, before.checked);
        var inner := ScanSchedule(m, m.scheduleTimes, now, day, before.checked);
        var fired := before.fired + inner.fired;
        if inner.fired != [] {
          var k := ReminderKey(m.id, now, day);
          assert k !in DueKeys(init, now, day);
          assert k !in FiredKeys(before.fired, day);
          forall i | 0 <= i < |before.fired| ensures KeyOf(fired[i], day) != KeyOf(fired[|fired| - 1], day) {
            assert before.fired[i] in before.fired;
          }
        }
      }
    }
  }

  /** Every dispatch is for an enabled medicine of the list whose schedule lists `now`. */
  lemma {:induction false} ScanAllSound(meds: seq<Medicine>, now: string, day: string, seen: set<string>)
    ensures forall r :: r in ScanAll(meds, now, day, seen).fired ==>
              r.medicine in meds && Due(r.medicine, now) && r.time == now
    decreases |meds|
  {
    if meds != [] {
      var init := meds[..|meds| - 1];
      var m := meds[|meds| - 1];
      assert meds == init + [m];
      ScanAllSound(init, now, day, seen);
      if m.reminderEnabled {
        ScanScheduleEffect(m, m.scheduleTimes, now, day, ScanAll(init, now, day, seen).checked);
      }
    }
  }

  /** Both halves of what a scan of all medicines does. */
  lemma ScanAllEffect(meds: seq<Medicine>, now: string, day: string, seen: set<string>)
    ensures ScanAll(meds, now, day, seen).checked == seen + DueKeys(meds, now, day)
    ensures FiredKeys(ScanAll(meds, now, day, seen).fired, day) == DueKeys(meds, now, day) - seen
  {
    ScanAllChecked(meds, now, day, seen);
    ScanAllFiredKeys(meds, now, day, seen);
  }

  /** After a tick every remembered key mentions today; keys that did and were
      remembered before are kept, and so is every key this minute's due slots use. */
  lemma TickRetention(checked: set<string>, meds: seq<Medicine>, now: string, day: string)
    ensures forall k :: k in Tick(checked, meds, now, day).checked ==> Contains(k, day)
    ensures forall k :: k in checked && Contains(k, day) ==> k in Tick(checked, meds, now, day).checked
    ensures DueKeys(meds, now, day) <= Tick(checked, meds, now, day).checked
  {
    ScanAllEffect(meds, now, day, checked);
    forall k | k in DueKeys(meds, now, day) ensures Contains(k, day) {
      var m :| m in meds && Due(m, now) && k == ReminderKey(m.id, now, day);
      SuffixContained(k, day);
    }
  }

  /** A medicine whose reminders are off neither dispatches nor adds a key:
      the tick behaves as if it were not in the list. */
  lemma {:induction false} DisabledIgnored(meds: seq<Medicine>, i: nat, now: string, day: string, seen: set<string>)
    requires i < |meds| && !meds[i].reminderEnabled
    ensures ScanAll(meds, now, day, seen) == ScanAll(meds[..i] + meds[i + 1..], now, day, seen)
    decreases |meds|
  {
    var n := |meds|;
    if i == n - 1 {
      assert meds[..i] + meds[i + 1..] == meds[..n - 1];
    } else {
      var init := meds[..n - 1];
      DisabledIgnored(init, i, now, day, seen);
      var rest := meds[..i] + meds[i + 1..];
      assert rest[..|rest| - 1] == init[..i] + init[i + 1..];
      assert rest[|rest| - 1] == meds[n - 1];
    }
  }

  /** A second tick in the same minute of the same day dispatches nothing and
      leaves the remembered keys as the first tick left them. */
  lemma TickIdempotent(checked: set<string>, meds: seq<Medicine>, now: string, day: string)
    ensures var first := Tick(checked, meds, now, day);
            Tick(first.checked, meds, now, day) == Scan(first.checked, [])
  {
    var first := Tick(checked, meds, now, day);
    TickRetention(checked, meds, now, day);
    ScanAllEffect(meds, now, day, first.checked);
    var second := ScanAll(meds, now, day, first.checked);
    assert second.checked == first.checked;
    assert FiredKeys(second.fired, day) == {};
    NoFiredKeysNoFired(second.fired, day);
    assert Evict(first.checked, day) == first.checked;
  }

  /** Every remembered key ends with one of the date strings in `days`. */
  predicate KeysOfDays(checked: set<string>, days: set<string>)
  {
    forall k :: k in checked ==> exists d :: d in days && IsSuffix(d, k)
  }

  /** A tick on `day` keeps every remembered key a key of some day seen so far,
      `day` included; keys of earlier days that merely contain `day` may survive. */
  lemma TickKeepsDays(checked: set<string>, meds: seq<Medicine>, now: string, day: string, days: set<string>)
    requires KeysOfDays(checked, days)
    ensures KeysOfDays(Tick(checked, meds, now, day).checked, days + {day})
  {
    ScanAllEffect(meds, now, day, checked);
    forall k | k in Tick(checked, meds, now, day).checked
      ensures exists d :: d in days + {day} && IsSuffix(d, k)
    {
      if k !in checked {
        assert k in DueKeys(meds, now, day);
        var m :| m in meds && Due(m, now) && k == ReminderKey(m.id, now, day);
        assert day in days + {day} && IsSuffix(day, k);
      } else {
        var d :| d in days && IsSuffix(d, k);
        assert d in days + {day};
      }
    }
  }

  /** Every remembered key ends with the date string `day`. */
  predicate AllOfDay(checked: set<string>, day: string)
  {
    KeysOfDays(checked, {day})
  }

  /** Ticks during one day keep every remembered key a key of that day. */
  lemma TickKeepsDay(checked: set<string>, meds: seq<Medicine>, now: string, day: string)
    requires AllOfDay(checked, day)
    ensures AllOfDay(Tick(checked, meds, now, day).checked, day)
  {
    TickKeepsDays(checked, meds, now, day, {day});
    assert {day} + {day} == {day};
  }

  /** On a date string not seen before (all date strings having one length),
      no remembered key blocks a slot: every due slot is dispatched. */
  lemma NewDayRefires(checked: set<string>, meds: seq<Medicine>, now: string, days: set<string>, day: string)
    requires KeysOfDays(checked, days) && day !in days
    requires forall d :: d in days ==> |d| == |day|
    ensures FiredKeys(Tick(checked, meds, now, day).fired, day) == DueKeys(meds, now, day)
  {
    ScanAllEffect(meds, now, day, checked);
    forall k | k in DueKeys(meds, now, day) ensures k !in checked {
      if k in checked {
        var d :| d in days && IsSuffix(d, k);
        SameLengthSuffixes(k, d, day);
      }
    }
  }

  /** The inputs of one tick: the list, the current `HH:MM` and the date string. */
  datatype TickInput = TickInput(meds: seq<Medicine>, now: string, day: string)

  /** The remembered keys after a run of ticks from an empty set. */
  function RunTicks(ticks: seq<TickInput>): set<string>
    decreases |ticks|
  {
    if ticks == [] then {}
    else
      var t := ticks[|ticks| - 1];
      Tick(RunTicks(ticks[..|ticks| - 1]), t.meds, t.now, t.day).checked
  }

  function DaysOf(ticks: seq<TickInput>): set<string>
  {
    set t | t in ticks :: t.day
  }

  /** Over a whole session, every remembered key is a key of a day already ticked. */
  lemma {:induction false} RunTicksKeysOfDays(ticks: seq<TickInput>)
    ensures KeysOfDays(RunTicks(ticks), DaysOf(ticks))
    decreases |ticks|
  {
    if ticks != [] {
      var init := ticks[..|ticks| - 1];
      var t := ticks[|ticks| - 1];
      RunTicksKeysOfDays(init);
      TickKeepsDays(RunTicks(init), t.meds, t.now, t.day, DaysOf(init));
      assert ticks == init + [t];
      assert DaysOf(ticks) == DaysOf(init) + {t.day};
    }
  }

  /** However many days a session has run through, the first tick on a new
      date string (all of one length) dispatches every due slot. */
  lemma SessionNewDayRefires(ticks: seq<TickInput>, next: TickInput)
    requires next.day !in DaysOf(ticks)
    requires forall t :: t in ticks ==> |t.day| == |next.day|
    ensures FiredKeys(Tick(RunTicks(ticks), next.meds, next.now, next.day).fired, next.day)
              == DueKeys(next.meds, next.now, next.day)
  {
    RunTicksKeysOfDays(ticks);
    NewDayRefires(RunTicks(ticks), next.meds, next.now, DaysOf(ticks), next.day);
  }

  /** `Notification.permission`. */
  datatype Permission = Granted | Denied | Default

  /** The hook's state that outlives a tick: the permission flag and the key set. */
  class ReminderLoop {
    var permissionGranted: bool
    var checked: set<string>

    constructor ()
      ensures !permissionGranted && checked == {}
    {
      permissionGranted := false;
      checked := {};
    }

    /** `requestPermission`: `supported` says whether the browser has
        notifications, `current` is the permission before the call and
        `answer` what the prompt resolves to when one is shown. */
    method RequestPermission(supported: bool, current: Permission, answer: Permission)
      returns (granted: bool, prompted: bool)
      modifies this
      ensures prompted <==> supported && current == Default
      ensures granted <==> supported && (current == Granted || (current == Default && answer == Granted))
      ensures permissionGranted == if !supported || current == Denied then old(permissionGranted) else granted
      ensures checked == old(checked)
    {
      prompted := false;
      if !supported {
        return false, false;
      }
      if current == Granted {
        permissionGranted := true;
        return true, false;
      }
      if current != Denied {
        prompted := true;
        permissionGranted := answer == Granted;
        return permissionGranted, prompted;
      }
      return false, false;
    }

    /** `sendNotification`: nothing is shown without permission. */
    method SendNotification(r: Reminder) returns (shown: Option<Notice>)
      ensures shown == if permissionGranted then Some(NoticeOf(r)) else None
    {
      if !permissionGranted {
        return None;
      }
      shown := Some(NoticeOf(r));
    }

    /** The inner `forEach`: one medicine's schedule entries against `now`. */
    method CheckSchedule(m: Medicine, now: string, day: string) returns (fired: seq<Reminder>, shown: seq<Notice>)
      modifies this
      ensures Scan(checked, fired) == ScanSchedule(m, m.scheduleTimes, now, day, old(checked))
      ensures shown == if permissionGranted then NoticesOf(fired) else []
      ensures permissionGranted == old(permissionGranted)
    {
      fired, shown := [], [];
      var j := 0;
      while j < |m.scheduleTimes|
        invariant 0 <= j <= |m.scheduleTimes|
        invariant Scan(checked, fired) == ScanSchedule(m, m.scheduleTimes[..j], now, day, old(checked))
        invariant permissionGranted == old(permissionGranted)
        invariant permissionGranted ==> shown == NoticesOf(fired)
        invariant !permissionGranted ==> shown == []
      {
        var t := m.scheduleTimes[j];
        var key := ReminderKey(m.id, t, day);
        ScanScheduleStep(m, j, now, day, old(checked));
        if t == now && key !in checked {
          checked := checked + {key};
          var r := Reminder(m, t);
          var notice := SendNotification(r);
          fired := fired + [r];
          if notice.Some? {
            shown := shown + [notice.value];
          }
        }
        j := j + 1;
      }
      assert m.scheduleTimes[..j] == m.scheduleTimes;
    }

    /** The clean-up pass: collect the keys that do not mention `day`, then delete them. */
    method RemoveStaleKeys(day: string)
      modifies this
      ensures checked == Evict(old(checked), day)
      ensures permissionGranted == old(permissionGranted)
    {
      var keysToRemove: seq<string> := [];
      var pending := checked;
      while pending != {}
        invariant pending <= checked == old(checked)
        invariant forall k :: k in keysToRemove <==> k in checked - pending && !Contains(k, day)
        decreases pending
      {
        var k :| k in pending;
        if !Contains(k, day) {
          keysToRemove := keysToRemove + [k];
        }
        pending := pending - {k};
      }
      var n := 0;
      while n < |keysToRemove|
        invariant 0 <= n <= |keysToRemove|
        invariant forall k :: k in checked <==> k in old(checked) && k !in keysToRemove[..n]
        invariant permissionGranted == old(permissionGranted)
      {
        checked := checked - {keysToRemove[n]};
        assert keysToRemove[..n + 1] == keysToRemove[..n] + [keysToRemove[n]];
        n := n + 1;
      }
      assert keysToRemove[..n] == keysToRemove;
    }

    /** The outer `forEach`: every enabled medicine's schedule against `now`. */
    method CheckMedicines(medicines: seq<Medicine>, now: string, day: string)
      returns (fired: seq<Reminder>, shown: seq<Notice>)
      modifies this
      ensures Scan(checked, fired) == ScanAll(medicines, now, day, old(checked))
      ensures shown == if permissionGranted then NoticesOf(fired) else []
      ensures permissionGranted == old(permissionGranted)
    {
      fired, shown := [], [];
      var i := 0;
      while i < |medicines|
        invariant 0 <= i <= |medicines|
        invariant Scan(checked, fired) == ScanAll(medicines[..i], now, day, old(checked))
        invariant permissionGranted == old(permissionGranted)
        invariant permissionGranted ==> shown == NoticesOf(fired)
        invariant !permissionGranted ==> shown == []
      {
        var m := medicines[i];
        ScanAllStep(medicines, i, now, day, old(checked));
        if m.reminderEnabled {
          var more, moreShown := CheckSchedule(m, now, day);
          NoticesOfConcat(fired, more);
          fired, shown := fired + more, shown + moreShown;
        }
        i := i + 1;
      }
      assert medicines[..i] == medicines;
    }

    /** `checkReminders` at clock reading `hour:minute` on the day whose date
        string is `day`: the dispatches in order and the notices shown. */
    method CheckReminders(medicines: seq<Medicine>, hour: nat, minute: nat, day: string)
      returns (fired: seq<Reminder>, shown: seq<Notice>)
      modifies this
      ensures Scan(checked, fired) == Tick(old(checked), medicines, CurrentTime(hour, minute), day)
      ensures shown == if permissionGranted then NoticesOf(fired) else []
      ensures permissionGranted == old(permissionGranted)
    {
      fired, shown := CheckMedicines(medicines, CurrentTime(hour, minute), day);
      RemoveStaleKeys(day);
    }
  }
}
