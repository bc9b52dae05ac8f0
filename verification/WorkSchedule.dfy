/** app/services/work_schedule_service.py: the schedule table, and what a history of registrations leaves in it. */
module WorkSchedule {
  import opened PyInt
  import opened ScheduleSlots

  type Key = (int, int)  // user id, day number

  datatype Row = Row(mask: int, template: ShiftTemplate)

  datatype Shift = Shift(user: int, day: int, template: ShiftTemplate)

  /** The row, or the fully free one created when it is missing. */
  function GetOrCreate(rows: map<Key, Row>, key: Key): Row {
    if key in rows then rows[key] else Row(FULL_AVAILABLE_MASK, Off)
  }

  /** A missing row counts as a free day. */
  function MaskOn(rows: map<Key, Row>, user: int, day: int): int {
    GetOrCreate(rows, (user, day)).mask
  }

  function Register(rows: map<Key, Row>, shift: Shift): map<Key, Row> {
    var (today, next) := TemplateMasks(shift.template);
    WriteMasks(rows, shift, today, next)
  }

  /** The day's row is overwritten; the next day's is narrowed, unless there is nothing to clear. */
  function WriteMasks(rows: map<Key, Row>, shift: Shift, today: int, next: int): map<Key, Row> {
    var written := rows[(shift.user, shift.day) := Row(today, shift.template)];
    if next == FULL_AVAILABLE_MASK then written
    else
      var tomorrow := (shift.user, shift.day + 1);
      var row := GetOrCreate(written, tomorrow);
      written[tomorrow := row.(mask := And(row.mask, next))]
  }

  predicate InShift(template: ShiftTemplate, slot: nat) {
    match template
    case Day => 14 <= slot < 30
    case Evening => 30 <= slot < 46
    case Night => 46 <= slot < 48
    case Off => false
  }

  /** The mask shows a template, together with the end of the previous day's night shift when `tail` is set. */
  ghost predicate HasShape(mask: int, template: ShiftTemplate, tail: bool) {
    forall i: nat :: Bit(mask, i) == (i < SLOT_COUNT && !InShift(template, i) && !(tail && i < 14))
  }

  ghost predicate Shaped(mask: int) {
    exists template, tail :: HasShape(mask, template, tail)
  }

  lemma FullShape()
    ensures HasShape(FULL_AVAILABLE_MASK, Off, false)
  {
    forall i: nat ensures Bit(FULL_AVAILABLE_MASK, i) == (i < SLOT_COUNT) { BitOfOnes(SLOT_COUNT, i); }
  }

  /** What `template_masks` means: its own day shows the template, only a night reaches into the next day. */
  lemma TemplateShape(template: ShiftTemplate)
    ensures HasShape(TemplateMasks(template).0, template, false)
    ensures TemplateMasks(template).1 != FULL_AVAILABLE_MASK <==> template == Night
    ensures template == Night ==> HasShape(TemplateMasks(template).1, Off, true)
  {
    FullShape();
    forall i: nat
      ensures Bit(RangeMask(14, 30), i) == (i < SLOT_COUNT && !InShift(Day, i))
      ensures Bit(RangeMask(30, 46), i) == (i < SLOT_COUNT && !InShift(Evening, i))
      ensures Bit(RangeMask(46, 48), i) == (i < SLOT_COUNT && !InShift(Night, i))
      ensures Bit(RangeMask(0, 14), i) == (i < SLOT_COUNT && !(i < 14))
    {
      BitOfRangeMask(14, 30, i);
      BitOfRangeMask(30, 46, i);
      BitOfRangeMask(46, 48, i);
      BitOfRangeMask(0, 14, i);
    }
    assert Bit(FULL_AVAILABLE_MASK, 0) && !Bit(RangeMask(0, 14), 0);
  }

  lemma TailShape(mask: int, template: ShiftTemplate, tail: bool, next: int)
    requires HasShape(mask, template, tail) && HasShape(next, Off, true)
    ensures HasShape(And(mask, next), template, true)
  {
    forall i: nat
      ensures Bit(And(mask, next), i) == (i < SLOT_COUNT && !InShift(template, i) && !(i < 14))
    {
      BitOfAnd(mask, next, i);
    }
  }

  /** No day can show more than 30 busy slots in a row: a night's tail followed by a day shift. */
  lemma LongestBusyRun(mask: int, start: nat, end: nat)
    requires Shaped(mask)
    requires start <= end <= SLOT_COUNT && BusyThroughout(mask, start, end)
    ensures end - start <= 30
  {
    var template, tail :| HasShape(mask, template, tail);
    if start < end {
      assert !Bit(mask, start) && !Bit(mask, end - 1);
      assert start <= 14 < end ==> !Bit(mask, 14);
      assert start <= 30 < end ==> !Bit(mask, 30);
    }
  }

  lemma TemplateShaped(template: ShiftTemplate)
    ensures Shaped(TemplateMasks(template).0) && Shaped(FULL_AVAILABLE_MASK)
  {
    TemplateShape(template);
    FullShape();
  }

  lemma TailShaped(mask: int, next: int)
    requires Shaped(mask) && HasShape(next, Off, true)
    ensures Shaped(And(mask, next))
  {
    var template, tail :| HasShape(mask, template, tail);
    TailShape(mask, template, tail, next);
  }

  ghost predicate AllShaped(rows: map<Key, Row>) {
    forall key :: key in rows ==> Shaped(rows[key].mask)
  }

  lemma WriteShaped(rows: map<Key, Row>, key: Key, row: Row)
    requires AllShaped(rows) && Shaped(row.mask)
    ensures AllShaped(rows[key := row])
  {}

  lemma TailWriteShaped(rows: map<Key, Row>, key: Key, next: int)
    requires AllShaped(rows) && HasShape(next, Off, true)
    ensures var row := GetOrCreate(rows, key); AllShaped(rows[key := row.(mask := And(row.mask, next))])
  {
    TemplateShaped(Off);
    var row := GetOrCreate(rows, key);
    TailShaped(row.mask, next);
    WriteShaped(rows, key, row.(mask := And(row.mask, next)));
  }

  lemma WriteMasksShaped(rows: map<Key, Row>, shift: Shift, today: int, next: int)
    requires AllShaped(rows) && Shaped(today)
    requires next != FULL_AVAILABLE_MASK ==> HasShape(next, Off, true)
    ensures AllShaped(WriteMasks(rows, shift, today, next))
  {
    WriteShaped(rows, (shift.user, shift.day), Row(today, shift.template));
    if next != FULL_AVAILABLE_MASK {
      TailWriteShaped(rows[(shift.user, shift.day) := Row(today, shift.template)], (shift.user, shift.day + 1), next);
    }
  }

  lemma RegisterKeepsShapes(rows: map<Key, Row>, shift: Shift)
    requires AllShaped(rows)
    ensures AllShaped(Register(rows, shift))
  {
    TemplateShaped(shift.template);
    TemplateShape(shift.template);
    WriteMasksShaped(rows, shift, TemplateMasks(shift.template).0, TemplateMasks(shift.template).1);
  }

  // ------------------------------------------------------------------ histories of registrations

  function Replay(log: seq<Shift>): map<Key, Row> {
    if log == [] then map[] else Register(Replay(log[..|log| - 1]), log[|log| - 1])
  }

  predicate On(shift: Shift, user: int, day: int) { shift.user == user && shift.day == day }

  /** Index of the last registration for that day, or -1. */
  function LastIndex(log: seq<Shift>, user: int, day: int): (k: int)
    ensures -1 <= k < |log|
    ensures k >= 0 ==> On(log[k], user, day)
    ensures forall j :: k < j < |log| ==> !On(log[j], user, day)
  {
    if log == [] then -1
    else if On(log[|log| - 1], user, day) then |log| - 1
    else LastIndex(log[..|log| - 1], user, day)
  }

  function LastTemplate(log: seq<Shift>, user: int, day: int): ShiftTemplate {
    var k := LastIndex(log, user, day); if k < 0 then Off else log[k].template
  }

  /** A night was registered for the day before, after the last registration for the day itself. */
  predicate NightSince(log: seq<Shift>, user: int, day: int) {
    exists j :: LastIndex(log, user, day) < j < |log| && On(log[j], user, day - 1) && log[j].template == Night
  }

  lemma {:induction false} HistoryDecidesMask(log: seq<Shift>, user: int, day: int)
    ensures HasShape(MaskOn(Replay(log), user, day), LastTemplate(log, user, day), NightSince(log, user, day))
    ensures (user, day) in Replay(log) <==> LastIndex(log, user, day) >= 0 || NightSince(log, user, day)
    ensures (user, day) in Replay(log) ==> Replay(log)[(user, day)].template == LastTemplate(log, user, day)
  {
    FullShape();
    if log == [] {
    } else {
      var before, shift := log[..|log| - 1], log[|log| - 1];
      HistoryDecidesMask(before, user, day);
      TemplateShape(shift.template);
      if On(shift, user, day) {
        assert LastIndex(log, user, day) == |log| - 1;
      } else {
        assert LastIndex(log, user, day) == LastIndex(before, user, day);
        if On(shift, user, day - 1) && shift.template == Night {
          assert On(log[|log| - 1], user, day - 1);
          TailShape(MaskOn(Replay(before), user, day), LastTemplate(before, user, day),
                    NightSince(before, user, day), TemplateMasks(Night).1);
        } else {
          NightSinceUnchanged(log, user, day);
        }
      }
    }
  }

  lemma NightSinceUnchanged(log: seq<Shift>, user: int, day: int)
    requires log != [] && !On(log[|log| - 1], user, day)
    requires !(On(log[|log| - 1], user, day - 1) && log[|log| - 1].template == Night)
    ensures NightSince(log, user, day) == NightSince(log[..|log| - 1], user, day)
  {
    var before := log[..|log| - 1];
    if NightSince(before, user, day) {
      var j :| LastIndex(before, user, day) < j < |before|
               && On(before[j], user, day - 1) && before[j].template == Night;
      assert On(log[j], user, day - 1);
    }
    if NightSince(log, user, day) {
      var j :| LastIndex(log, user, day) < j < |log| && On(log[j], user, day - 1) && log[j].template == Night;
      assert On(before[j], user, day - 1);
    }
  }
}
