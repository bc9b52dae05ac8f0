/** app/services/work_schedule_service.py, updating the schedule table in place. */
module WorkSchedules {
  import opened PyInt
  import opened ScheduleSlots
  import opened CareModel
  import opened CareDatabase
  import WorkSchedule

  class WorkScheduleService {
    const db: Database

    constructor (db: Database)
      ensures this.db == db
    {
      this.db := db;
    }

    /** `_get_or_create` */
    method GetOrCreate(key: WorkSchedule.Key) returns (row: WorkSchedule.Row)
      modifies db`schedules
      ensures row == WorkSchedule.GetOrCreate(old(db.schedules), key)
      ensures db.schedules == old(db.schedules)[key := row]
    {
      if key !in db.schedules {
        db.schedules := db.schedules[key := WorkSchedule.Row(FULL_AVAILABLE_MASK, Off)];
      }
      row := db.schedules[key];
    }

    /** Overwrites the day's row and, unless there is nothing to clear, narrows the next day's. */
    method Write(shift: WorkSchedule.Shift, today: int, next: int)
      modifies db`schedules
      ensures db.schedules == WorkSchedule.WriteMasks(old(db.schedules), shift, today, next)
    {
      var key := (shift.user, shift.day);
      var row := GetOrCreate(key);
      row := row.(mask := today);
      row := row.(template := shift.template);
      db.schedules := db.schedules[key := row];
      if next != FULL_AVAILABLE_MASK {
        var tomorrow := (shift.user, shift.day + 1);
        row := GetOrCreate(tomorrow);
        db.schedules := db.schedules[tomorrow := row.(mask := And(row.mask, next))];
      }
    }

    method RegisterShift(shift: WorkSchedule.Shift)
      modifies db`schedules
      ensures db.Snapshot() == CareModel.RegisterShift(old(db.Snapshot()), shift).state
    {
      var (today, next) := TemplateMasks(shift.template);
      Write(shift, today, next);
    }
  }
}
