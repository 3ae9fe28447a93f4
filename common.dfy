/** Value types shared by the patient model, the controller and the schema. */
module Common {

  /** A nullable value: None stands for C#'s null. */
  datatype Option<T> = None | Some(value: T)

  /** A calendar date (the date part of a .NET DateTime). */
  datatype Date = Date(year: int, month: int, day: int)

  /** A time of day (a .NET TimeSpan used as an hour of the day). */
  datatype Time = Time(hour: int, minute: int)

  /** A .NET DateTime to the minute. */
  datatype DateTime = DateTime(date: Date, time: Time)

  /** Minutes elapsed since midnight. */
  function MinuteOfDay(t: Time): int
  {
    t.hour * 60 + t.minute
  }
}
