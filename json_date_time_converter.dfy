/** `JsonDateTimeConverter`: dates in the JSON it reads and writes take the form
    `dd-MM-yyyy`. */
module JsonDateTimeConverter {
  import opened Wrappers
  import opened Dates

  /** The converter's `Format`. */
  const Separator := '-'

  /** A `DateTime`: a valid date plus the time of day, in ticks since midnight. */
  datatype DateTime = DateTime(date: Date, timeOfDay: nat)

  /** `Write`: `value.ToString("dd-MM-yyyy")`, which drops the time of day. */
  function Write(value: DateTime): (s: string)
    requires Valid(value.date)
    ensures HasDateShape(s, Separator)
  {
    FormatDate(value.date, Separator)
  }

  /** `Read`: `DateTime.ParseExact(text, "dd-MM-yyyy", null)`, midnight of the date read;
      a text of another shape or naming a non-existent date throws `FormatException`. */
  function Read(text: string): (r: Result<DateTime>)
    ensures r.Success? ==> Valid(r.value.date) && r.value.timeOfDay == 0 && HasDateShape(text, Separator)
  {
    match ParseDate(text, Separator)
    case Some(d) => Success(DateTime(d, 0))
    case None => Failure("String was not recognized as a valid DateTime.")
  }

  /** Reading what was written gives back the same day, at midnight. */
  lemma ReadWrite(value: DateTime)
    requires Valid(value.date)
    ensures Read(Write(value)) == Success(DateTime(value.date, 0))
  {
    ParseFormat(value.date, Separator);
  }

  /** Writing what was read gives back the same text: the format is canonical. */
  lemma WriteRead(text: string)
    requires Read(text).Success?
    ensures Write(Read(text).value) == text
  {
    FormatParse(text, Separator);
  }
}
