/** The daily-entry form: today's earnings, hours, main platform and a
    one-to-five satisfaction rating. */
module DailyForm {
  import opened Wrappers
  import opened Folds
  import opened Text

  /** The form; earnings and hours are the raw text of their inputs, a
      rating of 0 means no star was clicked. */
  datatype DailyData = DailyData(earnings: string, hours: string, primaryPlatform: string, rating: int, date: string)

  /** The text fields the form's inputs write to. */
  datatype Field = Earnings | Hours | PrimaryPlatform

  /** The gate of `handleSubmit`: every field filled and a star chosen. */
  predicate Submittable(d: DailyData): (ok: bool)
    ensures ok <==> |d.earnings| > 0 && |d.hours| > 0 && |d.primaryPlatform| > 0 && d.rating != 0
  {
    d.earnings != "" && d.hours != "" && d.primaryPlatform != "" && d.rating != 0
  }

  /** Whether the form can be sent never depends on its date, and without
      a chosen star it cannot be sent whatever the text fields hold. */
  lemma SubmitIgnoresDate(d: DailyData, date: string)
    ensures Submittable(d.(date := date)) == Submittable(d)
    ensures d.rating == 0 ==> !Submittable(d)
  {
  }

  /** The initial form: empty fields, no rating, and the date part of the
      current ISO timestamp, `toISOString().split('T')[0]`. */
  function InitialData(isoNow: string): (d: DailyData)
    ensures !Submittable(d)
    ensures d.date == DatePart(isoNow)
    ensures StartsWith(isoNow, d.date) && 'T' !in d.date
  {
    DailyData("", "", "", 0, DatePart(isoNow))
  }

  /** The date an ISO timestamp such as 2024-01-12T10:00:00.000Z gives. */
  lemma InitialDateExample()
    ensures InitialData("2024-01-12T10:00:00.000Z").date == "2024-01-12"
  {
    var s := "2024-01-12T10:00:00.000Z";
    var date := "2024-01-12";
    assert s == date + s[10..];
    assert forall i :: 0 <= i < 10 ==> s[i] == date[i] != 'T';
    DatePartUpTo(s, 10);
  }

  /** The stars drawn filled: those numbered at most the rating. */
  function FilledStars(rating: int): (n: nat)
    ensures 0 <= rating <= 5 ==> n == rating
    ensures rating < 0 ==> n == 0
    ensures rating > 5 ==> n == 5
  {
    var stars := [1, 2, 3, 4, 5];
    var filled := Filter(stars, AtMost(rating));
    StarCount(stars, rating);
    |filled|
  }

  function AtMost(rating: int): int -> bool
  {
    (star: int) => star <= rating
  }

  lemma StarCount(stars: seq<int>, rating: int)
    requires stars == [1, 2, 3, 4, 5]
    ensures |Filter(stars, AtMost(rating))| == if rating < 0 then 0 else if rating > 5 then 5 else rating
  {
    var q := AtMost(rating);
    var k := if rating < 0 then 0 else if rating > 5 then 5 else rating;
    assert forall i :: 0 <= i < 5 ==> stars[i] == i + 1;
    assert stars == stars[..k] + stars[k..];
    FilterAppend(stars[..k], stars[k..], q);
    assert forall x :: x in stars[..k] ==> q(x);
    FilterAll(stars[..k], q);
    assert forall x :: x in stars[k..] ==> !q(x);
    FilterNone(stars[k..], q);
  }

  /** The form component. */
  class DailyEntryForm {
    var data: DailyData

    /** The rating is 0 or one of the five stars. */
    predicate Valid()
      reads this
    {
      0 <= data.rating <= 5
    }

    constructor (isoNow: string)
      ensures Valid()
      ensures data == InitialData(isoNow)
    {
      data := InitialData(isoNow);
    }

    /** An input's `onChange` or the platform select's `onValueChange`. */
    method SetField(field: Field, value: string)
      requires Valid()
      modifies this
      ensures Valid()
      ensures data == match field
        case Earnings => old(data).(earnings := value)
        case Hours => old(data).(hours := value)
        case PrimaryPlatform => old(data).(primaryPlatform := value)
    {
      match field
      case Earnings => data := data.(earnings := value);
      case Hours => data := data.(hours := value);
      case PrimaryPlatform => data := data.(primaryPlatform := value);
    }

    /** `handleRatingClick`, reached from the five star buttons. */
    method RatingClick(star: int)
      requires 1 <= star <= 5
      modifies this
      ensures Valid() && FilledStars(data.rating) == star
      ensures data == old(data).(rating := star)
      ensures Submittable(data) <==> old(data).earnings != "" && old(data).hours != "" && old(data).primaryPlatform != ""
    {
      data := data.(rating := star);
    }

    /** `handleSubmit`: the form is handed on as it stands when every field is
        filled; otherwise nothing is handed on. The form is not cleared. */
    method Submit() returns (sent: Option<DailyData>)
      ensures sent.Some? <==> Submittable(data)
      ensures sent.Some? ==> sent.value == data
    {
      if data.earnings == "" || data.hours == "" || data.primaryPlatform == "" || data.rating == 0 {
        return None;
      }
      return Some(data);
    }
  }
}
