/** The four-step onboarding wizard: personal details, weekly goal, service
    area, platforms. */
module Onboarding {
  import opened Wrappers
  import opened Folds

  /** The wizard's form; every field is the raw text of its input. */
  datatype OnboardingData = OnboardingData(
    name: string,
    age: string,
    phone: string,
    weeklyGoal: string,
    hoursPerDay: string,
    area: string,
    platforms: seq<string>)

  const EmptyForm := OnboardingData("", "", "", "", "", "", [])

  /** The text fields the wizard's inputs write to. */
  datatype Field = Name | Age | Phone | WeeklyGoal | HoursPerDay | Area

  /** The text a field's input shows. */
  function FieldOf(f: OnboardingData, field: Field): string
  {
    match field
    case Name => f.name
    case Age => f.age
    case Phone => f.phone
    case WeeklyGoal => f.weeklyGoal
    case HoursPerDay => f.hoursPerDay
    case Area => f.area
  }

  /** `setFormData(prev => ({ ...prev, [field]: value }))`: the field reads
      back the value, and every other field and the platforms are kept. */
  function WithField(f: OnboardingData, field: Field, value: string): (r: OnboardingData)
    ensures FieldOf(r, field) == value
    ensures forall g :: g != field ==> FieldOf(r, g) == FieldOf(f, g)
    ensures r.platforms == f.platforms
  {
    match field
    case Name => f.(name := value)
    case Age => f.(age := value)
    case Phone => f.(phone := value)
    case WeeklyGoal => f.(weeklyGoal := value)
    case HoursPerDay => f.(hoursPerDay := value)
    case Area => f.(area := value)
  }

  /** `validateCurrentStep`: step 1 needs a name and a mobile number, step 2
      a weekly goal, step 3 an area; any other step passes. */
  predicate StepValid(step: int, f: OnboardingData): (ok: bool)
    ensures !(1 <= step <= 3) ==> ok
    ensures ok <==> (step == 1 ==> f.name != "" && f.phone != "") && (step == 2 ==> f.weeklyGoal != "") && (step == 3 ==> f.area != "")
  {
    if step == 1 then f.name != "" && f.phone != ""
    else if step == 2 then f.weeklyGoal != ""
    else if step == 3 then f.area != ""
    else true
  }

  /** `validateForm`: all required fields and at least one platform. The
      form is complete exactly when steps 1 to 3 each pass and a platform
      is chosen, and a complete form passes every step's check. */
  predicate FormValid(f: OnboardingData): (ok: bool)
    ensures ok <==> StepValid(1, f) && StepValid(2, f) && StepValid(3, f) && |f.platforms| > 0
    ensures ok ==> forall step :: StepValid(step, f)
  {
    f.name != "" && f.phone != "" && f.weeklyGoal != "" && f.area != "" && |f.platforms| > 0
  }

  /** Age and daily hours are never checked: whatever they hold, neither a
      step's check nor the whole form's changes. */
  lemma AgeAndHoursOptional(f: OnboardingData, age: string, hours: string)
    ensures FormValid(f.(age := age, hoursPerDay := hours)) == FormValid(f)
    ensures forall step :: StepValid(step, f.(age := age, hoursPerDay := hours)) == StepValid(step, f)
  {
  }

  function IsNot(p: string): string -> bool
  {
    (x: string) => x != p
  }

  /** `togglePlatform`: a selected platform is removed, any other is appended. */
  function Toggle(ps: seq<string>, p: string): (r: seq<string>)
    ensures forall x :: x in r <==> (x in ps) != (x == p)
    ensures p !in ps ==> r == ps + [p]
    ensures NoDup(ps) ==> NoDup(r)
  {
    if p in ps then
      var r := Filter(ps, IsNot(p));
      if NoDup(ps) then FilterNoDup(ps, IsNot(p)); r else r
    else
      ps + [p]
  }

  /** Filtering keeps a list free of duplicates. */
  lemma {:induction false} FilterNoDup(s: seq<string>, q: string -> bool)
    requires NoDup(s)
    ensures NoDup(Filter(s, q))
  {
    if s != [] {
      assert NoDup(s[1..]) by {
        forall i, j | 0 <= i < j < |s[1..]| ensures s[1..][i] != s[1..][j] {
          assert s[1..][i] == s[i + 1] && s[1..][j] == s[j + 1];
        }
      }
      FilterNoDup(s[1..], q);
      var rest := Filter(s[1..], q);
      if q(s[0]) {
        assert s[0] !in s[1..] by {
          forall j | 0 <= j < |s[1..]| ensures s[1..][j] != s[0] {
            assert s[1..][j] == s[j + 1];
          }
        }
        assert s[0] !in rest;
        var r := [s[0]] + rest;
        forall i, j | 0 <= i < j < |r| ensures r[i] != r[j] {
          if i == 0 {
            assert r[j] == rest[j - 1];
            assert r[j] in rest;
          } else {
            assert r[i] == rest[i - 1] && r[j] == rest[j - 1];
          }
        }
      }
    }
  }

  /** Ticking a platform twice leaves the selection it started from when it
      was not selected, and the same set of platforms in any case. */
  lemma ToggleTwice(ps: seq<string>, p: string)
    ensures p !in ps ==> Toggle(Toggle(ps, p), p) == ps
    ensures forall x :: x in Toggle(Toggle(ps, p), p) <==> x in ps
  {
    if p !in ps {
      assert p in ps + [p];
      FilterAppend(ps, [p], IsNot(p));
      assert [p][1..] == [];
      assert Filter([p], IsNot(p)) == [];
      assert forall x :: x in ps ==> IsNot(p)(x);
      FilterAll(ps, IsNot(p));
    }
  }

  /** The wizard: the current step and the form entered so far. */
  class Wizard {
    var step: int
    var form: OnboardingData

    predicate Valid()
      reads this
    {
      1 <= step <= 4
    }

    constructor ()
      ensures Valid() && step == 1 && form == EmptyForm
    {
      step, form := 1, EmptyForm;
    }

    /** An input's `onChange`. */
    method SetField(field: Field, value: string)
      modifies this`form
      ensures form == WithField(old(form), field, value)
    {
      form := WithField(form, field, value);
    }

    /** A platform checkbox's `onCheckedChange`. */
    method TogglePlatform(p: string)
      modifies this`form
      ensures form == old(form).(platforms := Toggle(old(form.platforms), p))
      ensures NoDup(old(form.platforms)) ==> NoDup(form.platforms)
    {
      form := form.(platforms := Toggle(form.platforms, p));
    }

    /** `handleNext`: below the last step, advance when the step's fields are
        filled; on the last step, hand the form on when it is complete. */
    method Next() returns (completed: Option<OnboardingData>)
      requires Valid()
      modifies this`step
      ensures Valid()
      ensures old(step) < 4 ==> completed == None && step == if StepValid(old(step), form) then old(step) + 1 else old(step)
      ensures old(step) == 4 ==> step == 4 && (completed.Some? <==> FormValid(form))
      ensures completed.Some? ==> completed.value == form && FormValid(form)
    {
      completed := None;
      if step < 4 {
        if StepValid(step, form) {
          step := step + 1;
        }
      } else if FormValid(form) {
        completed := Some(form);
      }
    }

    /** `handleBack`: one step back, never before the first. */
    method Back()
      requires Valid()
      modifies this`step
      ensures Valid()
      ensures step == if old(step) > 1 then old(step) - 1 else 1
    {
      if step > 1 {
        step := step - 1;
      }
    }
  }
}
