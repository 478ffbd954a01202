# Rider Co-pilot — a Dafny model

Rider Co-pilot is a single-page web app for delivery riders in HSR Layout,
Bengaluru. A rider enters what they earned each day and on which platform
(Zomato, Swiggy, Blinkit, …). The app then shows:

- progress towards a weekly income goal;
- averages;
- the best-paying platform.

An operator sees the whole fleet and can send riders recommendations.

This project models the logic inside that app and proves what it promises:

- **Activity aggregation** (`Activities`, `Fleet`, `Dashboard`, `AdminPanel`):
  - the Sunday-midnight week window;
  - weekly sums and means of earnings, hours and ratings;
  - the per-rider fleet summaries and the fleet rollup with its "active in the last three days" count;
  - the dashboard's derived figures, including the per-platform grouping and the top platform, whose ties go to the platform that appeared first.
- **Device session** (`DeviceSession`): the two local-storage slots, as a class.
  - A device id is created once.
  - A session record is stamped with that id and the time of writing.
  - Absent or corrupt records read as nothing.
  - Records older than 30 days are purged.
- **The UI state machines around them**:
  - the onboarding wizard (`Onboarding`);
  - the daily-entry form (`DailyForm`);
  - the operator's recommendation form (`AdminPanel`);
  - the page's view and rider-record transitions (`IndexPage`);
  - phone sign-in with a one-time code (`AuthFlow`).

Shared pieces:

- `Folds` holds the generic `filter`, `reduce`, mean, `slice(-n)` and `reverse` operations.
- `Text` holds the character filters and `split('T')[0]`.
- `Time` holds integer-millisecond time with day numbers and weekdays.
- `Rider` holds the in-memory rider record.
- `Wrappers` holds `Option` and `Result`.

Modelling conventions:

- Time is an integer count of milliseconds on the device's local timeline. Day 0 is a Thursday.
- Earnings and ratings are integers. Hours and all averages are reals.
- The clock, the fingerprint string behind the device id, and each database or identity-service answer are parameters.
- Methods that change state take the service's reply as an argument; nothing is fetched.

## Model

| member | source | states |
|---|---|---|
| Time.WeekStart | src/hooks/useDailyActivities.ts:67-69 | the week start is a midnight, falls on a Sunday, is not after `now`, and lies less than seven days before it |
| Time.WeekStartIsLatestSunday | src/hooks/useDailyActivities.ts:67-69 | no later Sunday midnight lies at or before `now`: the week starts at the most recent one |
| Time.Midnight | src/hooks/useDailyActivities.ts:69 | `setHours(0,0,0,0)` gives a day boundary at or before `t` and less than a day before it |
| Time.ThreeDaysBefore | src/hooks/useAdminData.ts:107-108 | the cutoff falls on the day three days back, at the same time of day as `now` |
| Activities.ThisWeek | src/hooks/useDailyActivities.ts:71-73 | the weekly rows are exactly the rows dated on or after the week start, and there are no more of them than rows |
| Activities.GetWeeklyStats | src/hooks/useDailyActivities.ts:66-94 | the result carries the weekly rows; the earnings and hours are their sums; `daysWorked` is their count, at most the row count; the mean rating times the count is the rating sum; with no weekly rows, earnings, hours and the mean are all 0 |
| Activities.WeeklyStatsIgnoreOlderRows | src/hooks/useDailyActivities.ts:71-77 | rows older than the week start contribute nothing to the weekly rows, the earnings or the day count |
| Activities.WeekBoundary | src/hooks/useDailyActivities.ts:72 | a row at exactly Sunday midnight counts; one a minute earlier does not |
| Activities.WeeklyRatingInRange | src/hooks/useDailyActivities.ts:83-85 | with ratings in 1..5 and at least one weekly row, the mean rating is in [1, 5] |
| Activities.WeeklyStatsExample | src/hooks/useDailyActivities.ts:75-93 | two weekly rows of 650 and 580 give 1230 earned, 15.5 hours, a 3.5 mean rating and 2 days |
| Activities.AddedRowCountsThisWeek | src/hooks/useDailyActivities.ts:59 | a row prepended with a date in this week adds its earnings and one day to the weekly figures |
| Activities.InsertFor | src/hooks/useDailyActivities.ts:45-52 | the insert carries the rider id and the input's earnings, hours, platform and rating unchanged, with no range checks; a missing date becomes today's midnight |
| Activities.ActivityLog.FetchActivities | src/hooks/useDailyActivities.ts:13-31 | without a rider id nothing changes; otherwise the fetched rows replace the list, or the error is recorded and the list kept; loading ends false |
| Activities.ActivityLog.AddActivity | src/hooks/useDailyActivities.ts:33-64 | without a rider id it fails with "No rider profile ID" and the list is unchanged; otherwise the stored row is prepended to the unchanged list, and a store failure leaves the list as it was |
| Activities.ActivityLog.WeeklyStatsNow | src/hooks/useDailyActivities.ts:66-94 | the weekly statistics of the hook's current list, as `GetWeeklyStats` gives them: its rows dated in this week, no more days than rows |
| Fleet.WithStats | src/hooks/useAdminData.ts:47-90 | for each profile: the rider's rows are exactly those with its id; `currentEarnings` is the weekly total of those rows; hours and rating are lifetime means (0 with no rows); `lastActive` is the first row's date, or the profile's creation day with no rows |
| Fleet.ProcessRiders | src/hooks/useAdminData.ts:47-78 | one rider per profile, in profile order; rider i is profile i with the statistics `WithStats` states, over exactly its own rows |
| Fleet.LastActiveIsLatest | src/hooks/useAdminData.ts:77-80 | when the rows are date-descending, no row of the rider is later than `lastActive` |
| Fleet.FilterKeepsDescending | src/hooks/useAdminData.ts:48-50 | filtering a date-descending list keeps it date-descending |
| Fleet.OlderRowDoesNotCount | src/hooks/useAdminData.ts:57-63 | inserting a row dated before the week start anywhere does not change the rider's `currentEarnings` |
| Fleet.ActiveRiders | src/hooks/useAdminData.ts:107-113 | the active count is at most the number of riders and 0 with none |
| Fleet.ActiveRidersSnoc | src/hooks/useAdminData.ts:107-113 | one more rider adds one to the count exactly when last active strictly after `now` minus three days |
| Fleet.ActiveBoundary | src/hooks/useAdminData.ts:107-113 | a rider last active exactly three days before `now` is not counted; one millisecond later is |
| Fleet.ActiveRidersNonIncreasing | src/hooks/useAdminData.ts:107-113 | for a fixed rider list, the active count never grows as time passes |
| Fleet.ActiveWindowInHours | src/hooks/useAdminData.ts:110-112 | last active 71 hours ago counts as active; 73 hours ago does not |
| Fleet.RiderStats | src/hooks/useAdminData.ts:100-121 | `totalRiders` is the rider count and bounds `activeRiders`, which is the active count; `totalEarnings` is the sum of the riders' weekly earnings; the mean satisfaction times the count is the satisfaction sum; no riders gives all zeros |
| Fleet.Summaries | src/hooks/useAdminData.ts:82-89 | the summary list matches the riders one to one, carrying id, earnings, last-active time and rating |
| Fleet.AdminData.FetchRiders | src/hooks/useAdminData.ts:21-98 | a profile error is recorded and the riders kept; no profiles gives no riders; an activities error is recorded; otherwise the riders are the processed profiles; loading ends false |
| Fleet.AdminData.GetRiderStats | src/hooks/useAdminData.ts:100-121 | the rollup over the hook's riders: their count bounds the active count, which is the active count of their summaries; the earnings are the sum over the summaries; the mean satisfaction times the count is the satisfaction sum; no riders gives all zeros |
| Dashboard.ProgressPercentage | src/components/RiderDashboard.tsx:52 | never above 100; for a positive goal it is 100 exactly when the goal is reached, and current/goal·100 below that; a zero goal with positive earnings gives 100 (`Math.min(Infinity, 100)`) |
| Dashboard.RemainingAmount | src/components/RiderDashboard.tsx:53 | never negative; 0 exactly when the goal is reached; otherwise it is what is missing to the goal |
| Dashboard.GoalReached | src/components/RiderDashboard.tsx:52-53 | for a positive goal, nothing remains exactly when progress shows 100; with a zero goal, any positive earnings leave nothing and show 100 |
| Dashboard.ThisWeekData | src/components/RiderDashboard.tsx:55 | the last min(7, n) entries, in order |
| Dashboard.TodayData | src/components/RiderDashboard.tsx:56 | the last entry, and absent exactly when there are no entries |
| Dashboard.AverageDailyEarnings | src/components/RiderDashboard.tsx:57-59 | the mean of the last seven entries' earnings; 0 with no entries |
| Dashboard.RecentActivity | src/components/RiderDashboard.tsx:222 | at most five entries: min(5, n) of them |
| Dashboard.RecentActivityNewestFirst | src/components/RiderDashboard.tsx:222 | the i-th shown entry is the i-th newest |
| Dashboard.LatestRecommendations | src/components/RiderDashboard.tsx:270 | the last min(3, n) recommendations, in order |
| Dashboard.UnreadRecommendations | src/components/RiderDashboard.tsx:68 | at most the number of recommendations, and 0 when all are delivered |
| Dashboard.UndeliveredAddsOne | src/components/RiderDashboard.tsx:68 | appending an undelivered recommendation raises the unread count by one |
| Dashboard.DeliveredAddsNoUnread | src/components/RiderDashboard.tsx:68 | appending a delivered recommendation leaves the unread count unchanged |
| Dashboard.DashboardUrgencyBadge | src/components/RiderDashboard.tsx:70-77 | only "high" is drawn destructive; nothing is drawn as outline |
| Dashboard.PlatformStats | src/components/RiderDashboard.tsx:61-64 | the keys are exactly the platforms that occur |
| Dashboard.PlatformStatsTotals | src/components/RiderDashboard.tsx:61-64 | each platform's value is the sum of the earnings of its entries |
| Dashboard.PlatformStatsAddUp | src/components/RiderDashboard.tsx:61-64 | the grouped values, added in key order, give the total earnings |
| Dashboard.PlatformOrder | src/components/RiderDashboard.tsx:61-66 | the key order lists each occurring platform exactly once |
| Dashboard.PlatformOrderPrefix | src/components/RiderDashboard.tsx:61-64 | later entries never reorder the platforms already seen |
| Dashboard.TopPlatform | src/components/RiderDashboard.tsx:66 | absent exactly when there are no entries |
| Dashboard.TopPlatformIsMax | src/components/RiderDashboard.tsx:66 | the top platform occurs, carries its total, has a total no other platform exceeds, and comes before every other platform with the same total |
| Dashboard.TieGoesToFirstAppearance | src/components/RiderDashboard.tsx:66 | when another platform used at position k ties with the top, the top was already used before k |
| AdminPanel.PanelOverview | src/components/AdminPanel.tsx:66-75 | the total is the sum of the riders' weekly earnings; the active count is `ActiveRiders`, at most the rider count; the mean satisfaction times the count is the sum; no riders gives zeros |
| AdminPanel.PanelOverviewAgreesWithRiderStats | src/components/AdminPanel.tsx:66-75 | the panel's own figures equal those of the fleet rollup |
| AdminPanel.ProgressColor | src/components/AdminPanel.tsx:113-118 | for a positive goal: earnings colour exactly at 80% or more, destructive exactly below 50%; for a zero goal: earnings colour exactly for positive earnings, never the warning colour |
| AdminPanel.ProgressColorMonotone | src/components/AdminPanel.tsx:113-118 | more earnings towards the same goal never give a lower colour |
| AdminPanel.UrgencyColor | src/components/AdminPanel.tsx:104-111 | "high" gives destructive, "medium" gives secondary, anything else outline |
| AdminPanel.RecentRecommendations | src/components/AdminPanel.tsx:405 | the last min(10, n) recommendations, newest first |
| AdminPanel.RecommendationForm.Submit | src/components/AdminPanel.tsx:77-102 | a form missing the rider or the message is refused and left unchanged; a complete one is handed on exactly and the form resets to ("", "", medium) |
| DeviceSession.GenerateDeviceId | src/utils/deviceSession.ts:15-17 | only [A-Za-z0-9] characters, at most 32; the first min(32, k) of the k alphanumerics kept |
| DeviceSession.GenerateKeepsShortAlnum | src/utils/deviceSession.ts:15-17 | an encoding of at most 32 alphanumerics is used unchanged |
| DeviceSession.Stamp | src/utils/deviceSession.ts:32-36 | the stamped record has the data's keys plus deviceId and timestamp; the two stamps win over same-named fields; all other fields are kept |
| DeviceSession.AsNumber | src/utils/deviceSession.ts:51 | the comparison converts a number to itself, a decimal-numeral string to its value, other text to `NaN`, and `null`, `false` and the empty string to 0 |
| DeviceSession.TimestampCoercion | src/utils/deviceSession.ts:50-54 | a record whose timestamp is the text "0" or `null` is purged once 30 days have passed since the epoch; one whose timestamp is other text is never purged |
| DeviceSession.StampExpiry | src/utils/deviceSession.ts:50-51 | a stamped record is expired exactly when written more than 30 days ago; one exactly 30 days old is not |
| DeviceSession.IsValidMobile | src/utils/deviceSession.ts:66-69 | a valid mobile number has ten characters and digit sanitising leaves it unchanged, and conversely |
| DeviceSession.ValidMobileRefusesPrefix | src/utils/deviceSession.ts:66-69 | a number starting with '+' or any other non-digit is refused |
| DeviceSession.Storage.GetDeviceId | src/utils/deviceSession.ts:20-29 | a stored id is returned and storage untouched; only without one is an id generated and stored |
| DeviceSession.Storage.SetSession | src/utils/deviceSession.ts:31-39 | the session slot holds the data stamped with the device id and the time; the id slot changes only if it was empty |
| DeviceSession.Storage.GetSession | src/utils/deviceSession.ts:41-60 | absent or corrupt gives null with nothing changed; an expired record is purged and gives null; otherwise the record is returned and kept |
| DeviceSession.Storage.ClearSession | src/utils/deviceSession.ts:62-64 | the session slot is emptied and the device id left alone |
| DeviceSession.Storage.WriteThenRead | src/utils/deviceSession.ts:31-56 | writing and reading back within 30 days returns the record just written |
| Onboarding.StepValid | src/components/RiderOnboarding.tsx:77-111 | step 1 passes exactly with a name and a phone, step 2 with a goal, step 3 with an area; any other step always passes |
| Onboarding.FormValid | src/components/RiderOnboarding.tsx:113-122 | the form is complete exactly when steps 1-3 pass and a platform is chosen; a complete form passes every step |
| Onboarding.AgeAndHoursOptional | src/components/RiderOnboarding.tsx:77-122 | for every form, changing age and daily hours changes neither any step's check nor the form's |
| Onboarding.WithField | src/components/RiderOnboarding.tsx:202-260 | the edited field reads back the typed value; every other field and the platform list are kept |
| Onboarding.Wizard.SetField | src/components/RiderOnboarding.tsx:202-260 | one text field takes the typed value; the step and every other field are unchanged |
| Onboarding.Toggle | src/components/RiderOnboarding.tsx:124-131 | the selected platform flips in or out and nothing else changes; an absent one is appended at the end; no duplicates are introduced |
| Onboarding.ToggleTwice | src/components/RiderOnboarding.tsx:124-131 | toggling twice restores the selection, exactly when the platform was not selected, and as a set in any case |
| Onboarding.Wizard.Next | src/components/RiderOnboarding.tsx:55-69 | the step stays in 1..4; below 4 it advances exactly when the step's fields are filled; at 4 the form is handed on exactly when complete; the form is never changed |
| Onboarding.Wizard.Back | src/components/RiderOnboarding.tsx:71-75 | one step back, never below 1 |
| Onboarding.Wizard.TogglePlatform | src/components/RiderOnboarding.tsx:124-131 | only the platform list changes, by a toggle, and it stays free of duplicates |
| DailyForm.Submittable | src/components/DailyDataForm.tsx:40 | a form is accepted exactly when earnings, hours and platform are non-empty and a star is chosen |
| DailyForm.SubmitIgnoresDate | src/components/DailyDataForm.tsx:37-44 | the date never affects whether the form can be sent, and without a star it never can be |
| DailyForm.InitialData | src/components/DailyDataForm.tsx:29-35 | the fresh form cannot be submitted, and its date is `DatePart` of the timestamp: the part before the first 'T' |
| DailyForm.DailyEntryForm.SetField | src/components/DailyDataForm.tsx:103-132 | one text field takes the typed value; the rating, the date and the other fields are unchanged |
| DailyForm.InitialDateExample | src/components/DailyDataForm.tsx:34 | 2024-01-12T10:00:00.000Z gives 2024-01-12 |
| DailyForm.FilledStars | src/components/DailyDataForm.tsx:161-174 | a rating r in 0..5 fills exactly r stars |
| DailyForm.DailyEntryForm.RatingClick | src/components/DailyDataForm.tsx:56-58 | only the rating changes, and it stays in 0..5 |
| DailyForm.DailyEntryForm.Submit | src/components/DailyDataForm.tsx:37-54 | the form is handed on exactly when earnings, hours and platform are filled and a star is chosen |
| IndexPage.NewRider | src/pages/Index.tsx:79-86 | a new record starts with 0 earned, no entries and no recommendations, takes the form's details, and is consistent |
| IndexPage.WithDay | src/pages/Index.tsx:91-103 | one entry is appended at the end, its earnings are added, every other field is unchanged, and a consistent record stays consistent |
| IndexPage.WithRecommendation | src/pages/Index.tsx:109-121 | one delivered, unfollowed recommendation is appended and every other field is unchanged; the unread count stays the same |
| IndexPage.SampleConsistent | src/pages/Index.tsx:41-77 | the demo record's 3200 is the sum of its five days, and it has nothing unread |
| IndexPage.AdminRiders | src/pages/Index.tsx:155-166 | one rider with a record and none without; its rating is the mean of the daily ratings; it counts as active and carries the record's earnings |
| IndexPage.App.OnboardingComplete | src/pages/Index.tsx:79-89 | the record is the new rider's, and the dashboard is shown |
| IndexPage.App.DailyDataSubmit | src/pages/Index.tsx:91-107 | with a record, the entry is added and consistency kept; without one nothing is recorded; the dashboard is shown either way |
| IndexPage.App.CreateRecommendation | src/pages/Index.tsx:109-123 | with a record, the recommendation is appended; without one nothing happens |
| IndexPage.App.EnableDemo | src/pages/Index.tsx:126-129 | the demo record is loaded, consistent, and the dashboard shown |
| IndexPage.App.Navigate | src/pages/Index.tsx:149-189 | the requested view is shown and nothing else changes |
| IndexPage.App.Render | src/pages/Index.tsx:131-209 | the loading screen shows exactly when the dashboard or the daily form is wanted without a record |
| AuthFlow.FormatPhone | src/components/AuthFlow.tsx:26 | the result starts with '+'; a number already starting with '+' is kept; otherwise it is +91 followed by the input |
| AuthFlow.FormatPhoneIdempotent | src/components/AuthFlow.tsx:26 | formatting twice is formatting once |
| AuthFlow.FormatDigits | src/components/AuthFlow.tsx:26 | a digits-only number always gets +91; ten digits give 13 characters ending in a valid mobile number |
| AuthFlow.FormatTyped | src/components/AuthFlow.tsx:107 | sanitised typed text is always formatted as +91 and exactly the digits typed |
| AuthFlow.PhoneSignIn.CanSend | src/components/AuthFlow.tsx:117 | with digits-only fields, the send button is enabled exactly when not loading and the phone is a valid ten-digit mobile number |
| AuthFlow.PhoneSignIn.CanVerify | src/components/AuthFlow.tsx:138 | with digits-only fields, the verify button is enabled exactly when not loading and the code is six digits |
| AuthFlow.PhoneSignIn.EditPhone | src/components/AuthFlow.tsx:107 | the phone becomes the typed text's digits; both fields stay digits-only |
| AuthFlow.PhoneSignIn.EditOtp | src/components/AuthFlow.tsx:130 | the code becomes the typed text's digits; both fields stay digits-only |
| AuthFlow.PhoneSignIn.BeginSend | src/components/AuthFlow.tsx:20-30 | from an enabled send button, loading starts and the request is +91 and a valid ten-digit mobile number |
| AuthFlow.PhoneSignIn.FinishSend | src/components/AuthFlow.tsx:32-47 | the code entry opens only after an answer with no error; the toast text is the confirmation, the error's message or "Please try again"; loading stops |
| AuthFlow.PhoneSignIn.BeginVerify | src/components/AuthFlow.tsx:50-61 | from an enabled verify button, loading starts and the six-digit code goes out with the formatted number |
| AuthFlow.PhoneSignIn.FinishVerify | src/components/AuthFlow.tsx:63-80 | the rider is signed in exactly when the code is accepted and a user returned; loading stops |
| AuthFlow.PhoneSignIn.ChangeNumber | src/components/AuthFlow.tsx:145-148 | back to number entry with the code cleared and the phone kept |
| Text.KeepDigits | src/components/AuthFlow.tsx:107 | the result is digits only, no longer than the input, and a digits-only input is unchanged |
| Text.KeepDigitsIdempotent | src/components/AuthFlow.tsx:130 | sanitising twice is sanitising once |
| Text.KeepAlnum | src/utils/deviceSession.ts:16 | the result is [A-Za-z0-9] only, no longer than the input, and an alphanumeric input is unchanged |
| Text.DatePart | src/components/DailyDataForm.tsx:34 | the result is a prefix without 'T' that stops only at a 'T' or the end |
| Folds.Filter | src/hooks/useDailyActivities.ts:71-73 | an element is kept exactly when it is in the input and passes the test; no element is added |
| Folds.Mean | src/hooks/useDailyActivities.ts:83-85 | 0 for an empty list; otherwise the mean times the length is the sum |
| Folds.MeanBounds | src/hooks/useDailyActivities.ts:83-85 | the mean of values in [lo, hi] is in [lo, hi] |
| Folds.NewestFirst | src/components/AdminPanel.tsx:405 | `slice(-n).reverse()` gives min(n, length) elements, the i-th newest at position i |
| Folds.FirstMaxIndex | src/components/RiderDashboard.tsx:66 | the position chosen holds a maximum and every earlier position holds less |

## Left out

- Database and identity-service traffic is not modelled. This covers the selects and inserts in the hooks and the OTP calls in `AuthFlow`.
  - Each answer is a parameter: a `Result`, a `store` function, or an outcome value.
- `src/hooks/useRiderProfile.ts`, `src/components/AuthTestPanel.tsx` and `src/integrations/supabase/types.ts` are not part of this model.
- The following are not modelled:
  - toasts and `console.log`;
  - the markup;
  - the dashboard's one-second clock.
- Calendar and timezone behaviour of `Date` is not modelled:
  - daylight saving time;
  - UTC parsing of `YYYY-MM-DD` dates against a local-midnight week start;
  - calendar-based `setDate(-3)`.
- Time is one integer timeline.
- `weekStart` is computed once per call rather than once per profile.
- A row's date is the instant its date string denotes. `lastActive` without rows is the midnight of the profile's creation time.
- Floating point, `toFixed`, `toLocaleString`, `parseInt` and `parseFloat` are not modelled.
  - The parsed numbers are parameters, so a `NaN` from an unparsable field is not modelled.
  - Earnings and ratings are integers. Hours and means are reals.
- The browser's `maxLength`, `minLength` and `pattern` input attributes are not modelled. The sanitising `onChange` handlers are.
- The timestamp, random token, user agent and screen size behind a device id are not modelled, nor is `btoa`. Only the filter-and-truncate post-processing of an arbitrary encoded string is.
- JSON parsing is reduced to three outcomes: absent, corrupt, or an object with string, integer, boolean and null fields.
  - A record whose timestamp is missing never expires, because `undefined < n` is false.
  - DeviceSession.AsNumber: converts only the empty string and plain decimal numerals. Other text that `Number` accepts (surrounding spaces, a sign, a fraction, an exponent, hex, `Infinity`) is treated as `NaN`, so such a record is kept where the source might purge it.
  - Fractional numbers, arrays and nested objects as timestamps are not modelled.
  - A non-object parse result counts as corrupt.
- Error messages are taken as given. The `err instanceof Error` choice between a service's message and the fallback text is folded into the failure value.
  - `AuthFlow` keeps that choice explicit, as an optional message.
- `Object.entries` ordering is modelled as first-appearance order of the platform names. This assumes no platform name is an array index such as "1"; JavaScript lists such keys first, in numeric order.
- Activities.InsertFor: the input's date is optional, so an empty-string date, which `activityData.date || …` also replaces with today, is expected to arrive as no date.
- Dashboard.ProgressPercentage: excludes a zero goal together with zero or negative earnings. The source then gives `NaN` or `-Infinity`, which the reals cannot express. A zero goal with positive earnings is modelled and gives 100.
- DeviceSession.Storage.SetSession: the source reads the clock after `getDeviceId`. Both steps happen at the one `now` given.
- The two `AuthFlow` requests are each split into a start step and a finish step. The finish step receives the service's answer. Edits made while a request is in flight are allowed, but their effect on the later toast text is not tracked.
- Once submitted, the daily-entry form is not reset. The page leaves that view, which the model does not track.
