/**
 * The provider's settings form (frontend/src/pages/dashboard/provider/Settings.jsx):
 * the form state and the `setFormData(prev => next)` updaters behind its
 * buttons, each a function from one form to the next.
 */
module SettingsForm {
  import opened Js

  /** A service area's id: `Date.now()` for one added here, the server's string for a fetched one. */
  datatype AreaId = NumId(n: int) | StrId(s: string)

  datatype AreaItem = AreaItem(id: AreaId, area: string, radius: string)

  datatype DayEntry = DayEntry(start: string, end: string, available: bool)

  datatype Form = Form(
    profileImage: string, firstName: string, lastName: string, nickName: string, country: string,
    phone: string, email: string, birthDate: string, description: string,
    additionalEmails: seq<string>, newEmail: string,
    serviceAreas: seq<AreaItem>, newArea: string, newRadius: string,
    emailNotifications: bool, smsNotifications: bool, bookingAlerts: bool, promotionAlerts: bool,
    workHours: map<string, DayEntry>,
    currentPassword: string, newPassword: string, confirmPassword: string)

  const InitialWeek: map<string, DayEntry> := map[
    "monday" := DayEntry("09:00", "17:00", true),
    "tuesday" := DayEntry("09:00", "17:00", true),
    "wednesday" := DayEntry("09:00", "17:00", true),
    "thursday" := DayEntry("09:00", "17:00", true),
    "friday" := DayEntry("09:00", "17:00", true),
    "saturday" := DayEntry("10:00", "15:00", false),
    "sunday" := DayEntry("", "", false)]

  /** The form before the settings arrive. */
  const InitialForm: Form := Form(
    "", "", "", "", "United States", "", "", "", "",
    [], "", [], "", "",
    true, false, true, true,
    InitialWeek,
    "", "", "")

  predicate Distinct(emails: seq<string>) {
    forall i, j :: 0 <= i < j < |emails| ==> emails[i] != emails[j]
  }

  // ---------------------------------------------------------------------------
  // Additional e-mails
  // ---------------------------------------------------------------------------

  /**
   * `addEmail`: a non-empty e-mail not yet listed is appended and the input
   * cleared; otherwise the form is unchanged. The handler tests the form of
   * the last render and appends to the updater's `prev`; the two are one form
   * here, which is exact when one update is applied per render.
   */
  function AddEmail(f: Form): (r: Form)
    ensures f.newEmail == "" || f.newEmail in f.additionalEmails ==> r == f
    ensures f.newEmail != "" && f.newEmail !in f.additionalEmails ==>
      && |r.additionalEmails| == |f.additionalEmails| + 1
      && r.additionalEmails[..|f.additionalEmails|] == f.additionalEmails
      && r.additionalEmails[|f.additionalEmails|] == f.newEmail
      && r.newEmail == ""
    ensures r.(additionalEmails := f.additionalEmails, newEmail := f.newEmail) == f
  {
    if f.newEmail != "" && f.newEmail !in f.additionalEmails then
      f.(additionalEmails := f.additionalEmails + [f.newEmail], newEmail := "")
    else f
  }

  /** The list never gains a duplicate. */
  lemma AddEmailKeepsDistinct(f: Form)
    requires Distinct(f.additionalEmails)
    ensures Distinct(AddEmail(f).additionalEmails)
  {
    var r := AddEmail(f).additionalEmails;
    if r != f.additionalEmails {
      forall i, j | 0 <= i < j < |r| ensures r[i] != r[j] {
        if j == |f.additionalEmails| {
          assert r[i] == f.additionalEmails[i];
          assert f.additionalEmails[i] in f.additionalEmails;
        }
      }
    }
  }

  /** `removeEmail`: every occurrence of the e-mail goes; the others stay in order. */
  function RemoveEmail(f: Form, emailToRemove: string): (r: Form)
    ensures emailToRemove !in r.additionalEmails
    ensures forall e :: e != emailToRemove ==> (e in r.additionalEmails <==> e in f.additionalEmails)
    ensures multiset(r.additionalEmails) == multiset(f.additionalEmails)[emailToRemove := 0]
    ensures r.(additionalEmails := f.additionalEmails) == f
  {
    var keep := (e: string) => e != emailToRemove;
    var kept := Filter(f.additionalEmails, keep);
    assert forall e :: e in kept ==> e != emailToRemove && e in f.additionalEmails;
    assert forall i :: 0 <= i < |f.additionalEmails| && f.additionalEmails[i] != emailToRemove ==> f.additionalEmails[i] in kept;
    forall e ensures multiset(kept)[e] == multiset(f.additionalEmails)[emailToRemove := 0][e] {
      FilterCounts(f.additionalEmails, keep, e);
    }
    f.(additionalEmails := kept)
  }

  /** Removing keeps the remaining e-mails in their order. */
  lemma RemoveEmailKeepsOrder(f: Form, emailToRemove: string)
    ensures IsSubsequence(RemoveEmail(f, emailToRemove).additionalEmails, f.additionalEmails)
  {
    FilterIsSubsequence(f.additionalEmails, (e: string) => e != emailToRemove);
  }

  /** Removing an e-mail just added restores the list as it was. */
  lemma RemoveUndoesAdd(f: Form)
    requires f.newEmail != "" && f.newEmail !in f.additionalEmails
    ensures RemoveEmail(AddEmail(f), f.newEmail).additionalEmails == f.additionalEmails
  {
    var keep := (e: string) => e != f.newEmail;
    FilterAppend(f.additionalEmails, [f.newEmail], keep);
    assert forall i :: 0 <= i < |f.additionalEmails| ==> f.additionalEmails[i] in f.additionalEmails;
    FilterKeepsAll(f.additionalEmails, keep);
    assert Filter([f.newEmail], keep) == [];
  }

  // ---------------------------------------------------------------------------
  // Work hours
  // ---------------------------------------------------------------------------

  datatype HoursField = Start | End

  /** `handleWorkHoursChange(day, field, value)`: one field of one day, nothing else. */
  function SetHours(f: Form, day: string, field: HoursField, value: string): (r: Form)
    requires day in f.workHours
    ensures r.workHours.Keys == f.workHours.Keys
    ensures forall d :: d in f.workHours && d != day ==> r.workHours[d] == f.workHours[d]
    ensures r.workHours[day].available == f.workHours[day].available
    ensures r.workHours[day].start == (if field == Start then value else f.workHours[day].start)
    ensures r.workHours[day].end == (if field == End then value else f.workHours[day].end)
    ensures r.(workHours := f.workHours) == f
  {
    var entry := f.workHours[day];
    var changed := match field
      case Start => entry.(start := value)
      case End => entry.(end := value);
    f.(workHours := f.workHours[day := changed])
  }

  /** `toggleDayAvailability(day)`: flips that day's availability and nothing else. */
  function ToggleDay(f: Form, day: string): (r: Form)
    requires day in f.workHours
    ensures r.workHours.Keys == f.workHours.Keys
    ensures r.workHours[day].available == !f.workHours[day].available
    ensures r.workHours[day].start == f.workHours[day].start && r.workHours[day].end == f.workHours[day].end
    ensures forall d :: d in f.workHours && d != day ==> r.workHours[d] == f.workHours[d]
    ensures r.(workHours := f.workHours) == f
  {
    f.(workHours := f.workHours[day := f.workHours[day].(available := !f.workHours[day].available)])
  }

  /** Toggling a day twice restores the form. */
  lemma ToggleTwice(f: Form, day: string)
    requires day in f.workHours
    ensures ToggleDay(ToggleDay(f, day), day) == f
  {
    var r := ToggleDay(ToggleDay(f, day), day);
    assert r.workHours == f.workHours;
  }

  // ---------------------------------------------------------------------------
  // Service areas
  // ---------------------------------------------------------------------------

  /**
   * `addServiceArea`: with both inputs filled, an entry stamped with the
   * clock is appended and both inputs cleared; otherwise nothing changes.
   */
  function AddServiceArea(f: Form, now: int): (r: Form)
    ensures f.newArea == "" || f.newRadius == "" ==> r == f
    ensures f.newArea != "" && f.newRadius != "" ==>
      && r.serviceAreas == f.serviceAreas + [AreaItem(NumId(now), f.newArea, f.newRadius)]
      && r.newArea == "" && r.newRadius == ""
    ensures r.(serviceAreas := f.serviceAreas, newArea := f.newArea, newRadius := f.newRadius) == f
  {
    if f.newArea != "" && f.newRadius != "" then
      f.(serviceAreas := f.serviceAreas + [AreaItem(NumId(now), f.newArea, f.newRadius)], newArea := "", newRadius := "")
    else f
  }

  /** `removeServiceArea(id)`: exactly the entries with that id go; the others stay in order. */
  function RemoveServiceArea(f: Form, id: AreaId): (r: Form)
    ensures forall a :: a in r.serviceAreas ==> a.id != id && a in f.serviceAreas
    ensures forall i :: 0 <= i < |f.serviceAreas| && f.serviceAreas[i].id != id ==> f.serviceAreas[i] in r.serviceAreas
    ensures forall a :: multiset(r.serviceAreas)[a] == if a.id != id then multiset(f.serviceAreas)[a] else 0
    ensures r.(serviceAreas := f.serviceAreas) == f
  {
    var keep := (a: AreaItem) => a.id != id;
    var kept := Filter(f.serviceAreas, keep);
    forall a ensures multiset(kept)[a] == if a.id != id then multiset(f.serviceAreas)[a] else 0 {
      FilterCounts(f.serviceAreas, keep, a);
    }
    f.(serviceAreas := kept)
  }

  lemma RemoveServiceAreaKeepsOrder(f: Form, id: AreaId)
    ensures IsSubsequence(RemoveServiceArea(f, id).serviceAreas, f.serviceAreas)
  {
    FilterIsSubsequence(f.serviceAreas, (a: AreaItem) => a.id != id);
  }

  /** An area just added (ids from the clock are numbers) is removed again by its id. */
  lemma RemoveUndoesAddServiceArea(f: Form, now: int)
    requires f.newArea != "" && f.newRadius != ""
    requires forall a :: a in f.serviceAreas ==> a.id != NumId(now)
    ensures RemoveServiceArea(AddServiceArea(f, now), NumId(now)).serviceAreas == f.serviceAreas
  {
    var keep := (a: AreaItem) => a.id != NumId(now);
    FilterAppend(f.serviceAreas, [AreaItem(NumId(now), f.newArea, f.newRadius)], keep);
    assert forall i :: 0 <= i < |f.serviceAreas| ==> f.serviceAreas[i] in f.serviceAreas;
    FilterKeepsAll(f.serviceAreas, keep);
  }

  // ---------------------------------------------------------------------------
  // Fetch and submit
  // ---------------------------------------------------------------------------

  /** The settings `getSettings` sends, as the form holds them. */
  datatype Fetched = Fetched(
    profileImage: string, firstName: string, lastName: string, nickName: string, country: string,
    phone: string, email: string, birthDate: string, description: string,
    additionalEmails: seq<string>, serviceAreas: seq<AreaItem>,
    emailNotifications: bool, smsNotifications: bool, bookingAlerts: bool, promotionAlerts: bool,
    workHours: map<string, DayEntry>)

  /**
   * `fetchSettings`' updater: `{...prev, ...response.data}` with the
   * transient inputs reset. The reply carries every persistent field, so
   * nothing of the previous form survives.
   */
  function ApplyFetched(prev: Form, data: Fetched): (r: Form)
    ensures r.newEmail == "" && r.newArea == "" && r.newRadius == ""
    ensures r.currentPassword == "" && r.newPassword == "" && r.confirmPassword == ""
    ensures r.additionalEmails == data.additionalEmails && r.serviceAreas == data.serviceAreas
    ensures r.workHours == data.workHours && r.email == data.email
  {
    Form(
      data.profileImage, data.firstName, data.lastName, data.nickName, data.country,
      data.phone, data.email, data.birthDate, data.description,
      data.additionalEmails, "",
      data.serviceAreas, "", "",
      data.emailNotifications, data.smsNotifications, data.bookingAlerts, data.promotionAlerts,
      data.workHours,
      "", "", "")
  }

  /** The server's reply overrides the local state completely. */
  lemma ApplyFetchedForgetsPrevious(a: Form, b: Form, data: Fetched)
    ensures ApplyFetched(a, data) == ApplyFetched(b, data)
  {
  }

  /** What the form shows after a fetch reads back as the reply. */
  lemma ApplyFetchedRoundTrip(prev: Form, data: Fetched)
    ensures Payload(ApplyFetched(prev, data)).fetched == data
  {
  }

  /** The body `handleSubmit` sends: the persistent fields and the three password fields. */
  datatype SettingsPayload = SettingsPayload(fetched: Fetched, currentPassword: string, newPassword: string, confirmPassword: string)

  function Payload(f: Form): (p: SettingsPayload)
    ensures p.fetched.additionalEmails == f.additionalEmails && p.fetched.serviceAreas == f.serviceAreas
    ensures p.fetched.workHours == f.workHours
    ensures p.currentPassword == f.currentPassword && p.newPassword == f.newPassword && p.confirmPassword == f.confirmPassword
  {
    SettingsPayload(
      Fetched(f.profileImage, f.firstName, f.lastName, f.nickName, f.country, f.phone, f.email,
              f.birthDate, f.description, f.additionalEmails, f.serviceAreas,
              f.emailNotifications, f.smsNotifications, f.bookingAlerts, f.promotionAlerts, f.workHours),
      f.currentPassword, f.newPassword, f.confirmPassword)
  }

  /** The transient inputs are never sent. */
  lemma PayloadIgnoresTransientInputs(f: Form, newEmail: string, newArea: string, newRadius: string)
    ensures Payload(f.(newEmail := newEmail, newArea := newArea, newRadius := newRadius)) == Payload(f)
  {
  }

  /** After a successful submit the three password fields are cleared and nothing else changes. */
  function ClearPasswords(f: Form): (r: Form)
    ensures r.currentPassword == "" && r.newPassword == "" && r.confirmPassword == ""
    ensures r.(currentPassword := f.currentPassword, newPassword := f.newPassword, confirmPassword := f.confirmPassword) == f
  {
    f.(currentPassword := "", newPassword := "", confirmPassword := "")
  }
}
