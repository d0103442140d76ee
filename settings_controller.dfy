/**
 * Provider settings (backend/controllers/settingsController.js): the two
 * stand-alone validators, the settings read with its defaults, and the
 * settings update with its truthy merge, service-area normalisation and
 * password-change gate.
 */
module SettingsController {
  import opened Wrappers
  import opened Js
  import opened ProviderStore

  // ---------------------------------------------------------------------------
  // validateServiceAreas
  // ---------------------------------------------------------------------------

  /** `typeof item === 'object' ? item.area : item`; reading `null.area` throws. */
  function AreaCandidate(item: Value): (r: Result<Value, string>)
    ensures !IsTypeofObject(item) ==> r == Ok(item)
    ensures item.Obj? ==> r == Ok(Get(item.fields, "area"))
    ensures item.Arr? ==> r == Ok(Undefined)
    ensures item.Null? ==> r.Err?
  {
    if IsTypeofObject(item) then Property(item, "area") else Ok(item)
  }

  /** A candidate passes when it is a string that is not all white space; it is then trimmed. */
  function CheckArea(a: Value): (r: Result<string, string>)
    ensures r.Ok? <==> a.Str? && !AllSpace(a.s)
    ensures r.Ok? ==> r.value == Trim(a.s)
    ensures r.Ok? ==> r.value != [] && !IsJsSpace(r.value[0]) && !IsJsSpace(r.value[|r.value| - 1])
    ensures r.Err? ==> r.error == "Invalid service area format"
  {
    if !Truthy(a) || !a.Str? then Err("Invalid service area format")
    else
      TrimEmptyIffAllSpace(a.s);
      if Utf16Length(Trim(a.s)) == 0 then Err("Invalid service area format")
      else Ok(Trim(a.s))
  }

  /** The area text one item contributes: `item.area` for objects, the item itself otherwise. */
  function AreaOf(item: Value): (r: Result<string, string>)
    ensures r.Ok? ==> r.value != [] && !IsJsSpace(r.value[0]) && !IsJsSpace(r.value[|r.value| - 1])
    ensures !IsTypeofObject(item) ==> (r.Ok? <==> item.Str? && !AllSpace(item.s))
    ensures item.Obj? ==> (r.Ok? <==> Get(item.fields, "area").Str? && !AllSpace(Get(item.fields, "area").s))
    ensures r.Ok? && item.Str? ==> r.value == Trim(item.s)
    ensures r.Ok? && item.Obj? ==> r.value == Trim(Get(item.fields, "area").s)
    ensures item.Arr? ==> r == Err("Invalid service area format")
    ensures item.Null? ==> r.Err?
  {
    match AreaCandidate(item)
    case Err(e) => Err(e)
    case Ok(a) => CheckArea(a)
  }

  /**
   * `validateServiceAreas`: a non-array throws; otherwise each item becomes its
   * trimmed area text, in order, and the first item without one throws.
   */
  function ValidateServiceAreas(serviceAreas: Value): (r: Result<seq<string>, string>)
    ensures !serviceAreas.Arr? ==> r == Err("Service areas must be an array")
    ensures r.Ok? ==> |r.value| == |serviceAreas.items|
    ensures r.Ok? ==> forall i :: 0 <= i < |r.value| ==>
      && AreaOf(serviceAreas.items[i]) == Ok(r.value[i])
      && r.value[i] != [] && !IsJsSpace(r.value[i][0]) && !IsJsSpace(r.value[i][|r.value[i]| - 1])
    ensures serviceAreas.Arr? ==> (r.Ok? <==> forall i :: 0 <= i < |serviceAreas.items| ==> AreaOf(serviceAreas.items[i]).Ok?)
  {
    if !serviceAreas.Arr? then Err("Service areas must be an array")
    else MapOrThrow(serviceAreas.items, AreaOf)
  }

  /**
   * An item that is a string of white space only, an object whose area is
   * missing, not a string or blank, `null` or an array, is refused.
   */
  lemma BlankAreaIsRefused(serviceAreas: Value, i: nat)
    requires serviceAreas.Arr? && i < |serviceAreas.items|
    requires var item := serviceAreas.items[i];
      || (item.Str? && AllSpace(item.s))
      || (item.Obj? && (!Get(item.fields, "area").Str? || AllSpace(Get(item.fields, "area").s)))
      || item.Null? || item.Arr?
    ensures ValidateServiceAreas(serviceAreas).Err?
  {
    assert AreaOf(serviceAreas.items[i]).Err?;
  }

  // ---------------------------------------------------------------------------
  // isValidTime: /^([01]?[0-9]|2[0-3]):[0-5][0-9]$/
  // ---------------------------------------------------------------------------

  /** The alternatives of `([01]?[0-9]|2[0-3])`. */
  predicate HourPattern(h: string) {
    || (|h| == 1 && IsDigit(h[0]))
    || (|h| == 2 && (h[0] == '0' || h[0] == '1') && IsDigit(h[1]))
    || (|h| == 2 && h[0] == '2' && '0' <= h[1] <= '3')
  }

  /** `[0-5][0-9]`. */
  predicate MinutePattern(m: string) {
    |m| == 2 && '0' <= m[0] <= '5' && IsDigit(m[1])
  }

  /** The anchored pattern: one or two hour characters, a colon, two minute characters. */
  predicate IsValidTime(s: string): (r: bool)
    ensures r ==> (|s| == 4 || |s| == 5) && s[|s| - 3] == ':'
    ensures r ==> AllDigits(s[..|s| - 3]) && AllDigits(s[|s| - 2..])
  {
    || (|s| == 4 && HourPattern(s[..1]) && s[1] == ':' && MinutePattern(s[2..]))
    || (|s| == 5 && HourPattern(s[..2]) && s[2] == ':' && MinutePattern(s[3..]))
  }

  predicate AllDigits(s: string) {
    forall i :: 0 <= i < |s| ==> IsDigit(s[i])
  }

  /**
   * A reading of a time of day independent of the pattern: `H:MM` or `HH:MM`
   * whose hour reads as at most 23 and whose minutes read as at most 59.
   */
  predicate IsClockTime(s: string) {
    exists k :: 1 <= k <= 2 && |s| == k + 3 && s[k] == ':'
      && AllDigits(s[..k]) && AllDigits(s[k + 1..])
      && ParseNat(s[..k]) <= 23 && ParseNat(s[k + 1..]) <= 59
  }

  lemma ParseOneDigit(t: string)
    requires |t| == 1 && AllDigits(t)
    ensures ParseNat(t) == DigitValue(t[0])
  {
    assert t[..0] == [];
  }

  lemma ParseTwoDigits(t: string)
    requires |t| == 2 && AllDigits(t)
    ensures ParseNat(t) == 10 * DigitValue(t[0]) + DigitValue(t[1])
  {
    ParseOneDigit(t[..1]);
  }

  /** The pattern accepts exactly the clock times. */
  lemma ValidTimeIsClockTime(s: string)
    ensures IsValidTime(s) <==> IsClockTime(s)
  {
    if |s| == 4 && AllDigits(s[..1]) && AllDigits(s[2..]) {
      ParseOneDigit(s[..1]);
      ParseTwoDigits(s[2..]);
    }
    if |s| == 5 && AllDigits(s[..2]) && AllDigits(s[3..]) {
      ParseTwoDigits(s[..2]);
      ParseTwoDigits(s[3..]);
    }
    if IsValidTime(s) {
      var k := if |s| == 4 then 1 else 2;
      assert 1 <= k <= 2 && |s| == k + 3 && s[k] == ':';
    }
    if IsClockTime(s) {
      var k :| 1 <= k <= 2 && |s| == k + 3 && s[k] == ':'
        && AllDigits(s[..k]) && AllDigits(s[k + 1..])
        && ParseNat(s[..k]) <= 23 && ParseNat(s[k + 1..]) <= 59;
      assert |s| == 4 || |s| == 5;
    }
  }

  /**
   * `test` converts its argument to a string first: among non-strings only an
   * array (joined with commas) can pass; numbers, booleans, `null`,
   * `undefined` and plain objects never do.
   */
  lemma TimeTestRefusesOtherValues(v: Value)
    requires !v.Str? && !v.Arr?
    ensures !IsValidTime(ToString(v))
  {
    if v.Num? {
      IntToStringHasNoColon(v.n);
      ColonFreeIsNoTime(ToString(v));
    }
  }

  lemma ColonFreeIsNoTime(s: string)
    requires ':' !in s
    ensures !IsValidTime(s)
  {
    if |s| >= 3 {
      assert s[1] in s && s[2] in s;
    }
  }

  // ---------------------------------------------------------------------------
  // validateWorkHours
  // ---------------------------------------------------------------------------

  const Days: seq<string> := ["monday", "tuesday", "wednesday", "thursday", "friday", "saturday", "sunday"]

  /** One validated day. `start` and `end` keep the request's values when the day is available. */
  datatype DayHours = DayHours(available: bool, start: Value, end: Value)

  const ClosedDay: DayHours := DayHours(false, Str(""), Str(""))

  /** The loop body of `validateWorkHours` for one day. */
  function ValidateDay(workHours: Value, day: string): (r: Result<DayHours, string>)
    ensures Property(workHours, day).Err? ==> r == Err(Property(workHours, day).error)
    ensures Property(workHours, day).Ok? && !Truthy(Property(workHours, day).value) ==> r == Ok(ClosedDay)
    ensures r.Ok? && !r.value.available ==> r.value == ClosedDay
    ensures r.Ok? && r.value.available ==>
      && workHours.Obj? && Get(workHours.fields, day).Obj?
      && var entry := Get(workHours.fields, day).fields;
      && Get(entry, "available") == Bool(true)
      && r.value.start == Get(entry, "start") && r.value.end == Get(entry, "end")
      && IsValidTime(ToString(r.value.start)) && IsValidTime(ToString(r.value.end))
  {
    match Property(workHours, day)
    case Err(e) => Err(e)
    case Ok(entry) =>
      if !Truthy(entry) then Ok(ClosedDay)
      else
        var available := Property(entry, "available").value;
        if !available.Bool? then Err("Invalid availability for " + day)
        else if available.b then
          var start := Property(entry, "start").value;
          var end := Property(entry, "end").value;
          if !IsValidTime(ToString(start)) || !IsValidTime(ToString(end)) then Err("Invalid time format for " + day)
          else Ok(DayHours(true, start, end))
        else Ok(ClosedDay)
  }

  /** A present, truthy entry is refused or accepted on its `available` flag and its two times. */
  lemma ValidateDayEntry(workHours: Value, day: string)
    requires Property(workHours, day).Ok? && Truthy(Property(workHours, day).value)
    ensures var r := ValidateDay(workHours, day);
      var entry := Property(workHours, day).value;
      var available := Property(entry, "available").value;
      && (!available.Bool? ==> r == Err("Invalid availability for " + day))
      && (available == Bool(false) ==> r == Ok(ClosedDay))
      && (available == Bool(true) ==>
            var start, end := Property(entry, "start").value, Property(entry, "end").value;
            if IsValidTime(ToString(start)) && IsValidTime(ToString(end)) then r == Ok(DayHours(true, start, end))
            else r == Err("Invalid time format for " + day))
  {
  }

  /** The result of the first `n` iterations: the first failing day's error, or the days so far. */
  function ValidatedThrough(workHours: Value, n: nat): Result<map<string, DayHours>, string>
    requires n <= |Days|
  {
    if n == 0 then Ok(map[])
    else match ValidatedThrough(workHours, n - 1)
      case Err(e) => Err(e)
      case Ok(m) =>
        match ValidateDay(workHours, Days[n - 1])
        case Err(e) => Err(e)
        case Ok(d) => Ok(m[Days[n - 1] := d])
  }

  /** Once an iteration has thrown, later days cannot change the outcome. */
  lemma {:induction false} ErrorStops(workHours: Value, k: nat, n: nat)
    requires k <= n <= |Days| && ValidatedThrough(workHours, k).Err?
    ensures ValidatedThrough(workHours, n) == ValidatedThrough(workHours, k)
    decreases n - k
  {
    if k < n {
      ErrorStops(workHours, k, n - 1);
    }
  }

  /** The seven day names are distinct. */
  lemma DaysDistinct(i: nat, j: nat)
    requires i < j < |Days|
    ensures Days[i] != Days[j]
  {
  }

  /** `n` iterations succeed exactly when every one of the first `n` days validates. */
  lemma {:induction false} ValidatedThroughOk(workHours: Value, n: nat)
    requires n <= |Days|
    ensures ValidatedThrough(workHours, n).Ok? <==> forall i :: 0 <= i < n ==> ValidateDay(workHours, Days[i]).Ok?
  {
    if n > 0 {
      ValidatedThroughOk(workHours, n - 1);
    }
  }

  /** When they fail, the error is that of the first day that does not validate. */
  lemma {:induction false} FirstInvalidDayDecides(workHours: Value, n: nat)
    requires n <= |Days| && ValidatedThrough(workHours, n).Err?
    ensures exists i ::
      && 0 <= i < n
      && ValidateDay(workHours, Days[i]) == Err(ValidatedThrough(workHours, n).error)
      && forall j :: 0 <= j < i ==> ValidateDay(workHours, Days[j]).Ok?
  {
    var prev := ValidatedThrough(workHours, n - 1);
    if prev.Err? {
      FirstInvalidDayDecides(workHours, n - 1);
    } else {
      ValidatedThroughOk(workHours, n - 1);
      assert ValidateDay(workHours, Days[n - 1]) == Err(ValidatedThrough(workHours, n).error);
    }
  }

  /** When they succeed, they hold exactly the first `n` days, each as validated. */
  lemma {:induction false} ValidatedThroughDays(workHours: Value, n: nat)
    requires n <= |Days| && ValidatedThrough(workHours, n).Ok?
    ensures forall d :: d in ValidatedThrough(workHours, n).value <==> d in Days[..n]
    ensures forall i :: 0 <= i < n ==> ValidateDay(workHours, Days[i]) == Ok(ValidatedThrough(workHours, n).value[Days[i]])
  {
    if n > 0 {
      var prev := ValidatedThrough(workHours, n - 1);
      assert prev.Ok?;
      ValidatedThroughDays(workHours, n - 1);
      var m := prev.value;
      var d := ValidateDay(workHours, Days[n - 1]).value;
      var week := ValidatedThrough(workHours, n).value;
      assert week == m[Days[n - 1] := d];
      assert Days[..n] == Days[..n - 1] + [Days[n - 1]];
      forall i | 0 <= i < n
        ensures ValidateDay(workHours, Days[i]) == Ok(week[Days[i]])
      {
        if i < n - 1 {
          DaysDistinct(i, n - 1);
          assert week[Days[i]] == m[Days[i]];
        }
      }
    }
  }

  /**
   * `validateWorkHours`: the seven days in order; the first invalid day
   * throws, otherwise the result holds exactly monday..sunday.
   */
  method ValidateWorkHours(workHours: Value) returns (r: Result<map<string, DayHours>, string>)
    ensures r == ValidatedThrough(workHours, |Days|)
  {
    var validatedHours: map<string, DayHours> := map[];
    for i := 0 to |Days|
      invariant ValidatedThrough(workHours, i) == Ok(validatedHours)
    {
      var day := Days[i];
      var entry := Property(workHours, day);
      if entry.Err? {
        ErrorStops(workHours, i + 1, |Days|);
        return Err(entry.error);
      }
      var hours: DayHours;
      if Truthy(entry.value) {
        var available := Property(entry.value, "available").value;
        if !available.Bool? {
          ErrorStops(workHours, i + 1, |Days|);
          return Err("Invalid availability for " + day);
        }
        if available.b {
          var start := Property(entry.value, "start").value;
          var end := Property(entry.value, "end").value;
          if !IsValidTime(ToString(start)) || !IsValidTime(ToString(end)) {
            ErrorStops(workHours, i + 1, |Days|);
            return Err("Invalid time format for " + day);
          }
          hours := DayHours(true, start, end);
        } else {
          hours := DayHours(false, Str(""), Str(""));
        }
      } else {
        hours := DayHours(false, Str(""), Str(""));
      }
      assert ValidateDay(workHours, day) == Ok(hours);
      validatedHours := validatedHours[day := hours];
    }
    r := Ok(validatedHours);
  }

  /** The week as `validateWorkHours` returns it has exactly the seven day keys. */
  lemma WorkHoursWeek(workHours: Value)
    requires ValidatedThrough(workHours, |Days|).Ok?
    ensures ValidatedThrough(workHours, |Days|).value.Keys ==
      {"monday", "tuesday", "wednesday", "thursday", "friday", "saturday", "sunday"}
  {
    ValidatedThroughDays(workHours, |Days|);
    assert Days[..|Days|] == Days;
    DayNames();
  }

  /** The seven names as a set. */
  lemma DayNames()
    ensures forall d :: d in Days <==> d in {"monday", "tuesday", "wednesday", "thursday", "friday", "saturday", "sunday"}
  {
  }

  /** In that week a day missing from the input is closed, and an unavailable day has its times cleared. */
  lemma WorkHoursClosedDays(workHours: Value, day: string)
    requires ValidatedThrough(workHours, |Days|).Ok?
    requires day in ValidatedThrough(workHours, |Days|).value
    ensures var hours := ValidatedThrough(workHours, |Days|).value[day];
      && (!hours.available ==> hours == ClosedDay)
      && (workHours.Obj? && day !in workHours.fields ==> hours == ClosedDay)
  {
    ValidatedThroughDays(workHours, |Days|);
    assert Days[..|Days|] == Days;
    var i :| 0 <= i < |Days| && Days[i] == day;
    assert ValidateDay(workHours, day) == Ok(ValidatedThrough(workHours, |Days|).value[day]);
  }

  // ---------------------------------------------------------------------------
  // getSettings
  // ---------------------------------------------------------------------------

  datatype AreaView = AreaView(id: string, area: Value, radius: string)

  /** The settings as `getSettings` reports them. */
  datatype SettingsData = SettingsData(
    profileImage: Value, firstName: Value, lastName: Value, nickName: Value, country: Value,
    phone: Value, email: Value, birthDate: string, description: Value, additionalEmails: Value,
    serviceAreas: seq<AreaView>,
    emailNotifications: Value, smsNotifications: Value, bookingAlerts: Value, promotionAlerts: Value,
    workHours: Value)

  datatype SettingsReply =
    | Settings(data: SettingsData) // 200
    | SettingsError               // 500 'Server error while fetching settings'

  function Hours(start: string, end: string, available: bool): Value {
    Obj(map["start" := Str(start), "end" := Str(end), "available" := Bool(available)])
  }

  /** The week reported when the provider has none stored. */
  const DefaultWeek: Value := Obj(map[
    "monday" := Hours("09:00", "17:00", true),
    "tuesday" := Hours("09:00", "17:00", true),
    "wednesday" := Hours("09:00", "17:00", true),
    "thursday" := Hours("09:00", "17:00", true),
    "friday" := Hours("09:00", "17:00", true),
    "saturday" := Hours("10:00", "15:00", false),
    "sunday" := Hours("", "", false)])

  /** A stored preference that `notifications?.key !== undefined` lets through. */
  predicate Stored(notifications: Value, key: string) {
    notifications.Obj? && key in notifications.fields && notifications.fields[key] != Undefined
  }

  /** `provider.notifications?.key !== undefined ? provider.notifications.key : dflt`. */
  function NotificationFlag(notifications: Value, key: string, dflt: bool): (r: Value)
    ensures Stored(notifications, key) ==> r == notifications.fields[key]
    ensures !Stored(notifications, key) ==> r == Bool(dflt)
  {
    var v := if notifications.Obj? then Get(notifications.fields, key) else Undefined;
    if v != Undefined then v else Bool(dflt)
  }

  /** One stored service area as reported: its id (or the clock), its text, and a fixed radius. */
  function AreaEntry(area: Value, now: int): (r: AreaView)
    ensures r.radius == "10 miles"
    ensures area.Obj? ==>
      && r.id == (if Truthy(Get(area.fields, "_id")) then ToString(Get(area.fields, "_id")) else IntToString(now))
      && r.area == (if Truthy(Get(area.fields, "area")) then Get(area.fields, "area") else area)
    ensures Truthy(area) && !area.Obj? ==> r.area == area && r.id == IntToString(now)
    ensures !Truthy(area) ==> r.area == Str("") && r.id == IntToString(now)
  {
    var id := if Truthy(area) && area.Obj? && Truthy(Get(area.fields, "_id"))
              then ToString(Get(area.fields, "_id")) else IntToString(now);
    var text := if Truthy(area) && IsTypeofObject(area) && area.Obj? && Truthy(Get(area.fields, "area"))
                then Get(area.fields, "area") else Or(area, Str(""));
    AreaView(id, text, "10 miles")
  }

  /**
   * The transformation in `getSettings`, applied to the selected document.
   * `isoDay` is `new Date(dob).toISOString().split('T')[0]`, which throws
   * for a value that is not a valid date. The object literal is built in
   * order, so a bad `dob` throws before a truthy `serviceAreas` that is not
   * an array makes `.map` throw.
   */
  function SettingsView(doc: Doc, now: int, isoDay: Value -> Result<string, string>): (r: Result<SettingsData, string>)
    ensures var dob, areas := Get(doc, "dob"), Get(doc, "serviceAreas");
      r.Err? <==> (Truthy(dob) && isoDay(dob).Err?) || (Truthy(areas) && !areas.Arr?)
    ensures Truthy(Get(doc, "dob")) && isoDay(Get(doc, "dob")).Err? ==> r == Err(isoDay(Get(doc, "dob")).error)
    ensures r.Ok? ==>
      && r.value.profileImage == Or(Get(doc, "profilePhoto"), Str(""))
      && r.value.firstName == Or(Get(doc, "firstName"), Str(""))
      && r.value.lastName == Or(Get(doc, "lastName"), Str(""))
      && r.value.nickName == Or(Get(doc, "nickName"), Str(""))
      && r.value.country == Or(Get(doc, "country"), Str("United States"))
      && r.value.phone == Or(Get(doc, "phone"), Str(""))
      && r.value.email == Or(Get(doc, "email"), Str(""))
      && r.value.birthDate == (if Truthy(Get(doc, "dob")) then isoDay(Get(doc, "dob")).value else "")
      && r.value.description == Or(Get(doc, "bio"), Str(""))
      && r.value.additionalEmails == Or(Get(doc, "additionalEmails"), Arr([]))
      && r.value.workHours == Or(Get(doc, "workHours"), DefaultWeek)
    ensures r.Ok? ==> var areas := Or(Get(doc, "serviceAreas"), Arr([]));
      && areas.Arr? && |r.value.serviceAreas| == |areas.items|
      && forall i :: 0 <= i < |areas.items| ==> r.value.serviceAreas[i] == AreaEntry(areas.items[i], now)
    ensures r.Ok? ==> var n := Get(doc, "notifications");
      && r.value.emailNotifications == (if Stored(n, "email") then n.fields["email"] else Bool(true))
      && r.value.smsNotifications == (if Stored(n, "sms") then n.fields["sms"] else Bool(false))
      && r.value.bookingAlerts == (if Stored(n, "bookingAlerts") then n.fields["bookingAlerts"] else Bool(true))
      && r.value.promotionAlerts == (if Stored(n, "promotionAlerts") then n.fields["promotionAlerts"] else Bool(true))
  {
    var birthDate := if Truthy(Get(doc, "dob")) then isoDay(Get(doc, "dob")) else Ok("");
    if birthDate.Err? then Err(birthDate.error)
    else
      var areas := Or(Get(doc, "serviceAreas"), Arr([]));
      if !areas.Arr? then Err("(provider.serviceAreas || []).map is not a function")
      else
        var notifications := Get(doc, "notifications");
        Ok(SettingsData(
          Or(Get(doc, "profilePhoto"), Str("")),
          Or(Get(doc, "firstName"), Str("")),
          Or(Get(doc, "lastName"), Str("")),
          Or(Get(doc, "nickName"), Str("")),
          Or(Get(doc, "country"), Str("United States")),
          Or(Get(doc, "phone"), Str("")),
          Or(Get(doc, "email"), Str("")),
          birthDate.value,
          Or(Get(doc, "bio"), Str("")),
          Or(Get(doc, "additionalEmails"), Arr([])),
          seq(|areas.items|, i requires 0 <= i < |areas.items| => AreaEntry(areas.items[i], now)),
          NotificationFlag(notifications, "email", true),
          NotificationFlag(notifications, "sms", false),
          NotificationFlag(notifications, "bookingAlerts", true),
          NotificationFlag(notifications, "promotionAlerts", true),
          Or(Get(doc, "workHours"), DefaultWeek)))
  }

  /**
   * `getSettings`. The 404 for a missing provider is thrown inside the
   * handler's own try, so its catch turns it into the 500, as it does a
   * stored `dob` that is not a date and a stored `serviceAreas` that cannot
   * be mapped; otherwise the settings of the selected document. Nothing is
   * written.
   */
  method GetSettings(store: ProviderCollection, id: string, now: int, isoDay: Value -> Result<string, string>)
    returns (reply: SettingsReply)
    ensures id !in store.docs ==> reply == SettingsError
    ensures id in store.docs ==>
      match SettingsView(Select(store.docs[id]), now, isoDay)
      case Err(_) => reply == SettingsError
      case Ok(data) => reply == Settings(data)
  {
    if id !in store.docs {
      return SettingsError;
    }
    var provider := Select(store.docs[id]);
    var settingsData := SettingsView(provider, now, isoDay);
    if settingsData.Err? {
      return SettingsError;
    }
    reply := Settings(settingsData.value);
  }

  /**
   * A stored provider is reported with its settings exactly when its `dob`
   * is falsy or renders as a date and its service areas can be mapped.
   */
  lemma SettingsReadableIffDobAndAreasUsable(doc: Doc, now: int, isoDay: Value -> Result<string, string>)
    ensures SettingsView(Select(doc), now, isoDay).Ok? <==>
      && (!Truthy(Get(doc, "dob")) || isoDay(Get(doc, "dob")).Ok?)
      && (!Truthy(Get(doc, "serviceAreas")) || Get(doc, "serviceAreas").Arr?)
  {
    assert "serviceAreas" !in HiddenFields && "dob" !in HiddenFields;
  }

  // ---------------------------------------------------------------------------
  // updateSettings
  // ---------------------------------------------------------------------------

  /** The fields merged with `body.f || provider.f` before `notifications`. */
  const SettingsFields: seq<string> := [
    "profileImage", "firstName", "lastName", "nickName", "country", "phone", "email",
    "birthDate", "description", "additionalEmails", "serviceAreas"]

  /** The object `updateSettings` stores as `notifications`, whatever the request held. */
  function NotificationsOf(body: Doc): (r: Value)
    ensures r.Obj? && r.fields.Keys == {"emailNotifications", "smsNotifications", "bookingAlerts", "promotionAlerts"}
    ensures forall k :: k in r.fields ==> r.fields[k] == Get(body, k)
  {
    Obj(map[
      "emailNotifications" := Get(body, "emailNotifications"),
      "smsNotifications" := Get(body, "smsNotifications"),
      "bookingAlerts" := Get(body, "bookingAlerts"),
      "promotionAlerts" := Get(body, "promotionAlerts")])
  }

  /**
   * The field assignments of `updateSettings`: twelve fields (the eleven
   * above and `workHours`) follow the truthy merge, `notifications` is
   * overwritten, and nothing else changes (`MergeSettingsField`).
   */
  function MergeSettings(doc: Doc, body: Doc): (r: Doc)
    ensures Get(r, "notifications") == NotificationsOf(body)
    ensures Get(r, "password") == Get(doc, "password")
  {
    var merged := MergeTruthy(doc, body, SettingsFields);
    var withNotifications := merged["notifications" := NotificationsOf(body)];
    assert "password" !in SettingsFields && "password" !in ["workHours"];
    assert Get(withNotifications, "password") == Get(merged, "password") == Get(doc, "password");
    MergeTruthy(withNotifications, body, ["workHours"])
  }

  /** Every field but `notifications`: the request's value when truthy and merged, the stored one otherwise. */
  lemma MergeSettingsField(doc: Doc, body: Doc, k: string)
    requires k != "notifications"
    ensures Get(MergeSettings(doc, body), k) ==
      if (k in SettingsFields || k == "workHours") && Truthy(Get(body, k)) then Get(body, k) else Get(doc, k)
  {
    var merged := MergeTruthy(doc, body, SettingsFields);
    var withNotifications := merged["notifications" := NotificationsOf(body)];
    assert "workHours" !in SettingsFields;
    assert Get(withNotifications, k) == Get(merged, k);
    assert k in ["workHours"] <==> k == "workHours";
  }

  /**
   * The e-mail and SMS preferences are stored under `emailNotifications` and
   * `smsNotifications`, but `getSettings` reads `email` and `sms`: after any
   * update, both read back as their defaults, whatever was sent.
   */
  lemma SavedEmailAndSmsPreferencesReadAsDefaults(doc: Doc, body: Doc, now: int, isoDay: Value -> Result<string, string>)
    requires SettingsView(Select(MergeSettings(doc, body)), now, isoDay).Ok?
    ensures var data := SettingsView(Select(MergeSettings(doc, body)), now, isoDay).value;
      data.emailNotifications == Bool(true) && data.smsNotifications == Bool(false)
  {
    NotificationsSurviveSave(doc, body);
  }

  /**
   * The image, birth date and description are stored under `profileImage`,
   * `birthDate` and `description`, but `getSettings` reads `profilePhoto`,
   * `dob` and `bio`: after any update, all three read back from the fields
   * the update did not touch, whatever was sent.
   */
  lemma SavedImageBirthDateAndBioNotReadBack(doc: Doc, body: Doc, now: int, isoDay: Value -> Result<string, string>)
    requires SettingsView(Select(MergeSettings(doc, body)), now, isoDay).Ok?
    ensures var data := SettingsView(Select(MergeSettings(doc, body)), now, isoDay).value;
      && data.profileImage == Or(Get(doc, "profilePhoto"), Str(""))
      && (Truthy(Get(doc, "dob")) ==> isoDay(Get(doc, "dob")) == Ok(data.birthDate))
      && (!Truthy(Get(doc, "dob")) ==> data.birthDate == "")
      && data.description == Or(Get(doc, "bio"), Str(""))
  {
    ReadFieldsUnmerged();
    UnmergedFieldSurvivesSave(doc, body, "profilePhoto");
    UnmergedFieldSurvivesSave(doc, body, "dob");
    UnmergedFieldSurvivesSave(doc, body, "bio");
    ImageBirthDateAndBioReadFrom(Select(MergeSettings(doc, body)), doc, now, isoDay);
  }

  /** The view's image, birth date and description depend only on `profilePhoto`, `dob` and `bio`. */
  lemma ImageBirthDateAndBioReadFrom(saved: Doc, doc: Doc, now: int, isoDay: Value -> Result<string, string>)
    requires SettingsView(saved, now, isoDay).Ok?
    requires Get(saved, "profilePhoto") == Get(doc, "profilePhoto")
    requires Get(saved, "dob") == Get(doc, "dob")
    requires Get(saved, "bio") == Get(doc, "bio")
    ensures var data := SettingsView(saved, now, isoDay).value;
      && data.profileImage == Or(Get(doc, "profilePhoto"), Str(""))
      && (Truthy(Get(doc, "dob")) ==> isoDay(Get(doc, "dob")) == Ok(data.birthDate))
      && (!Truthy(Get(doc, "dob")) ==> data.birthDate == "")
      && data.description == Or(Get(doc, "bio"), Str(""))
  {
  }

  /** `profilePhoto`, `dob` and `bio` are neither merged by `updateSettings` nor hidden by the select. */
  lemma ReadFieldsUnmerged()
    ensures forall k :: k in ["profilePhoto", "dob", "bio"] ==>
      k !in SettingsFields && k != "workHours" && k != "notifications" && k !in HiddenFields
  {
  }

  /** A field that is neither merged nor hidden reads back after a save as it was stored. */
  lemma UnmergedFieldSurvivesSave(doc: Doc, body: Doc, k: string)
    requires k !in SettingsFields && k != "workHours" && k != "notifications" && k !in HiddenFields
    ensures Get(Select(MergeSettings(doc, body)), k) == Get(doc, k)
  {
    MergeSettingsField(doc, body, k);
  }

  /** The booking and promotion preferences, whose keys do agree, read back as sent unless `undefined`. */
  lemma SavedAlertPreferencesReadBack(doc: Doc, body: Doc, now: int, isoDay: Value -> Result<string, string>)
    requires SettingsView(Select(MergeSettings(doc, body)), now, isoDay).Ok?
    requires Get(body, "bookingAlerts") != Undefined && Get(body, "promotionAlerts") != Undefined
    ensures var data := SettingsView(Select(MergeSettings(doc, body)), now, isoDay).value;
      data.bookingAlerts == Get(body, "bookingAlerts") && data.promotionAlerts == Get(body, "promotionAlerts")
  {
    NotificationsSurviveSave(doc, body);
  }

  /** The stored `notifications` object is what the selected document shows. */
  lemma NotificationsSurviveSave(doc: Doc, body: Doc)
    ensures var n := Get(Select(MergeSettings(doc, body)), "notifications");
      && n == NotificationsOf(body)
      && !Stored(n, "email") && !Stored(n, "sms")
      && (Get(body, "bookingAlerts") != Undefined ==> Stored(n, "bookingAlerts") && n.fields["bookingAlerts"] == Get(body, "bookingAlerts"))
      && (Get(body, "promotionAlerts") != Undefined ==> Stored(n, "promotionAlerts") && n.fields["promotionAlerts"] == Get(body, "promotionAlerts"))
  {
    assert "notifications" !in HiddenFields;
  }

  /** One item of a request's `serviceAreas` array: a string, or an object's truthy `area`. */
  function NormaliseArea(item: Value): (r: Result<Value, string>)
    ensures item.Str? ==> r == Ok(item)
    ensures item.Obj? ==> (r.Ok? <==> Truthy(Get(item.fields, "area")))
    ensures item.Undefined? || item.Null? ==> r.Err?
    ensures item.Obj? && !Truthy(Get(item.fields, "area")) ==> r == Err("Each service area must have an area property")
    ensures !item.Str? && !item.Obj? && !item.Undefined? && !item.Null? ==> r == Err("Each service area must have an area property")
    ensures r.Ok? && !item.Str? ==> item.Obj? && r.value == Get(item.fields, "area")
  {
    if item.Str? then Ok(item)
    else match Property(item, "area")
      case Err(e) => Err(e)
      case Ok(area) =>
        if !Truthy(area) then Err("Each service area must have an area property") else Ok(area)
  }

  /**
   * bcryptjs, opaque: `compare(candidate, digest)` and `hash(password, salt)`.
   * Both reject arguments of the wrong type (a number, an object, a missing
   * digest) by throwing, which the model records as an `Err`.
   */
  datatype Bcrypt = Bcrypt(compare: (Value, Value) -> Result<bool, string>, hash: (Value, nat) -> Result<Value, string>)

  /** The outcome of the password checks: keep, change, a 400 with its message, or a throw. */
  datatype Gate = KeepPassword | ChangePassword | Refuse(message: string) | Thrown(error: string)

  /** The three ordered checks guarding a password change. */
  function PasswordGate(body: Doc, stored: Value, b: Bcrypt): (g: Gate)
    ensures var cur, nw, conf := Get(body, "currentPassword"), Get(body, "newPassword"), Get(body, "confirmPassword");
      && (g == KeepPassword <==> !Truthy(cur) && !Truthy(nw) && !Truthy(conf))
      && (g == ChangePassword <==>
            Truthy(cur) && Truthy(nw) && Truthy(conf) && b.compare(cur, stored) == Ok(true) && StrictEquals(nw, conf))
      && ((Truthy(cur) || Truthy(nw) || Truthy(conf)) && !(Truthy(cur) && Truthy(nw) && Truthy(conf)) ==>
            g == Refuse("All password fields are required to change the password."))
      && (Truthy(cur) && Truthy(nw) && Truthy(conf) && b.compare(cur, stored).Err? ==>
            g == Thrown(b.compare(cur, stored).error))
      && (Truthy(cur) && Truthy(nw) && Truthy(conf) && b.compare(cur, stored) == Ok(false) ==>
            g == Refuse("Current password is incorrect."))
      && (Truthy(cur) && Truthy(nw) && Truthy(conf) && b.compare(cur, stored) == Ok(true) && !StrictEquals(nw, conf) ==>
            g == Refuse("New password and confirm password do not match."))
  {
    var cur, nw, conf := Get(body, "currentPassword"), Get(body, "newPassword"), Get(body, "confirmPassword");
    if !(Truthy(cur) || Truthy(nw) || Truthy(conf)) then KeepPassword
    else if !Truthy(cur) || !Truthy(nw) || !Truthy(conf) then
      Refuse("All password fields are required to change the password.")
    else match b.compare(cur, stored)
      case Err(e) => Thrown(e)
      case Ok(isPasswordMatch) =>
        if !isPasswordMatch then Refuse("Current password is incorrect.")
        else if !StrictEquals(nw, conf) then Refuse("New password and confirm password do not match.")
        else ChangePassword
  }

  /** The reply: a status and the `error` or `message` text of its body. */
  datatype UpdateReply = UpdateReply(status: int, text: string)

  /** `serviceAreas && Array.isArray(serviceAreas)`: arrays are always truthy. */
  predicate AreasGiven(body: Doc) {
    Get(body, "serviceAreas").Arr?
  }

  /** The normalised service areas when an array was sent; the first bad item throws. */
  function NewAreas(body: Doc): (r: Result<seq<Value>, string>)
    ensures !AreasGiven(body) ==> r == Ok([])
    ensures AreasGiven(body) ==> r == MapOrThrow(Get(body, "serviceAreas").items, NormaliseArea)
  {
    if Truthy(Get(body, "serviceAreas")) && Get(body, "serviceAreas").Arr? then
      MapOrThrow(Get(body, "serviceAreas").items, NormaliseArea)
    else Ok([])
  }

  /** The new digest, when the gate allows a change. */
  function NewDigest(body: Doc, b: Bcrypt, salt: nat): Result<Value, string> {
    b.hash(Get(body, "newPassword"), salt)
  }

  /**
   * What `updateSettings` saves for an existing provider, or the reply that
   * stops it: the truthy merge, then the normalised service areas when an
   * array was sent, then the password gate (a refusal is a 400), then the
   * new password's digest when allowed. A bad area item, a throwing
   * `compare` and a throwing `hash` all end in the catch, a 500.
   */
  function SavedSettings(doc: Doc, body: Doc, b: Bcrypt, salt: nat): (r: Result<Doc, UpdateReply>)
    ensures var gate := PasswordGate(body, Get(doc, "password"), b);
      r.Err? <==> NewAreas(body).Err? || gate.Refuse? || gate.Thrown? || (gate == ChangePassword && NewDigest(body, b, salt).Err?)
    ensures NewAreas(body).Err? ==> r == Err(UpdateReply(500, "Failed to update settings"))
    ensures NewAreas(body).Ok? && PasswordGate(body, Get(doc, "password"), b).Refuse? ==>
      r == Err(UpdateReply(400, PasswordGate(body, Get(doc, "password"), b).message))
    ensures var gate := PasswordGate(body, Get(doc, "password"), b);
      NewAreas(body).Ok? && (gate.Thrown? || (gate == ChangePassword && NewDigest(body, b, salt).Err?)) ==>
      r == Err(UpdateReply(500, "Failed to update settings"))
  {
    var merged := MergeSettings(doc, body);
    var areas := NewAreas(body);
    if areas.Err? then Err(UpdateReply(500, "Failed to update settings"))
    else
      var withAreas := if AreasGiven(body) then merged["serviceAreas" := Arr(areas.value)] else merged;
      assert Get(withAreas, "password") == Get(doc, "password");
      var gate := PasswordGate(body, Get(withAreas, "password"), b);
      if gate.Refuse? then Err(UpdateReply(400, gate.message))
      else if gate.Thrown? then Err(UpdateReply(500, "Failed to update settings"))
      else if gate == ChangePassword then
        match NewDigest(body, b, salt)
        case Err(_) => Err(UpdateReply(500, "Failed to update settings"))
        case Ok(hashedPassword) => Ok(withAreas["password" := hashedPassword])
      else Ok(withAreas)
  }

  /**
   * The saved document: the merge, except that `serviceAreas` holds the
   * normalised array when one was sent and `password` the new digest when the
   * gate allowed a change.
   */
  lemma SavedSettingsFields(doc: Doc, body: Doc, b: Bcrypt, salt: nat)
    requires SavedSettings(doc, body, b, salt).Ok?
    ensures var saved := SavedSettings(doc, body, b, salt).value;
      && (forall k :: k != "serviceAreas" && k != "password" ==> Get(saved, k) == Get(MergeSettings(doc, body), k))
      && Get(saved, "serviceAreas") ==
           (if AreasGiven(body) then Arr(NewAreas(body).value) else Get(MergeSettings(doc, body), "serviceAreas"))
      && Get(saved, "password") ==
           (if PasswordGate(body, Get(doc, "password"), b) == ChangePassword
            then NewDigest(body, b, salt).value else Get(doc, "password"))
  {
  }

  /** A request without password fields never touches the stored digest. */
  lemma SettingsKeepPasswordWithoutPasswordFields(doc: Doc, body: Doc, b: Bcrypt, salt: nat)
    requires !Truthy(Get(body, "currentPassword")) && !Truthy(Get(body, "newPassword")) && !Truthy(Get(body, "confirmPassword"))
    requires SavedSettings(doc, body, b, salt).Ok?
    ensures Get(SavedSettings(doc, body, b, salt).value, "password") == Get(doc, "password")
  {
    SavedSettingsFields(doc, body, b, salt);
  }

  /**
   * `updateSettings`: 404 for a missing provider; otherwise the document
   * `SavedSettings` describes is saved with a 200, or nothing changes and its
   * reply is sent.
   */
  method UpdateSettings(store: ProviderCollection, id: string, body: Doc, b: Bcrypt, salt: nat)
    returns (reply: UpdateReply)
    modifies store
    ensures id !in old(store.docs) ==> reply == UpdateReply(404, "Provider not found") && store.docs == old(store.docs)
    ensures id in old(store.docs) ==>
      match SavedSettings(old(store.docs)[id], body, b, salt)
      case Err(refusal) => reply == refusal && store.docs == old(store.docs)
      case Ok(saved) => reply == UpdateReply(200, "Settings updated successfully") && store.docs == old(store.docs)[id := saved]
  {
    if id !in store.docs {
      return UpdateReply(404, "Provider not found");
    }
    ghost var outcome := SavedSettings(store.docs[id], body, b, salt);
    var provider := store.docs[id];
    provider := MergeSettings(provider, body);
    var serviceAreas := NewAreas(body);
    if serviceAreas.Err? {
      return UpdateReply(500, "Failed to update settings");
    }
    if AreasGiven(body) {
      provider := provider["serviceAreas" := Arr(serviceAreas.value)];
    }
    var gate := PasswordGate(body, Get(provider, "password"), b);
    if gate.Refuse? {
      return UpdateReply(400, gate.message);
    }
    if gate.Thrown? {
      return UpdateReply(500, "Failed to update settings");
    }
    if gate == ChangePassword {
      var hashedPassword := b.hash(Get(body, "newPassword"), salt);
      if hashedPassword.Err? {
        return UpdateReply(500, "Failed to update settings");
      }
      provider := provider["password" := hashedPassword.value];
    }
    assert outcome == Ok(provider);
    store.docs := store.docs[id := provider];
    reply := UpdateReply(200, "Settings updated successfully");
  }
}
