/** The trial gate of trial.js (`TrialManager`): a stored record of when the
    trial started and whether a licence was entered, the 14-day validity rule
    with its one-day grace variant, licence keys, and the reminder schedule.
    The clock reading `now` (milliseconds) is a parameter of every operation;
    the stored record is a value, absent before the first run. */
module Trial {
  import opened Wrappers
  import opened Text

  const TrialDays: int := 14
  /** `1000 * 60 * 60 * 24`. */
  const MsPerDay: int := 86400000
  const TrialVersion: string := "1.0.1"

  /** The stored record. Every field is optional, as in the JSON object it is
      kept as: a licence entered before any trial record existed produces a
      record with no start date. */
  datatype TrialInfo = TrialInfo(
    startDate: Option<int>,
    lastCheck: Option<int>,
    isActivated: bool,
    version: Option<string>,
    firstRunDate: Option<string>,
    sessionCount: Option<int>,
    lastSession: Option<int>,
    activationDate: Option<int>,
    licenseKey: Option<string>)

  type Store = Option<TrialInfo>

  /** `{}`. */
  const EmptyInfo := TrialInfo(None, None, false, None, None, None, None, None, None)

  /** `Math.floor((now - start) / 86400000)`: whole days elapsed, counting
      down for a clock that reads before the start. */
  function DaysPassed(now: int, start: int): (d: int)
    ensures d * MsPerDay <= now - start < (d + 1) * MsPerDay
  {
    (now - start) / MsPerDay
  }

  /** Sessions recorded so far; a missing count counts as none. */
  function Sessions(store: Store): int {
    if store.None? then 0
    else match store.value.sessionCount
      case None => 0
      case Some(n) => n
  }

  /** `initializeTrial`: a first run starts the trial now; later runs only
      count the session. `isoNow` is the ISO text of the same moment. */
  function InitializeTrial(store: Store, now: int, isoNow: string): (r: TrialInfo)
    ensures Sessions(Some(r)) == Sessions(store) + 1
    ensures store.None? ==>
      && r.startDate == Some(now) && r.lastCheck == Some(now) && !r.isActivated
      && r.version == Some("1.0.1") && r.firstRunDate == Some(isoNow) && r.sessionCount == Some(1)
      && r.lastSession.None? && r.activationDate.None? && r.licenseKey.None?
    ensures store.Some? ==>
      && r.lastSession == Some(now)
      && r.(sessionCount := None, lastSession := None)
         == store.value.(sessionCount := None, lastSession := None)
  {
    match store
    case None => TrialInfo(Some(now), Some(now), false, Some(TrialVersion), Some(isoNow), Some(1), None, None, None)
    case Some(info) => info.(sessionCount := Some(Sessions(store) + 1), lastSession := Some(now))
  }

  /** The trial window is still open at `now`. A missing start date compares
      as `NaN` does: never inside the window. */
  predicate InWindow(info: TrialInfo, now: int, days: int) {
    info.startDate.Some? && DaysPassed(now, info.startDate.value) < days
  }

  /** The answer of a check and the record it leaves stored. */
  datatype Check = Check(valid: bool, store: TrialInfo)

  /** `isTrialValid`: with no record the trial is started and valid; an
      activated record is valid and left alone; otherwise the check time is
      recorded and the trial is valid for 14 whole days from its start. */
  function IsTrialValid(store: Store, now: int, isoNow: string): (r: Check)
    ensures r.valid <==>
      || store.None?
      || store.value.isActivated
      || (store.value.startDate.Some? && now - store.value.startDate.value < TrialDays * MsPerDay)
    ensures store.None? ==> r.store == InitializeTrial(None, now, isoNow)
    ensures store.Some? && store.value.isActivated ==> r.store == store.value
    ensures store.Some? && !store.value.isActivated ==> r.store == store.value.(lastCheck := Some(now))
  {
    match store
    case None => Check(true, InitializeTrial(None, now, isoNow))
    case Some(info) =>
      if info.isActivated then Check(true, info)
      else Check(InWindow(info, now, TrialDays), info.(lastCheck := Some(now)))
  }

  /** `isTrialValidWithGrace`: as `isTrialValid`, but one extra day is allowed
      and the check time is not recorded. */
  function IsTrialValidWithGrace(store: Store, now: int, isoNow: string): (r: Check)
    ensures r.valid <==>
      || store.None?
      || store.value.isActivated
      || (store.value.startDate.Some? && now - store.value.startDate.value < (TrialDays + 2) * MsPerDay)
    ensures store.None? ==> r.store == InitializeTrial(None, now, isoNow)
    ensures store.Some? ==> r.store == store.value
  {
    match store
    case None => Check(true, InitializeTrial(None, now, isoNow))
    case Some(info) => Check(info.isActivated || InWindow(info, now, TrialDays + 2), info)
  }

  /** Anything the plain check accepts, the grace check accepts too, and the
      grace check accepts one day more. */
  lemma GraceExtendsTrial(store: Store, now: int, isoNow: string)
    ensures IsTrialValid(store, now, isoNow).valid ==> IsTrialValidWithGrace(store, now, isoNow).valid
    ensures (store.Some? && store.value.startDate.Some? && !store.value.isActivated
             && DaysPassed(now, store.value.startDate.value) == TrialDays + 1) ==>
      !IsTrialValid(store, now, isoNow).valid && IsTrialValidWithGrace(store, now, isoNow).valid
  {
  }

  /** `getRemainingDays`: 14 with no record, -1 once activated, otherwise the
      whole days left, never below 0. `None` is the `NaN` a record with no
      start date would give. */
  function RemainingDays(store: Store, now: int): (r: Option<int>)
    ensures store.None? ==> r == Some(TrialDays)
    ensures r == Some(-1) <==> store.Some? && store.value.isActivated
    ensures r.None? <==> store.Some? && !store.value.isActivated && store.value.startDate.None?
    ensures r.Some? && r != Some(-1) ==> 0 <= r.value
    ensures store.Some? && !store.value.isActivated && store.value.startDate.Some? ==>
      var passed := DaysPassed(now, store.value.startDate.value);
      r == Some(if passed < TrialDays then TrialDays - passed else 0)
  {
    match store
    case None => Some(TrialDays)
    case Some(info) =>
      if info.isActivated then Some(-1)
      else match info.startDate
        case None => None
        case Some(start) =>
          var left := TrialDays - DaysPassed(now, start);
          Some(if left > 0 then left else 0)
  }

  /** Days are left exactly when the trial is still valid. */
  lemma RemainingDaysMatchValidity(store: Store, now: int, isoNow: string)
    requires store.Some? && !store.value.isActivated && store.value.startDate.Some?
    ensures RemainingDays(store, now).value > 0 <==> IsTrialValid(store, now, isoNow).valid
  {
  }

  /** A trial that has expired stays expired as the clock moves on. */
  lemma ExpiryIsPermanent(store: Store, now: int, later: int, isoNow: string)
    requires now <= later
    requires !IsTrialValid(store, now, isoNow).valid
    ensures !IsTrialValid(store, later, isoNow).valid
  {
  }

  /** A calendar date in local time: `getFullYear()`, `getMonth() + 1`,
      `getDate()`. */
  datatype CalendarDate = CalendarDate(year: nat, month: nat, day: nat)

  predicate ValidCalendarDate(d: CalendarDate) {
    1 <= d.month <= 12 && 1 <= d.day <= 31
  }

  const KeyPrefix: string := "DAYBOOK-"
  const KeySuffix: string := "-DEMO-KEY"

  /** `generateKey`: the day's demo key `DAYBOOK-<year><mm><dd>-DEMO-KEY`. */
  function GenerateKey(today: CalendarDate): (key: string)
    ensures |key| >= 22 && key[..8] == "DAYBOOK-" && key[|key| - 9..] == "-DEMO-KEY"
    ensures ValidCalendarDate(today) ==> key[|key| - 13..|key| - 9] == Pad2(today.month) + Pad2(today.day)
    ensures ValidCalendarDate(today) ==> key[8..|key| - 13] == NatToString(today.year)
  {
    KeyPrefix + NatToString(today.year) + Pad2(today.month) + Pad2(today.day) + KeySuffix
  }

  /** Reads the date back out of the digits of a demo key: the last four are
      month and day, the rest the year. */
  function ParseDigits(digits: string): Option<CalendarDate> {
    if |digits| < 5 || !AllDigits(digits) then None
    else Some(CalendarDate(
      DigitsValue(digits[..|digits| - 4]),
      DigitsValue(digits[|digits| - 4..|digits| - 2]),
      DigitsValue(digits[|digits| - 2..])))
  }

  /** Reads the date back out of a demo key. */
  function ParseKey(key: string): Option<CalendarDate> {
    if |key| < 22 || key[..8] != KeyPrefix || key[|key| - 9..] != KeySuffix then None
    else ParseDigits(key[8..|key| - 9])
  }

  lemma DigitsRoundTrip(today: CalendarDate)
    requires ValidCalendarDate(today)
    ensures ParseDigits(NatToString(today.year) + Pad2(today.month) + Pad2(today.day)) == Some(today)
  {
    var y, m, d := NatToString(today.year), Pad2(today.month), Pad2(today.day);
    var digits := y + m + d;
    assert digits[..|digits| - 4] == y;
    assert digits[|digits| - 4..|digits| - 2] == m;
    assert digits[|digits| - 2..] == d;
    NatToStringRoundTrip(today.year);
    Pad2RoundTrip(today.month);
    Pad2RoundTrip(today.day);
  }

  /** The demo key names its day unambiguously: reading it back gives the date
      it was made from. */
  lemma KeyRoundTrip(today: CalendarDate)
    requires ValidCalendarDate(today)
    ensures ParseKey(GenerateKey(today)) == Some(today)
  {
    var digits := NatToString(today.year) + Pad2(today.month) + Pad2(today.day);
    var key := GenerateKey(today);
    assert key == KeyPrefix + digits + KeySuffix;
    assert key[8..|key| - 9] == digits;
    DigitsRoundTrip(today);
  }

  /** So two different days never share a demo key. */
  lemma DemoKeysDiffer(a: CalendarDate, b: CalendarDate)
    requires ValidCalendarDate(a) && ValidCalendarDate(b) && a != b
    ensures GenerateKey(a) != GenerateKey(b)
  {
    KeyRoundTrip(a);
    KeyRoundTrip(b);
  }

  /** A record without the fields activation writes. */
  function Unstamped(info: TrialInfo): TrialInfo {
    info.(isActivated := false, activationDate := None, licenseKey := None)
  }

  /** The fixed keys accepted on any day. */
  const FixedKeys: seq<string> := ["DAYBOOK-PRO-2025-FULL", "DB-PREMIUM-LICENSE-KEY", "DAYBOOK-ACTIVATE-FULL"]

  /** `activateLicense`: a fixed key or today's demo key activates the record
      (creating one if there is none) and stamps the time and key, keeping the
      other fields; any other key changes nothing. */
  function ActivateLicense(store: Store, key: string, today: CalendarDate, now: int): (r: (bool, Store))
    ensures r.0 <==> key in FixedKeys || key == GenerateKey(today)
    ensures !r.0 ==> r.1 == store
    ensures r.0 ==>
      && r.1.Some? && r.1.value.isActivated
      && r.1.value.activationDate == Some(now) && r.1.value.licenseKey == Some(key)
    ensures r.0 ==>
      var before := if store.None? then EmptyInfo else store.value;
      Unstamped(r.1.value) == Unstamped(before)
  {
    if key in FixedKeys || key == GenerateKey(today) then
      var info := if store.None? then EmptyInfo else store.value;
      (true, Some(info.(isActivated := true, activationDate := Some(now), licenseKey := Some(key))))
    else (false, store)
  }

  /** The status shown to the user. */
  datatype TrialStatus = Activated | Expired | InTrial(remaining: nat)

  /** The `remainingDays` field of a status. */
  function StatusDays(s: TrialStatus): int {
    match s
    case Activated => -1
    case Expired => 0
    case InTrial(n) => n
  }

  function StatusMessage(s: TrialStatus): string {
    match s
    case Activated => "Full Version Activated"
    case Expired => "Trial Period Expired"
    case InTrial(n) => "Trial Version - " + NatToString(n) + " days remaining"
  }

  lemma InTrialMessageShape(n: nat)
    ensures StatusMessage(InTrial(n)) == "Trial Version - " + NatToString(n) + " days remaining"
    ensures StatusMessage(InTrial(n))[0] == 'T' && StatusMessage(InTrial(n))[6] == 'V'
  {
  }

  /** The message shown names the status it comes from: no two statuses,
      and no two remaining-day counts, share a message. */
  lemma StatusMessageIdentifiesStatus(a: TrialStatus, b: TrialStatus)
    requires StatusMessage(a) == StatusMessage(b)
    ensures a == b
  {
    if a.InTrial? && b.InTrial? {
      var x, y := NatToString(a.remaining), NatToString(b.remaining);
      var prefix := "Trial Version - ";
      InTrialMessageShape(a.remaining);
      InTrialMessageShape(b.remaining);
      assert |x| == |y|;
      assert x == StatusMessage(a)[|prefix|..|prefix| + |x|];
      assert y == StatusMessage(b)[|prefix|..|prefix| + |y|];
      NatToStringRoundTrip(a.remaining);
      NatToStringRoundTrip(b.remaining);
    } else if !a.InTrial? && !b.InTrial? {
      assert StatusMessage(a)[0] == if a == Activated then 'F' else 'T';
      assert StatusMessage(b)[0] == if b == Activated then 'F' else 'T';
    }
  }

  /** `getTrialStatus` at one clock reading: activated, or else the remaining
      days and the validity check (which records the check time). */
  function GetTrialStatus(store: Store, now: int, isoNow: string): (r: (TrialStatus, Store))
    ensures r.0 == Activated <==> store.Some? && store.value.isActivated
    ensures r.0 == Expired <==> !IsTrialValid(store, now, isoNow).valid
    ensures r.0.InTrial? ==> r.0.remaining >= 1 && Some(r.0.remaining as int) == RemainingDays(store, now)
    ensures r.0.InTrial? && store.Some? ==>
      r.0.remaining == TrialDays - DaysPassed(now, store.value.startDate.value)
    ensures r.0 == Activated ==> r.1 == store
    ensures r.0 != Activated ==> r.1 == Some(IsTrialValid(store, now, isoNow).store)
  {
    if store.Some? && store.value.isActivated then (Activated, store)
    else
      var remaining := RemainingDays(store, now);
      var check := IsTrialValid(store, now, isoNow);
      if !check.valid then (Expired, Some(check.store))
      else (InTrial(remaining.value), Some(check.store))
  }

  /** What `showTrialNotification` shows. */
  datatype Notice = ExpirationDialog | TrialReminder(remaining: nat)

  function TrialNotification(s: TrialStatus): (r: Option<Notice>)
    ensures s == Activated ==> r.None?
    ensures s == Expired <==> r == Some(ExpirationDialog)
    ensures s.InTrial? ==>
      (r == Some(TrialReminder(s.remaining)) <==> s.remaining <= 7 || s.remaining % 3 == 0)
    ensures s.InTrial? && r.Some? ==> r.value == TrialReminder(s.remaining)
  {
    match s
    case Activated => None
    case Expired => Some(ExpirationDialog)
    case InTrial(n) => if n <= 7 || n % 3 == 0 then Some(TrialReminder(n)) else None
  }

  /** Over a full trial checked once a day, the reminder shows on the days
      with 12, 9 and then 7 or fewer days left, and never on the first two. */
  lemma ReminderSchedule(start: int, k: nat, isoNow: string)
    requires k < TrialDays
    ensures var info := InitializeTrial(None, start, isoNow);
      var st := GetTrialStatus(Some(info), start + k * MsPerDay, isoNow).0;
      st == InTrial(TrialDays - k)
      && (TrialNotification(st).Some? <==> k == 2 || k == 5 || k >= 7)
  {
    assert DaysPassed(start + k * MsPerDay, start) == k;
  }

  /** The operations that touch the stored record. */
  datatype Op =
    | Launch(now: int, isoNow: string)
    | ValidityCheck(now: int, isoNow: string)
    | GraceCheck(now: int, isoNow: string)
    | StatusCheck(now: int, isoNow: string)
    | Activate(key: string, today: CalendarDate, now: int)

  function Step(store: Store, op: Op): Store {
    match op
    case Launch(now, iso) => Some(InitializeTrial(store, now, iso))
    case ValidityCheck(now, iso) => Some(IsTrialValid(store, now, iso).store)
    case GraceCheck(now, iso) => Some(IsTrialValidWithGrace(store, now, iso).store)
    case StatusCheck(now, iso) => GetTrialStatus(store, now, iso).1
    case Activate(key, today, now) => ActivateLicense(store, key, today, now).1
  }

  function Run(store: Store, ops: seq<Op>): Store
    decreases |ops|
  {
    if |ops| == 0 then store else Run(Step(store, ops[0]), ops[1..])
  }

  /** A record is either activated or has a trial start date. */
  predicate WellFormed(store: Store) {
    store.None? || store.value.isActivated || store.value.startDate.Some?
  }

  /** Every sequence of operations keeps the record well formed, never moves
      the trial's start once set, and never takes back an activation; an
      activated record reports Activated and is valid at any time. */
  lemma {:induction false} RunKeepsTrialState(store: Store, ops: seq<Op>)
    requires WellFormed(store)
    ensures var after := Run(store, ops);
      && WellFormed(after)
      && (store.Some? && store.value.startDate.Some? ==> after.Some? && after.value.startDate == store.value.startDate)
      && (store.Some? && store.value.isActivated ==> after.Some? && after.value.isActivated)
    decreases |ops|
  {
    if |ops| > 0 {
      RunKeepsTrialState(Step(store, ops[0]), ops[1..]);
    }
  }

  /** On a well-formed record the remaining-days figure is always a number. */
  lemma WellFormedHasRemainingDays(store: Store, now: int)
    requires WellFormed(store)
    ensures RemainingDays(store, now).Some?
  {
  }

  /** Once activated, the status stays Activated through any later operations
      at any later time. */
  lemma ActivationIsPermanent(store: Store, ops: seq<Op>, now: int, isoNow: string)
    requires store.Some? && store.value.isActivated
    ensures GetTrialStatus(Run(store, ops), now, isoNow).0 == Activated
    ensures IsTrialValid(Run(store, ops), now, isoNow).valid
  {
    RunKeepsTrialState(store, ops);
  }
}
