/** The client side of visit analytics (src/utils/analytics.ts): which user
    id and display name a visit is reported under, the timestamp it carries,
    and the section names. The browser globals are an `Environment` value;
    the POST itself is the `Posted` outcome, whatever the network does with it. */
module Analytics {
  import opened Wrappers
  import opened Text
  import opened Uri
  import AppsScript

  datatype AppSection = BmiCalculator | LabAnalysis | Horoscope | Affirmation

  /** The section's wire name. */
  function SectionKey(s: AppSection): string {
    match s
    case BmiCalculator => "bmi-calculator"
    case LabAnalysis => "lab-analysis"
    case Horoscope => "horoscope"
    case Affirmation => "affirmation"
  }

  /** `getSectionName`: the readable name; the `|| section` fallback is never taken. */
  function SectionName(s: AppSection): (r: string)
    ensures r != []
  {
    match s
    case BmiCalculator => "Умный нутрициолог"
    case LabAnalysis => "Расшифровщик анализов"
    case Horoscope => "Персональный гороскоп"
    case Affirmation => "Аффирмации красоты"
  }

  /** Client and script agree: every section the client sends has a column in
      the sheet, different sections have different columns, and that column's
      header is the section's readable name. */
  lemma SectionsMatchSheet(s: AppSection, t: AppSection)
    ensures AppsScript.SectionColumn(SectionKey(s)).Some?
    ensures AppsScript.HeaderRow[AppsScript.SectionColumn(SectionKey(s)).value - 1] == AppsScript.Str(SectionName(s))
    ensures s != t ==> AppsScript.SectionColumn(SectionKey(s)) != AppsScript.SectionColumn(SectionKey(t))
  {
  }

  const ScriptUrl: string := "https://script.google.com/macros/s/AKfycbyqihzVxodDXLghH6U3LQkOZh-L7E3mYKaX-4_0Irum_TIrUQoOGHrTiuAhQrzc2BnY/exec"
  const Placeholder: string := "YOUR_SCRIPT_ID"

  /** `Telegram.WebApp.initDataUnsafe.user`, each field possibly missing. */
  datatype TelegramUser = TelegramUser(id: Option<int>, firstName: Option<string>, lastName: Option<string>, username: Option<string>)

  datatype WebApp = WebApp(user: Option<TelegramUser>)

  /** No `window` at all, or a browser window with its query parameters (as
      `URLSearchParams` yields them, already percent-decoded) and
      `Telegram.WebApp`, if present. */
  datatype Environment = NoWindow | Browser(query: seq<(string, string)>, webApp: Option<WebApp>)

  /** `urlParams.get(name)`: the first value given for `name`. */
  function QueryParam(query: seq<(string, string)>, name: string): (r: Option<string>)
    ensures r.Some? <==> exists i :: 0 <= i < |query| && query[i].0 == name
    ensures r.Some? ==> exists i :: 0 <= i < |query| && query[i] == (name, r.value)
                          && forall j :: 0 <= j < i ==> query[j].0 != name
  {
    if query == [] then None
    else if query[0].0 == name then Some(query[0].1)
    else
      var r := QueryParam(query[1..], name);
      if r.Some? then FirstPastHead(query, name, r.value); r else r
  }

  /** A first occurrence in the tail, behind a head of another name, is the
      first occurrence in the whole query. */
  lemma FirstPastHead(query: seq<(string, string)>, name: string, v: string)
    requires query != [] && query[0].0 != name
    requires exists i :: 0 <= i < |query[1..]| && query[1..][i] == (name, v)
                         && forall j :: 0 <= j < i ==> query[1..][j].0 != name
    ensures exists i :: 0 <= i < |query| && query[i] == (name, v)
                        && forall j :: 0 <= j < i ==> query[j].0 != name
  {
    var i :| 0 <= i < |query[1..]| && query[1..][i] == (name, v)
             && forall j :: 0 <= j < i ==> query[1..][j].0 != name;
    assert query[i + 1] == (name, v);
    forall j | 0 <= j < i + 1
      ensures query[j].0 != name
    {
      if j > 0 { assert query[j] == query[1..][j - 1]; }
    }
  }

  /** A JavaScript string value that is neither `null` nor empty. */
  predicate Truthy(v: Option<string>) {
    v.Some? && v.value != ""
  }

  function UtmId(env: Environment): Option<string> {
    if env.Browser? then QueryParam(env.query, "utm_id") else None
  }

  function UtmFullName(env: Environment): Option<string> {
    if env.Browser? then QueryParam(env.query, "utm_fullname") else None
  }

  function TelegramUserOf(env: Environment): Option<TelegramUser> {
    if env.Browser? && env.webApp.Some? then env.webApp.value.user else None
  }

  /** `user.id?.toString() || 'anonymous'` */
  function TelegramId(u: TelegramUser): (r: string)
    ensures r != []
  {
    if u.id.Some? then IntToString(u.id.value) else "anonymous"
  }

  /** `` `${first} ${last}`.trim() || user.username || 'Anonymous' `` */
  function TelegramName(u: TelegramUser): (r: string)
    ensures r != []
  {
    var full := Trim(u.firstName.GetOr("") + " " + u.lastName.GetOr(""));
    if full != "" then full
    else if Truthy(u.username) then u.username.value
    else "Anonymous"
  }

  /** The reported user id, by precedence: an explicit argument, then
      `utm_id`, then the Telegram user's id, then 'anonymous'. */
  function ResolveUserId(env: Environment, explicit: Option<string>): (r: string)
    ensures r != []
  {
    if Truthy(explicit) then explicit.value
    else if Truthy(UtmId(env)) then UtmId(env).value
    else if TelegramUserOf(env).Some? then TelegramId(TelegramUserOf(env).value)
    else "anonymous"
  }

  /** `decodeURIComponent(v)` inside a `try`: the decoded text, or `v` as
      given when it is not a well-formed escape sequence. */
  function DecodeOrKeep(v: string): (r: string)
    ensures v != [] ==> r != []
    ensures r == v || DecodeUriComponent(v) == Success(r)
  {
    match DecodeUriComponent(v)
    case Success(t) => t
    case Failure(_) => v
  }

  /** The reported name, by precedence: `utm_fullname` decoded once more
      (kept as given when that fails), then the Telegram user's name,
      username or 'Anonymous', then 'Anonymous'. */
  function ResolveFullName(env: Environment): (r: string)
    ensures r != []
  {
    if Truthy(UtmFullName(env)) then DecodeOrKeep(UtmFullName(env).value)
    else if TelegramUserOf(env).Some? then TelegramName(TelegramUserOf(env).value)
    else "Anonymous"
  }

  /** `getTelegramUserId` */
  function GetTelegramUserId(env: Environment): (r: string)
    ensures r != []
  {
    if env.Browser? && env.webApp.Some? then
      var user := env.webApp.value.user;
      if user.Some? then TelegramId(user.value) else "anonymous"
    else "anonymous"
  }

  /** Without an explicit id or a `utm_id` the tracker reports exactly the id `getTelegramUserId` returns. */
  lemma TelegramIdAgrees(env: Environment, explicit: Option<string>)
    requires !Truthy(explicit) && !Truthy(UtmId(env))
    ensures ResolveUserId(env, explicit) == GetTelegramUserId(env)
  {
  }

  /** An explicit id wins over everything in the environment, and a `utm_id` over Telegram. */
  lemma UserIdOverrides(env1: Environment, env2: Environment, id: string)
    requires id != ""
    ensures ResolveUserId(env1, Some(id)) == id
    ensures UtmId(env1) == UtmId(env2) && Truthy(UtmId(env1)) ==> ResolveUserId(env1, None) == ResolveUserId(env2, None)
  {
  }

  // ---------------------------------------------------------------------
  // Timestamps

  /** The `Date` getters: day of month, 0-based month, year, hours, minutes, seconds. */
  datatype DateTime = DateTime(date: int, monthIndex: int, year: int, hours: int, minutes: int, seconds: int)

  predicate ValidDateTime(d: DateTime) {
    && 1 <= d.date <= 31 && 0 <= d.monthIndex <= 11
    && 0 <= d.hours <= 23 && 0 <= d.minutes <= 59 && 0 <= d.seconds <= 59
  }

  /** `String(n).padStart(2, '0')` */
  function Pad2(n: int): string {
    PadStart(IntToString(n), 2, '0')
  }

  /** "DD.MM." */
  function DatePart(d: DateTime): string {
    Pad2(d.date) + "." + Pad2(d.monthIndex + 1) + "."
  }

  /** " HH:MM:SS" */
  function TimePart(d: DateTime): string {
    " " + Pad2(d.hours) + ":" + Pad2(d.minutes) + ":" + Pad2(d.seconds)
  }

  /** "DD.MM.YYYY HH:MM:SS", the month 1-based, the year unpadded. */
  function FormatTimestamp(d: DateTime): string {
    DatePart(d) + IntToString(d.year) + TimePart(d)
  }

  /** The two-digit number at `s[k..k+2]`, if both are digits. */
  function TwoDigits(s: string, k: nat): Option<int>
    requires k + 2 <= |s|
  {
    if IsDigits(s[k..k + 2]) then Some(DigitsValue(s[k..k + 2])) else None
  }

  /** Reads a timestamp back: two-digit day and month, a year of any length, two-digit time fields. */
  function ParseTimestamp(s: string): Option<DateTime> {
    if |s| < 16 then None
    else
      var year, time := s[6..|s| - 9], s[|s| - 9..];
      var day, month := TwoDigits(s, 0), TwoDigits(s, 3);
      var hh, mm, ss := TwoDigits(time, 1), TwoDigits(time, 4), TwoDigits(time, 7);
      if s[2] == '.' && s[5] == '.' && time[0] == ' ' && time[3] == ':' && time[6] == ':' &&
         day.Some? && month.Some? && IsDigits(year) && hh.Some? && mm.Some? && ss.Some?
      then Some(DateTime(day.value, month.value - 1, DigitsValue(year), hh.value, mm.value, ss.value))
      else None
  }

  /** A field below 100 pads to exactly its two decimal digits. */
  lemma Pad2Chars(n: int)
    requires 0 <= n < 100
    ensures Pad2(n) == [Digit(n / 10), Digit(n % 10)]
  {
    NatToStringLength(n);
    if n < 10 {
      assert IntToString(n) == [Digit(n)];
      assert Pad2(n) == Repeat('0', 1) + [Digit(n)];
    } else {
      assert NatToString(n) == NatToString(n / 10) + [Digit(n % 10)];
      assert NatToString(n / 10) == [Digit(n / 10)];
    }
  }

  /** A padded field reads back as its value. */
  lemma Pad2Digits(n: int)
    requires 0 <= n < 100
    ensures Pad2(n) == [Digit(n / 10), Digit(n % 10)]
    ensures IsDigits(Pad2(n)) && DigitsValue(Pad2(n)) == n
  {
    Pad2Chars(n);
    TwoDigitsValue(n / 10, n % 10);
  }

  lemma TwoDigitsValue(a: nat, b: nat)
    requires a < 10 && b < 10
    ensures IsDigits([Digit(a), Digit(b)]) && DigitsValue([Digit(a), Digit(b)]) == 10 * a + b
  {
    var p := [Digit(a), Digit(b)];
    assert p[..1] == [Digit(a)];
    assert p[..1][..0] == [];
    assert DigitsValue(p[..1]) == a;
  }

  /** Three strings laid end to end can be cut apart again. */
  lemma ThreeParts(a: string, b: string, c: string)
    ensures var s := a + b + c;
            s[..|a|] == a && s[|a|..|s| - |c|] == b && s[|s| - |c|..] == c
  {
  }

  /** A padded field found at `p[k..k+2]` reads back as its value. */
  lemma FieldRead(p: string, k: nat, n: int)
    requires 0 <= n < 100 && k + 2 <= |p| && p[k..k + 2] == Pad2(n)
    ensures TwoDigits(p, k) == Some(n)
  {
    Pad2Digits(n);
  }

  lemma DatePartRead(d: DateTime)
    requires ValidDateTime(d)
    ensures var p := DatePart(d);
            && |p| == 6 && p[2] == '.' && p[5] == '.'
            && TwoDigits(p, 0) == Some(d.date) && TwoDigits(p, 3) == Some(d.monthIndex + 1)
  {
    var dd, mm := Pad2(d.date), Pad2(d.monthIndex + 1);
    Pad2Chars(d.date);
    Pad2Chars(d.monthIndex + 1);
    var p := DatePart(d);
    assert p == dd + "." + mm + ".";
    assert p[0..2] == dd;
    assert p[3..5] == mm;
    FieldRead(p, 0, d.date);
    FieldRead(p, 3, d.monthIndex + 1);
  }

  lemma TimePartRead(d: DateTime)
    requires ValidDateTime(d)
    ensures var p := TimePart(d);
            && |p| == 9 && p[0] == ' ' && p[3] == ':' && p[6] == ':'
            && TwoDigits(p, 1) == Some(d.hours) && TwoDigits(p, 4) == Some(d.minutes) && TwoDigits(p, 7) == Some(d.seconds)
  {
    var hh, mm, ss := Pad2(d.hours), Pad2(d.minutes), Pad2(d.seconds);
    Pad2Chars(d.hours);
    Pad2Chars(d.minutes);
    Pad2Chars(d.seconds);
    TimeLayout(hh, mm, ss);
    var p := TimePart(d);
    FieldRead(p, 1, d.hours);
    FieldRead(p, 4, d.minutes);
    FieldRead(p, 7, d.seconds);
  }

  /** Where the separators and the fields of " HH:MM:SS" sit. */
  lemma TimeLayout(hh: string, mm: string, ss: string)
    requires |hh| == 2 && |mm| == 2 && |ss| == 2
    ensures var p := " " + hh + ":" + mm + ":" + ss;
            && |p| == 9 && p[0] == ' ' && p[3] == ':' && p[6] == ':'
            && p[1..3] == hh && p[4..6] == mm && p[7..9] == ss
  {
  }

  /** Two-digit fields read the same inside a longer string. */
  lemma TwoDigitsWithin(s: string, start: nat, len: nat, k: nat)
    requires start + len <= |s| && k + 2 <= len
    ensures TwoDigits(s[start..start + len], k) == TwoDigits(s, start + k)
  {
    var t := s[start..start + len];
    assert t[k] == s[start + k] && t[k + 1] == s[start + k + 1];
    assert t[k..k + 2] == s[start + k..start + k + 2];
  }

  /** A date part, a year and a time part that read correctly give back the whole date. */
  lemma ParseOfParts(date: string, year: string, time: string, d: DateTime)
    requires |date| == 6 && date[2] == '.' && date[5] == '.'
    requires TwoDigits(date, 0) == Some(d.date) && TwoDigits(date, 3) == Some(d.monthIndex + 1)
    requires |year| >= 1 && IsDigits(year) && DigitsValue(year) == d.year
    requires |time| == 9 && time[0] == ' ' && time[3] == ':' && time[6] == ':'
    requires TwoDigits(time, 1) == Some(d.hours) && TwoDigits(time, 4) == Some(d.minutes) && TwoDigits(time, 7) == Some(d.seconds)
    ensures ParseTimestamp(date + year + time) == Some(d)
  {
    var s := date + year + time;
    ThreeParts(date, year, time);
    TwoDigitsWithin(s, 0, 6, 0);
    TwoDigitsWithin(s, 0, 6, 3);
    assert s[0..6] == date;
    assert s[2] == date[2] && s[5] == date[5];
  }

  /** Parsing a formatted timestamp gives back every field: the format is zero-padded and unambiguous. */
  lemma TimestampRoundTrip(d: DateTime)
    requires ValidDateTime(d) && d.year >= 0
    ensures ParseTimestamp(FormatTimestamp(d)) == Some(d)
  {
    var date, year, time := DatePart(d), NatToString(d.year), TimePart(d);
    assert FormatTimestamp(d) == date + year + time;
    DatePartRead(d);
    TimePartRead(d);
    NatToStringRoundTrip(d.year);
    ParseOfParts(date, year, time, d);
  }

  // ---------------------------------------------------------------------
  // trackSectionVisit

  /** The JSON body posted to the Apps Script. */
  datatype AnalyticsData = AnalyticsData(userId: string, fullName: string, section: string, timestamp: string)

  /** What one call does: nothing (URL not configured), a POST of the data, or an exception escaping it. */
  datatype Tracked = NotConfigured | Posted(data: AnalyticsData) | Threw(error: string)

  const ReferenceError: string := "ReferenceError: window is not defined"

  /** `trackSectionVisit` as written: `utm_fullname`, already decoded by
      `URLSearchParams`, is passed through `decodeURIComponent` again outside
      the `try`, and `window.location` is read a second time without the
      `typeof window` guard. */
  function TrackedAsWritten(url: string, section: AppSection, userId: Option<string>, env: Environment, now: DateTime): Tracked {
    if Contains(url, Placeholder) then NotConfigured
    else
      var name := if Truthy(UtmFullName(env)) then DecodeUriComponent(UtmFullName(env).value) else Success(ResolveFullName(env));
      if name.Failure? then Threw(name.error)
      else if env.NoWindow? then Threw(ReferenceError)
      else Posted(AnalyticsData(ResolveUserId(env, userId), name.value, SectionKey(section), FormatTimestamp(now)))
  }

  /** A display name with a literal percent sign, `utm_fullname=100%25`,
      makes the as-written tracker throw URIError, and so does a missing
      `window` with ReferenceError, although the function is meant never to
      throw; the intended tracker reports the name as given. */
  lemma TrackerThrows(url: string, now: DateTime)
    requires !Contains(url, Placeholder)
    ensures var env := Browser([("utm_fullname", "100%")], None);
            && TrackedAsWritten(url, Horoscope, None, env, now) == Threw(UriError)
            && ResolveFullName(env) == "100%"
    ensures TrackedAsWritten(url, Horoscope, None, NoWindow, now) == Threw(ReferenceError)
  {
    TrailingPercentFails("100%", 0);
    DecodeErrorIsUriError("100%", 0);
  }

  /** Wherever a window exists and the second decode of the name succeeds,
      the as-written tracker posts what the intended one posts. */
  lemma TrackersAgree(url: string, section: AppSection, userId: Option<string>, env: Environment, now: DateTime)
    requires env.Browser? && !Contains(url, Placeholder)
    requires Truthy(UtmFullName(env)) ==> DecodeUriComponent(UtmFullName(env).value).Success?
    ensures TrackedAsWritten(url, section, userId, env, now)
            == Posted(AnalyticsData(ResolveUserId(env, userId), ResolveFullName(env), SectionKey(section), FormatTimestamp(now)))
  {
  }

  /** A name without `%` survives the second decode, so on such names the
      two trackers agree. */
  lemma TrackersAgreeOnPlainNames(url: string, section: AppSection, userId: Option<string>, env: Environment, now: DateTime)
    requires env.Browser? && !Contains(url, Placeholder)
    requires Truthy(UtmFullName(env)) ==> forall i :: 0 <= i < |UtmFullName(env).value| ==> UtmFullName(env).value[i] != '%'
    ensures ResolveFullName(env) == (if Truthy(UtmFullName(env)) then UtmFullName(env).value else ResolveFullName(env))
    ensures TrackedAsWritten(url, section, userId, env, now)
            == Posted(AnalyticsData(ResolveUserId(env, userId), ResolveFullName(env), SectionKey(section), FormatTimestamp(now)))
  {
    if Truthy(UtmFullName(env)) {
      DecodePlain(UtmFullName(env).value, 0);
    }
    TrackersAgree(url, section, userId, env, now);
  }

  /** `?utm_fullname=%2541` reaches the tracker as `%41`; both trackers
      decode that once more and post the name `A`. */
  lemma DoublyEncodedName(url: string, now: DateTime)
    requires !Contains(url, Placeholder)
    ensures var env := Browser([("utm_fullname", "%41")], None);
            && ResolveFullName(env) == "A"
            && TrackedAsWritten(url, Horoscope, None, env, now)
               == Posted(AnalyticsData("anonymous", "A", SectionKey(Horoscope), FormatTimestamp(now)))
  {
    var env := Browser([("utm_fullname", "%41")], None);
    assert QueryParam(env.query, "utm_fullname") == Some("%41");
    assert QueryParam(env.query, "utm_id") == None;
    assert ResolveUserId(env, None) == "anonymous";
    DecodeExamples();
    assert DecodeOrKeep("%41") == "A";
  }

  /** `trackSectionVisit`, with the second decode of `utm_fullname` inside a
      `try` that keeps the value as given, and the second window access
      guarded: it never throws, and posts the resolved id and name, the
      section key and the formatted time. */
  method TrackSectionVisit(url: string, section: AppSection, userId: Option<string>, env: Environment, now: DateTime)
    returns (t: Tracked)
    ensures Contains(url, Placeholder) <==> t == NotConfigured
    ensures !t.Threw?
    ensures t.Posted? ==> t.data == AnalyticsData(ResolveUserId(env, userId), ResolveFullName(env), SectionKey(section), FormatTimestamp(now))
  {
    if Contains(url, Placeholder) {
      return NotConfigured;
    }
    var telegramUserId := "anonymous";
    var fullName := "Anonymous";
    if env.Browser? {
      var utmId := QueryParam(env.query, "utm_id");
      var utmFullName := QueryParam(env.query, "utm_fullname");
      if Truthy(utmId) {
        telegramUserId := utmId.value;
      }
      if Truthy(utmFullName) {
        var decoded := DecodeUriComponent(utmFullName.value);
        fullName := if decoded.Success? then decoded.value else utmFullName.value;
      }
      if !Truthy(utmId) || !Truthy(utmFullName) {
        if env.webApp.Some? {
          var user := env.webApp.value.user;
          if user.Some? {
            if !Truthy(utmId) {
              telegramUserId := TelegramId(user.value);
            }
            if !Truthy(utmFullName) {
              var firstName := user.value.firstName.GetOr("");
              var lastName := user.value.lastName.GetOr("");
              var full := Trim(firstName + " " + lastName);
              fullName := if full != "" then full else if Truthy(user.value.username) then user.value.username.value else "Anonymous";
            }
          }
        }
      }
    }
    if Truthy(userId) {
      telegramUserId := userId.value;
    }
    var formattedTimestamp := FormatTimestamp(now);
    t := Posted(AnalyticsData(telegramUserId, fullName, SectionKey(section), formattedTimestamp));
  }
}
