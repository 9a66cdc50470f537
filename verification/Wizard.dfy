/**
 * The five-step event-creation wizard: the step cursor, the entry guard that
 * admits a stored session token, the submit that builds the create-event
 * request, and the component state (`currentStep`, the draft, `token`) with
 * one method per handler.
 */
module Wizard {
  import opened Wrappers
  import opened Draft
  import opened Session

  const TotalSteps := 5

  // ---------------------------------------------------------------------------
  // Step cursor
  // ---------------------------------------------------------------------------

  /** `Math.min(prev + 1, totalSteps)`: one step forward, never past the review step. */
  function NextStep(s: int): (r: int)
    ensures 1 <= s <= TotalSteps ==> s <= r <= TotalSteps && r <= s + 1
    ensures r == TotalSteps <==> s >= TotalSteps - 1
  {
    if s + 1 < TotalSteps then s + 1 else TotalSteps
  }

  /** `Math.max(prev - 1, 1)`: one step back, never before the first step. */
  function BackStep(s: int): (r: int)
    ensures 1 <= s <= TotalSteps ==> 1 <= r <= s && s - 1 <= r
    ensures r == 1 <==> s <= 2
  {
    if s - 1 > 1 then s - 1 else 1
  }

  /** The review sections of step 5, each with a pencil control back to its step. */
  datatype Section = BasicDetails | DateTime | Ticketing | Poster

  function SectionStep(sec: Section): (s: int)
    ensures 1 <= s < TotalSteps
  {
    match sec
    case BasicDetails => 1
    case DateTime => 2
    case Ticketing => 3
    case Poster => 4
  }

  /** The buttons shown under each step. */
  predicate BackOffered(s: int) { s > 1 }
  predicate NextOffered(s: int) { s < TotalSteps }
  predicate SubmitOffered(s: int) { s == TotalSteps }
  predicate JumpBackOffered(s: int) { s == TotalSteps }

  /** On every step exactly one of Next and Submit is shown, and Back everywhere but step 1. */
  lemma OfferedButtons(s: int)
    requires 1 <= s <= TotalSteps
    ensures NextOffered(s) != SubmitOffered(s)
    ensures BackOffered(s) <==> s != 1
  {
  }

  /** Next on the last step and Back on the first are no-ops; otherwise each undoes the other. */
  lemma NextBackInverse(s: int)
    requires 1 <= s <= TotalSteps
    ensures NextStep(TotalSteps) == TotalSteps && BackStep(1) == 1
    ensures s < TotalSteps ==> NextStep(s) == s + 1 && BackStep(NextStep(s)) == s
    ensures s > 1 ==> BackStep(s) == s - 1 && NextStep(BackStep(s)) == s
  {
  }

  datatype Move = Next | Back | JumpTo(section: Section)

  /** The step after one move; a jump is only available on the review step. */
  function Step(s: int, m: Move): int {
    match m
    case Next => NextStep(s)
    case Back => BackStep(s)
    case JumpTo(sec) => if JumpBackOffered(s) then SectionStep(sec) else s
  }

  /** The step after a sequence of moves, applied left to right. */
  function Walk(s: int, ms: seq<Move>): int
    decreases |ms|
  {
    if ms == [] then s else Walk(Step(s, ms[0]), ms[1..])
  }

  /** Whatever moves are made, the cursor stays within steps 1 to 5. */
  lemma {:induction false} WalkStaysInRange(s: int, ms: seq<Move>)
    requires 1 <= s <= TotalSteps
    ensures 1 <= Walk(s, ms) <= TotalSteps
    decreases |ms|
  {
    if ms != [] {
      WalkStaysInRange(Step(s, ms[0]), ms[1..]);
    }
  }

  /** Four Next presses take the wizard from step 1 to the review step; a fifth stays there. */
  lemma {:induction false} ReviewAfterFourNext()
    ensures Walk(1, [Next, Next, Next, Next]) == TotalSteps
    ensures Walk(1, [Next, Next, Next, Next, Next]) == TotalSteps
  {
    assert [Next, Next, Next, Next, Next][1..] == [Next, Next, Next, Next];
    assert [Next, Next, Next, Next][1..] == [Next, Next, Next];
    assert [Next, Next, Next][1..] == [Next, Next];
    assert [Next, Next][1..] == [Next];
    assert [Next][1..] == [];
  }

  // ---------------------------------------------------------------------------
  // Session token
  // ---------------------------------------------------------------------------

  /**
   * The claims read from a token's payload segment. `exp` is the number the
   * claim coerces to under `*`, which need not be whole (a NumericDate may
   * carry a fraction of a second): `None` when the claim is absent, coerces to
   * `NaN` or to `+Infinity` (`undefined * 1000 < now` and `Infinity < now` are
   * false, so such a payload never counts as expired); a `null` claim coerces
   * to `Some(0.0)`, and `true` or a numeric string to its number, so each of
   * those can expire. `-Infinity` is below every clock reading, as any
   * negative `exp` is, since `Date.now()` is never negative.
   */
  datatype Payload = Payload(exp: Option<real>, userId: Option<string>)

  /** `payload.exp * 1000 < Date.now()`, with `exp` in seconds and the clock in whole milliseconds. */
  predicate Expired(p: Payload, nowMs: int) {
    p.exp.Some? && p.exp.value * 1000.0 < nowMs as real
  }

  /**
   * The entry guard: the token the wizard keeps, or `None` when it redirects to
   * the login page. A missing or empty stored value, a payload that cannot be
   * decoded (`decode` yields `None`) and an expired one all redirect.
   */
  function EntryToken(stored: Option<string>, decode: string -> Option<Payload>, nowMs: int): (r: Option<string>)
    ensures r.Some? ==> r == stored && r.value != "" && decode(r.value).Some?
  {
    match stored
    case None => None
    case Some(t) =>
      if t == "" then None
      else match decode(t)
        case None => None
        case Some(p) => if Expired(p, nowMs) then None else Some(t)
  }

  /** A token is admitted exactly when it is stored, non-empty, decodes, and has not expired. */
  lemma EntryTokenAdmits(stored: Option<string>, decode: string -> Option<Payload>, nowMs: int)
    ensures EntryToken(stored, decode, nowMs).Some? <==>
      stored.Some? && stored.value != "" && decode(stored.value).Some? && !Expired(decode(stored.value).value, nowMs)
    ensures EntryToken(stored, decode, nowMs).Some? ==> EntryToken(stored, decode, nowMs) == stored
  {
  }

  /** A token whose expiry lies ten seconds in the past is refused. */
  lemma ExpiredTenSecondsAgo(t: string, decode: string -> Option<Payload>, nowSeconds: int)
    requires decode(t).Some? && decode(t).value.exp == Some((nowSeconds - 10) as real)
    ensures EntryToken(Some(t), decode, nowSeconds * 1000) == None
  {
  }

  /**
   * An `exp` of 1.5 seconds admits the token at 1200 ms and refuses it at
   * 1600 ms; no whole-second `exp` does both.
   */
  lemma FractionalExpiry(t: string, decode: string -> Option<Payload>, e: int)
    requires t != "" && decode(t).Some? && decode(t).value.exp == Some(1.5)
    ensures EntryToken(Some(t), decode, 1200) == Some(t)
    ensures EntryToken(Some(t), decode, 1600) == None
    ensures Expired(Payload(Some(e as real), None), 1200) || !Expired(Payload(Some(e as real), None), 1600)
  {
  }

  /** `extractCreatorId`: the `userId` claim, `""` when the token cannot be decoded, absent when the claim is. */
  function CreatorId(token: string, decode: string -> Option<Payload>): (r: Option<string>)
    ensures r == Some("") ==> decode(token).None? || decode(token).value.userId == Some("")
    ensures r.None? ==> decode(token).Some? && decode(token).value.userId.None?
  {
    match decode(token)
    case None => Some("")
    case Some(p) => p.userId
  }

  /**
   * For the token the entry guard admitted, the creator id is that token's
   * `userId` claim: the empty fallback arises only for a token that does not decode.
   */
  lemma AdmittedTokenNamesCreator(stored: Option<string>, decode: string -> Option<Payload>, nowMs: int)
    ensures EntryToken(stored, decode, nowMs).Some? ==>
            CreatorId(stored.value, decode) == decode(stored.value).value.userId
    ensures stored.Some? && decode(stored.value).None? ==> CreatorId(stored.value, decode) == Some("")
  {
  }

  // ---------------------------------------------------------------------------
  // Time of day
  // ---------------------------------------------------------------------------

  /** `s.split(sep)` for a one-character separator: the pieces between separators, left to right. */
  function Split(s: string, sep: char): (parts: seq<string>)
    ensures |parts| >= 1
  {
    if s == [] then [""]
    else
      var rest := Split(s[1..], sep);
      if s[0] == sep then [""] + rest else [[s[0]] + rest[0]] + rest[1..]
  }

  /** `parts.join(sep)` */
  function Join(parts: seq<string>, sep: char): string
    requires |parts| >= 1
    decreases |parts|
  {
    if |parts| == 1 then parts[0] else parts[0] + [sep] + Join(parts[1..], sep)
  }

  /** Joining the pieces back with the separator gives the text that was split. */
  lemma {:induction false} JoinSplit(s: string, sep: char)
    ensures Join(Split(s, sep), sep) == s
    decreases |s|
  {
    if s != [] {
      var rest := Split(s[1..], sep);
      JoinSplit(s[1..], sep);
      if s[0] == sep {
        assert Split(s, sep)[1..] == rest;
      } else {
        var parts := Split(s, sep);
        if |rest| == 1 {
          assert Join(parts, sep) == [s[0]] + rest[0];
        } else {
          assert parts[1..] == rest[1..];
          assert Join(parts, sep) == [s[0]] + rest[0] + [sep] + Join(rest[1..], sep);
        }
      }
    }
  }

  /** A text without the separator is a single piece. */
  lemma {:induction false} SplitNoSeparator(a: string, sep: char)
    requires sep !in a
    ensures Split(a, sep) == [a]
    decreases |a|
  {
    if a != [] {
      SplitNoSeparator(a[1..], sep);
      assert [a[0]] + a[1..] == a;
    }
  }

  /** The first separator ends the first piece. */
  lemma {:induction false} SplitAtSeparator(a: string, sep: char, b: string)
    requires sep !in a
    ensures Split(a + [sep] + b, sep) == [a] + Split(b, sep)
    decreases |a|
  {
    var s := a + [sep] + b;
    if a == [] {
      assert s[1..] == b;
    } else {
      assert s[1..] == a[1..] + [sep] + b;
      SplitAtSeparator(a[1..], sep, b);
      assert [a[0]] + a[1..] == a;
    }
  }

  /** The characters `parseInt` skips before the number: white space and line terminators. */
  predicate IsJsSpace(c: char) {
    c == '\t' || c == '\n' || c == '\U{B}' || c == '\U{C}' || c == '\r' || c == ' ' ||
    c == '\U{A0}' || c == '\U{1680}' || '\U{2000}' <= c <= '\U{200A}' ||
    c == '\U{2028}' || c == '\U{2029}' || c == '\U{202F}' || c == '\U{205F}' ||
    c == '\U{3000}' || c == '\U{FEFF}'
  }

  function TrimStart(s: string): (r: string)
    ensures r != [] ==> !IsJsSpace(r[0])
  {
    if s != [] && IsJsSpace(s[0]) then TrimStart(s[1..]) else s
  }

  /** Trimming drops a run of leading white space and nothing else: the result is a suffix of the text. */
  lemma {:induction false} TrimStartDropsOnlySpace(s: string)
    ensures |TrimStart(s)| <= |s| && TrimStart(s) == s[|s| - |TrimStart(s)|..]
    ensures forall i :: 0 <= i < |s| - |TrimStart(s)| ==> IsJsSpace(s[i])
    decreases |s|
  {
    if s != [] && IsJsSpace(s[0]) {
      TrimStartDropsOnlySpace(s[1..]);
      assert s[1..][|s| - 1 - |TrimStart(s)|..] == s[|s| - |TrimStart(s)|..];
      forall i | 0 <= i < |s| - |TrimStart(s)| ensures IsJsSpace(s[i]) {
        if i > 0 {
          assert s[i] == s[1..][i - 1];
        }
      }
    }
  }

  /** White space in front of text that does not start with white space is trimmed away exactly. */
  lemma {:induction false} TrimStartSkips(w: string, x: string)
    requires forall i :: 0 <= i < |w| ==> IsJsSpace(w[i])
    requires x == [] || !IsJsSpace(x[0])
    ensures TrimStart(w + x) == x
    decreases |w|
  {
    if w != [] {
      assert (w + x)[1..] == w[1..] + x;
      TrimStartSkips(w[1..], x);
    }
  }

  predicate IsDigit(c: char) { '0' as int <= c as int <= '9' as int }

  /** The longest run of decimal digits at the start of `s`. */
  function DigitPrefix(s: string): (ds: string)
    ensures |ds| <= |s| && ds == s[..|ds|]
    ensures forall i :: 0 <= i < |ds| ==> IsDigit(ds[i])
    ensures |ds| < |s| ==> !IsDigit(s[|ds|])
  {
    if s != [] && IsDigit(s[0]) then [s[0]] + DigitPrefix(s[1..]) else []
  }

  /** The number a run of decimal digits spells. */
  function DigitsValue(ds: string): (n: int)
    requires forall i :: 0 <= i < |ds| ==> IsDigit(ds[i])
    ensures n >= 0
  {
    if ds == [] then 0
    else
      var last := ds[|ds| - 1];
      assert IsDigit(last);
      DigitsValue(ds[..|ds| - 1]) * 10 + (last as int - '0' as int)
  }

  /** The text after one leading sign, if there is one. */
  function Unsigned(t: string): string {
    if t != [] && (t[0] == '-' || t[0] == '+') then t[1..] else t
  }

  /**
   * `parseInt(s, 10)`, with `None` for `NaN`: leading white space is skipped,
   * one sign is read, then the longest run of digits; no digit at all is `NaN`.
   */
  function ParseInt(s: string): Option<int> {
    var t := TrimStart(s);
    var ds := DigitPrefix(Unsigned(t));
    if ds == [] then None
    else if t[0] == '-' then Some(0 - DigitsValue(ds))
    else Some(DigitsValue(ds))
  }

  /** A digit run followed by a non-digit is exactly the run `parseInt` reads. */
  lemma {:induction false} DigitPrefixOf(ds: string, rest: string)
    requires forall i :: 0 <= i < |ds| ==> IsDigit(ds[i])
    requires rest == [] || !IsDigit(rest[0])
    ensures DigitPrefix(ds + rest) == ds
    decreases |ds|
  {
    if ds != [] {
      assert (ds + rest)[1..] == ds[1..] + rest;
      DigitPrefixOf(ds[1..], rest);
      assert [ds[0]] + ds[1..] == ds;
    }
  }

  /** Every character is white space to `parseInt`. */
  predicate AllSpace(w: string) { forall i :: 0 <= i < |w| ==> IsJsSpace(w[i]) }

  /** Every character is a decimal digit. */
  predicate AllDigits(ds: string) { forall i :: 0 <= i < |ds| ==> IsDigit(ds[i]) }

  /** One sign before a digit is read as the sign and dropped from the digits. */
  lemma UnsignedOf(sign: string, body: string)
    requires sign == "" || sign == "-" || sign == "+"
    requires body != [] && IsDigit(body[0])
    ensures Unsigned(sign + body) == body
    ensures (sign + body)[0] == '-' <==> sign == "-"
    ensures !IsJsSpace((sign + body)[0])
  {
    if sign != "" {
      assert (sign + body)[1..] == body;
    }
  }

  /**
   * `parseInt` reads white space, then an optional sign, then a run of digits,
   * and ignores whatever follows the run.
   */
  lemma ParseIntReadsNumber(w: string, sign: string, ds: string, rest: string)
    requires AllSpace(w)
    requires sign == "" || sign == "-" || sign == "+"
    requires ds != [] && AllDigits(ds)
    requires rest == [] || !IsDigit(rest[0])
    ensures ParseInt(w + (sign + (ds + rest))) == Some(if sign == "-" then 0 - DigitsValue(ds) else DigitsValue(ds))
  {
    var body := ds + rest;
    var x := sign + body;
    assert body[0] == ds[0];
    UnsignedOf(sign, body);
    TrimStartSkips(w, x);
    DigitPrefixOf(ds, rest);
    ParseIntOfPieces(w + x, x, ds);
  }

  /** `parseInt` in its three stages: white space skipped, sign read, digits read. */
  lemma ParseIntOfPieces(s: string, x: string, ds: string)
    requires TrimStart(s) == x && ds != [] && DigitPrefix(Unsigned(x)) == ds
    ensures ParseInt(s) == Some(if x[0] == '-' then 0 - DigitsValue(ds) else DigitsValue(ds))
  {
  }

  /** Text with no digit at all parses to `NaN`. */
  lemma ParseIntNoDigits(s: string)
    requires forall i :: 0 <= i < |s| ==> !IsDigit(s[i])
    ensures ParseInt(s) == None
  {
    TrimStartDropsOnlySpace(s);
    var t := TrimStart(s);
    var u := Unsigned(t);
    assert forall i :: 0 <= i < |t| ==> t[i] == s[|s| - |t| + i];
    assert u == [] || !IsDigit(u[0]) by {
      if u != [] {
        if t[0] == '-' || t[0] == '+' {
          assert u[0] == t[1];
        }
      }
    }
  }

  /** Two digits read as a number, with or without a leading zero. */
  lemma ParseTwoDigits(a: int, b: int)
    requires 0 <= a < 10 && 0 <= b < 10
    ensures ParseInt([DigitChar(a), DigitChar(b)]) == Some(10 * a + b)
  {
    var s := [DigitChar(a), DigitChar(b)];
    assert TrimStart(s) == s;
    assert Unsigned(s) == s;
    assert DigitPrefix(s[1..]) == s[1..] by {
      assert s[1..][1..] == [];
    }
    assert DigitPrefix(s) == s;
    assert s[..1] == [DigitChar(a)];
    assert [DigitChar(a)][..0] == [];
    assert DigitsValue([DigitChar(a)]) == a;
    assert DigitsValue(s) == 10 * a + b;
    assert s[0] != '-';
  }

  datatype TimeOfDay = TimeOfDay(hour: int, minute: int)

  /**
   * `const [h, m] = time.split(':')` followed by `parseInt(h, 10)` and
   * `parseInt(m, 10)`: `None` when either is `NaN`, which a missing minute
   * (`parseInt(undefined)`) also is. `setHours` with a `NaN` argument makes
   * the date invalid, and `toISOString` on an invalid date throws.
   */
  function ParseTime(time: string): Option<TimeOfDay> {
    var parts := Split(time, ':');
    if |parts| < 2 then None
    else
      var h := ParseInt(parts[0]);
      var m := ParseInt(parts[1]);
      if h.Some? && m.Some? then Some(TimeOfDay(h.value, m.value)) else None
  }

  lemma ParseTimeOfParts(t: string, hh: string, mm: string, h: int, m: int)
    requires Split(t, ':') == [hh, mm] && ParseInt(hh) == Some(h) && ParseInt(mm) == Some(m)
    ensures ParseTime(t) == Some(TimeOfDay(h, m))
  {
  }

  function DigitChar(d: int): (c: char)
    requires 0 <= d < 10
    ensures IsDigit(c) && c as int - '0' as int == d
  {
    ('0' as int + d) as char
  }

  /** The `HH:mm` text the time picker reports for a chosen time. */
  function PickerValue(h: int, m: int): string
    requires 0 <= h < 24 && 0 <= m < 60
  {
    [DigitChar(h / 10), DigitChar(h % 10), ':', DigitChar(m / 10), DigitChar(m % 10)]
  }

  lemma ParseFourDigits(s: string, a: int, b: int, c: int, d: int)
    requires 0 <= a < 10 && 0 <= b < 10 && 0 <= c < 10 && 0 <= d < 10
    requires s == [DigitChar(a), DigitChar(b)] + [':'] + [DigitChar(c), DigitChar(d)]
    ensures ParseTime(s) == Some(TimeOfDay(10 * a + b, 10 * c + d))
  {
    var hh := [DigitChar(a), DigitChar(b)];
    var mm := [DigitChar(c), DigitChar(d)];
    SplitNoSeparator(mm, ':');
    SplitAtSeparator(hh, ':', mm);
    ParseTwoDigits(a, b);
    ParseTwoDigits(c, d);
    ParseTimeOfParts(s, hh, mm, 10 * a + b, 10 * c + d);
  }

  /** Every time the picker can report parses back to that hour and minute. */
  lemma ParsePickerValue(h: int, m: int)
    requires 0 <= h < 24 && 0 <= m < 60
    ensures ParseTime(PickerValue(h, m)) == Some(TimeOfDay(h, m))
  {
    var s := PickerValue(h, m);
    assert s == [DigitChar(h / 10), DigitChar(h % 10)] + [':'] + [DigitChar(m / 10), DigitChar(m % 10)];
    ParseFourDigits(s, h / 10, h % 10, m / 10, m % 10);
  }

  /**
   * A cleared picker stores the empty text, and so does the initial draft:
   * neither parses, and neither does an hour without minutes.
   */
  lemma UnsetTimeDoesNotParse()
    ensures ParseTime("") == None
    ensures ParseTime(InitialEventData.startTime) == None && ParseTime(InitialEventData.endTime) == None
    ensures ParseTime("14") == None
  {
  }

  // ---------------------------------------------------------------------------
  // Submit
  // ---------------------------------------------------------------------------

  /**
   * The JSON event descriptor. Each timestamp is kept as the date it is built
   * on and the parsed time of day; their rendering as ISO strings is not modelled.
   */
  datatype EventPayload = EventPayload(
    eventName: string,
    startDate: Option<Date>,
    startTime: TimeOfDay,
    endDate: Option<Date>,
    endTime: TimeOfDay,
    eventVenue: string,
    eventCapacity: int,
    creatorId: Option<string>,
    ticketType: seq<Ticket>,
    eventTypeIds: seq<int>)

  /** The multipart create-event request: the descriptor, the poster part if any, and the authorization header. */
  datatype CreateRequest = CreateRequest(event: EventPayload, poster: Option<PosterFile>, authorization: string)

  /**
   * How a submit ends: a redirect to the login page, a `RangeError` from
   * `toISOString` on a timestamp whose time does not parse (nothing is sent,
   * and the error escapes the handler), or the create-event request.
   */
  datatype SubmitOutcome = RedirectToLogin | TimestampThrows | Post(request: CreateRequest)

  class EventCreationWizard {
    var currentStep: int
    var draft: EventData
    var token: Option<string>

    predicate Valid()
      reads this
    {
      1 <= currentStep <= TotalSteps
    }

    constructor ()
      ensures Valid()
      ensures currentStep == 1 && draft == InitialEventData && token == None
      ensures DatesInSync(draft) && Distinct(draft.eventTypes)
    {
      currentStep := 1;
      draft := InitialEventData;
      token := None;
    }

    /** The mount effect: admit the stored token, or report a redirect to the login page and keep `token`. */
    method Enter(stored: Option<string>, decode: string -> Option<Payload>, nowMs: int) returns (redirectToLogin: bool)
      modifies this`token
      ensures redirectToLogin <==> EntryToken(stored, decode, nowMs).None?
      ensures token == if redirectToLogin then old(token) else stored
    {
      EntryTokenAdmits(stored, decode, nowMs);
      var admitted := EntryToken(stored, decode, nowMs);
      redirectToLogin := admitted.None?;
      if !redirectToLogin {
        token := admitted;
      }
    }

    method HandleNext()
      requires Valid()
      modifies this`currentStep
      ensures Valid() && currentStep == Step(old(currentStep), Next)
      ensures draft == old(draft) && token == old(token)
    {
      currentStep := NextStep(currentStep);
    }

    method HandleBack()
      requires Valid()
      modifies this`currentStep
      ensures Valid() && currentStep == Step(old(currentStep), Back)
      ensures draft == old(draft) && token == old(token)
    {
      currentStep := BackStep(currentStep);
    }

    /** A pencil control of the review step, which jumps straight back to that section's step. */
    method NavigateToStep(sec: Section)
      requires Valid() && JumpBackOffered(currentStep)
      modifies this`currentStep
      ensures Valid() && currentStep == Step(old(currentStep), JumpTo(sec))
      ensures draft == old(draft) && token == old(token)
    {
      currentStep := SectionStep(sec);
    }

    /** `updateEventData`: shallow-merge a partial draft into the draft. */
    method UpdateEventData(p: Patch)
      modifies this`draft
      ensures draft == Merge(old(draft), p)
    {
      draft := Merge(draft, p);
    }

    method ToggleEventType(id: int)
      modifies this`draft
      ensures draft == old(draft).(eventTypes := Toggle(old(draft.eventTypes), id))
      ensures Distinct(old(draft.eventTypes)) ==> Distinct(draft.eventTypes)
    {
      if Distinct(draft.eventTypes) {
        ToggleKeepsDistinct(draft.eventTypes, id);
      }
      UpdateEventData(NoChange.(eventTypes := Some(Toggle(draft.eventTypes, id))));
    }

    /** Picking the event date; a single-day event also takes it as its end date. */
    method HandleDateChange(date: Option<Date>)
      modifies this`draft
      ensures draft == old(draft).(eventDate := date,
                                   eventEndDate := if old(draft.isMultiDay) then old(draft.eventEndDate) else date)
      ensures DatesInSync(old(draft)) ==> DatesInSync(draft)
      ensures !draft.isMultiDay ==> draft.eventEndDate == date
    {
      var multi := draft.isMultiDay;
      UpdateEventData(NoChange.(eventDate := Some(date)));
      if !multi {
        UpdateEventData(NoChange.(eventEndDate := Some(date)));
      }
    }

    /** The multi-day checkbox; turning it off collapses the end date onto the start date. */
    method HandleMultiDayToggle(isMulti: bool)
      modifies this`draft
      ensures draft == old(draft).(isMultiDay := isMulti,
                                   eventEndDate := if isMulti then old(draft.eventEndDate) else old(draft.eventDate))
      ensures DatesInSync(draft)
    {
      var date := draft.eventDate;
      UpdateEventData(NoChange.(isMultiDay := Some(isMulti)));
      if !isMulti {
        UpdateEventData(NoChange.(eventEndDate := Some(date)));
      }
    }

    /** The end-date picker, which is only shown for a multi-day event. */
    method SetEndDate(date: Option<Date>)
      requires draft.isMultiDay
      modifies this`draft
      ensures draft == old(draft).(eventEndDate := date)
      ensures DatesInSync(draft)
    {
      UpdateEventData(NoChange.(eventEndDate := Some(date)));
    }

    /** The start-time picker; clearing it stores the empty text. */
    method SetStartTime(time: Option<string>)
      modifies this`draft
      ensures draft == old(draft).(startTime := time.GetOr(""))
    {
      UpdateEventData(NoChange.(startTime := Some(time.GetOr(""))));
    }

    /** The end-time picker; clearing it stores the empty text. */
    method SetEndTime(time: Option<string>)
      modifies this`draft
      ensures draft == old(draft).(endTime := time.GetOr(""))
    {
      UpdateEventData(NoChange.(endTime := Some(time.GetOr(""))));
    }

    /** Step 4's file input: the first chosen file replaces the poster; an empty choice keeps it. */
    method SelectPoster(files: seq<PosterFile>)
      modifies this`draft
      ensures draft == if files == [] then old(draft) else old(draft).(posterFile := Some(files[0]))
    {
      if files != [] {
        UpdateEventData(NoChange.(posterFile := Some(Some(files[0]))));
      }
    }

    method AddTicket()
      modifies this`draft
      ensures draft == old(draft).(tickets := old(draft.tickets) + [DefaultTicket])
      ensures TotalTickets(draft.tickets) == TotalTickets(old(draft.tickets))
    {
      AddTicketKeepsTotal(draft.tickets);
      UpdateEventData(NoChange.(tickets := Some(draft.tickets + [DefaultTicket])));
    }

    /** Replace the tier at `index`; the index comes from the rendered list, so it is in range. */
    method UpdateTicket(index: int, t: Ticket)
      requires 0 <= index < |draft.tickets|
      modifies this`draft
      ensures draft == old(draft).(tickets := old(draft.tickets)[index := t])
      ensures |draft.tickets| == |old(draft.tickets)|
      ensures TotalTickets(draft.tickets) ==
              TotalTickets(old(draft.tickets)) - old(draft.tickets)[index].numberOfTickets + t.numberOfTickets
    {
      UpdateTicketTotal(draft.tickets, index, t);
      var tickets := draft.tickets;
      tickets := tickets[index := t];
      UpdateEventData(NoChange.(tickets := Some(tickets)));
    }

    method RemoveTicket(index: int)
      modifies this`draft
      ensures draft == old(draft).(tickets := RemoveTier(old(draft.tickets), index))
      ensures 0 <= index < |old(draft.tickets)| ==>
              TotalTickets(draft.tickets) == TotalTickets(old(draft.tickets)) - old(draft.tickets)[index].numberOfTickets
    {
      if 0 <= index < |draft.tickets| {
        RemoveTierTotal(draft.tickets, index);
      }
      UpdateEventData(NoChange.(tickets := Some(RemoveTier(draft.tickets, index))));
    }

    /**
     * `handleSubmit`: without a token, redirect and send nothing; with one, the
     * timestamps are built first, and an unparsable start or end time throws
     * before any request exists; otherwise the create-event request built from
     * the draft, under the token's bearer header.
     */
    method HandleSubmit(decode: string -> Option<Payload>) returns (outcome: SubmitOutcome)
      ensures outcome.RedirectToLogin? <==> token.None? || token.value == ""
      ensures outcome.TimestampThrows? <==>
              token.Some? && token.value != "" && (ParseTime(draft.startTime).None? || ParseTime(draft.endTime).None?)
      ensures outcome.Post? ==> outcome.request.authorization == BearerHeader(token)
      ensures outcome.Post? ==> outcome.request.event.eventCapacity == TotalTickets(draft.tickets)
      ensures outcome.Post? ==>
              outcome.request.event.startDate == draft.eventDate &&
              Some(outcome.request.event.startTime) == ParseTime(draft.startTime)
      ensures outcome.Post? ==>
              outcome.request.event.endDate == EndDateBase(draft) &&
              Some(outcome.request.event.endTime) == ParseTime(draft.endTime)
      ensures outcome.Post? ==> outcome.request.event.creatorId == CreatorId(token.value, decode)
      ensures outcome.Post? ==>
              outcome.request.event.eventName == draft.eventName &&
              outcome.request.event.eventVenue == draft.eventVenue &&
              outcome.request.event.ticketType == draft.tickets &&
              outcome.request.event.eventTypeIds == draft.eventTypes &&
              outcome.request.poster == draft.posterFile
    {
      if token.None? || token.value == "" {
        return RedirectToLogin;
      }
      var d := draft;
      var start := ParseTime(d.startTime);
      var end := ParseTime(d.endTime);
      if start.None? || end.None? {
        return TimestampThrows;
      }
      var payload := EventPayload(
        d.eventName, d.eventDate, start.value, EndDateBase(d), end.value, d.eventVenue,
        TotalTickets(d.tickets), CreatorId(token.value, decode), d.tickets, d.eventTypes);
      outcome := Post(CreateRequest(payload, d.posterFile, BearerHeader(token)));
    }
  }
}
