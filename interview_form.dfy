/** The "Schedule Interview" form: the draft interview it edits, the list of time slots it
    offers, the time search, and the submit gate. */
module InterviewForm {
  import opened Wrappers
  import opened Types
  import opened Text
  import opened Sequences

  /** `hour % 12 || 12`: 0 and 12 show as 12, the others as their remainder. */
  function Hour12(hour: nat): (h: nat)
    ensures 1 <= h <= 12
  {
    if hour % 12 == 0 then 12 else hour % 12
  }

  /** `hour >= 12 ? "PM" : "AM"`. */
  function AmPm(hour: nat): string {
    if hour >= 12 then "PM" else "AM"
  }

  /** `${hour12}:${minute.toString().padStart(2, "0")} ${ampm}`. */
  function TimeLabel(hour: nat, minute: nat): string {
    DecimalString(Hour12(hour)) + ":" + PadStart(DecimalString(minute), 2, '0') + " " + AmPm(hour)
  }

  /** The `k`-th quarter hour of the day, written as a label. */
  function Slot(k: nat): string {
    TimeLabel(k / 4, (k % 4) * 15)
  }

  /** Every quarter hour of the day from midnight on, 96 labels. */
  function TimeOptions(): (r: seq<string>)
    ensures |r| == 96
    ensures forall k :: 0 <= k < 96 ==> r[k] == Slot(k)
  {
    seq(96, k requires 0 <= k < 96 => Slot(k))
  }

  /** `generateTimeOptions`: for each hour, for each quarter, push the label. */
  method GenerateTimeOptions() returns (options: seq<string>)
    ensures options == TimeOptions()
  {
    options := [];
    var hour := 0;
    while hour < 24
      invariant 0 <= hour <= 24
      invariant |options| == 4 * hour
      invariant forall k :: 0 <= k < |options| ==> options[k] == Slot(k)
    {
      var minute := 0;
      ghost var q := 0;
      while minute < 60
        invariant 0 <= q <= 4 && minute == 15 * q
        invariant |options| == 4 * hour + q
        invariant forall k :: 0 <= k < |options| ==> options[k] == Slot(k)
      {
        var ampm := if hour >= 12 then "PM" else "AM";
        var hour12 := if hour % 12 == 0 then 12 else hour % 12;
        var time := DecimalString(hour12) + ":" + PadStart(DecimalString(minute), 2, '0') + " " + ampm;
        assert time == TimeLabel(hour, minute);
        SlotOf(hour, q, |options|, minute);
        AppendSlot(options, time);
        options := options + [time];
        minute, q := minute + 15, q + 1;
      }
      hour := hour + 1;
    }
  }

  /** Pushing the next slot keeps the options a prefix of the slots. */
  lemma AppendSlot(options: seq<string>, time: string)
    requires forall k :: 0 <= k < |options| ==> options[k] == Slot(k)
    requires time == Slot(|options|)
    ensures forall k :: 0 <= k < |options| + 1 ==> (options + [time])[k] == Slot(k)
  {
  }

  /** Quarter `q` of hour `hour`, at minute `minute`, is slot `n`. */
  lemma {:induction false} SlotOf(hour: nat, q: nat, n: nat, minute: nat)
    requires q < 4 && n == 4 * hour + q && minute == 15 * q
    ensures Slot(n) == TimeLabel(hour, minute)
  {
    QuarterSlot(hour, q, n);
    assert (n % 4) * 15 == minute;
  }

  lemma {:induction false} QuarterSlot(hour: nat, q: nat, n: nat)
    requires q < 4 && n == 4 * hour + q
    ensures n / 4 == hour && n % 4 == q
  {
  }

  /** A time of day on the 24-hour clock. */
  datatype TimeOfDay = TimeOfDay(hour: nat, minute: nat)

  function MinuteOfDay(t: TimeOfDay): nat {
    60 * t.hour + t.minute
  }

  /** Reads a label back: one or two hour digits, ':', two minute digits, ' ', "AM" or "PM". */
  function ParseTime(t: string): Option<TimeOfDay> {
    if |t| < 7 || |t| > 8 then None
    else
      var n := |t|;
      var hourText, minuteText, suffix := t[..n - 6], t[n - 5..n - 3], t[n - 2..];
      if t[n - 6] != ':' || t[n - 3] != ' ' || !AllDigits(hourText) || !AllDigits(minuteText) then None
      else
        var h, m := ParseDecimal(hourText), ParseDecimal(minuteText);
        if h < 1 || h > 12 || m >= 60 then None
        else if suffix == "AM" then Some(TimeOfDay(if h == 12 then 0 else h, m))
        else if suffix == "PM" then Some(TimeOfDay(if h == 12 then 12 else h + 12, m))
        else None
  }

  /** Below 100 the decimal text has at most two digits. */
  lemma {:induction false} DecimalShort(n: nat)
    requires n < 100
    ensures |DecimalString(n)| <= 2
  {
    if n >= 10 {
      assert |DecimalString(n / 10)| == 1;
    }
  }

  /** A leading zero does not change the value of a digit string. */
  lemma {:induction false} ParseLeadingZero(s: string)
    requires AllDigits(s)
    ensures AllDigits("0" + s) && ParseDecimal("0" + s) == ParseDecimal(s)
    decreases |s|
  {
    var z := "0" + s;
    assert AllDigits(z) by {
      forall i | 0 <= i < |z| ensures IsDigit(z[i]) {
        if i > 0 { assert z[i] == s[i - 1]; }
      }
    }
    if s != [] {
      ParseLeadingZero(s[..|s| - 1]);
      assert z[..|z| - 1] == "0" + s[..|s| - 1];
      assert z[|z| - 1] == s[|s| - 1];
    } else {
      assert z[..|z| - 1] == [];
    }
  }

  /** The minute part is always two digits that read back as the minute. */
  lemma {:induction false} MinuteText(minute: nat)
    requires minute < 60
    ensures |PadStart(DecimalString(minute), 2, '0')| == 2
    ensures AllDigits(PadStart(DecimalString(minute), 2, '0'))
    ensures ParseDecimal(PadStart(DecimalString(minute), 2, '0')) == minute
  {
    DecimalShort(minute);
    DecimalRoundTrip(minute);
    var d := DecimalString(minute);
    var p := PadStart(d, 2, '0');
    if |d| == 1 {
      assert p == "0" + d by {
        assert p[1..] == d;
        assert p[0] == '0';
      }
      ParseLeadingZero(d);
    } else {
      assert p == d;
    }
  }

  /** Where the pieces of a label sit, counted from its end. */
  lemma LabelLayout(ht: string, mt: string, ap: string)
    requires |mt| == 2 && |ap| == 2
    ensures var t := ht + ":" + mt + " " + ap;
      && |t| == |ht| + 6 && t[..|t| - 6] == ht && t[|t| - 6] == ':'
      && t[|t| - 5..|t| - 3] == mt && t[|t| - 3] == ' ' && t[|t| - 2..] == ap
  {
  }

  /** `Hour12` and `AmPm` together determine the hour of the day. */
  lemma {:induction false} Hour12Cases(hour: nat)
    requires hour < 24
    ensures hour < 12 ==> AmPm(hour) == "AM" && Hour12(hour) == (if hour == 0 then 12 else hour)
    ensures hour >= 12 ==> AmPm(hour) == "PM" && Hour12(hour) == (if hour == 12 then 12 else hour - 12)
  {
    if hour < 12 {
      assert hour % 12 == hour;
    } else {
      assert hour % 12 == hour - 12;
    }
  }

  /** Every label reads back as the time it was written from. */
  lemma {:induction false} ParseTimeLabel(hour: nat, minute: nat)
    requires hour < 24 && minute < 60
    ensures ParseTime(TimeLabel(hour, minute)) == Some(TimeOfDay(hour, minute))
  {
    var h12 := Hour12(hour);
    var ht := DecimalString(h12);
    var mt := PadStart(DecimalString(minute), 2, '0');
    Hour12Cases(hour);
    DecimalShort(h12);
    DecimalRoundTrip(h12);
    MinuteText(minute);
    LabelLayout(ht, mt, AmPm(hour));
  }

  /** The options are the quarter hours in order: option `k` reads back as `15 * k` minutes after
      midnight, so they are strictly chronological and no two are the same. */
  lemma {:induction false} TimeOptionsChronological()
    ensures forall k :: 0 <= k < 96 ==>
      ParseTime(TimeOptions()[k]).Some? && MinuteOfDay(ParseTime(TimeOptions()[k]).value) == 15 * k
    ensures forall i, j :: 0 <= i < j < 96 ==> TimeOptions()[i] != TimeOptions()[j]
  {
    var opts := TimeOptions();
    forall k | 0 <= k < 96
      ensures ParseTime(opts[k]).Some? && MinuteOfDay(ParseTime(opts[k]).value) == 15 * k
    {
      ParseTimeLabel(k / 4, (k % 4) * 15);
    }
  }

  /** Midnight and noon show as 12, with AM and PM; the afternoon hours 13-23 show as 1-11 PM. */
  lemma HourRendering(hour: nat)
    requires hour < 24
    ensures hour == 0 ==> Hour12(hour) == 12 && AmPm(hour) == "AM"
    ensures hour == 12 ==> Hour12(hour) == 12 && AmPm(hour) == "PM"
    ensures 1 <= hour < 12 ==> Hour12(hour) == hour && AmPm(hour) == "AM"
    ensures 13 <= hour ==> Hour12(hour) == hour - 12 && AmPm(hour) == "PM"
  {
  }

  /** The minute text of quarter `q`. */
  lemma {:induction false} QuarterText(q: nat)
    requires q < 4
    ensures PadStart(DecimalString(q * 15), 2, '0') in ["00", "15", "30", "45"]
  {
    if q == 0 {
      assert DecimalString(0) == "0";
      assert PadStart("0", 2, '0') == "00";
    } else if q == 1 {
      assert DecimalString(15) == "15";
    } else if q == 2 {
      assert DecimalString(30) == "30";
    } else {
      assert DecimalString(45) == "45";
    }
  }

  /** The two characters before the last three of a label are its minute text. */
  lemma {:induction false} LabelMinutes(hour: nat, minute: nat)
    requires minute < 60
    ensures var t := TimeLabel(hour, minute);
      |t| >= 7 && t[|t| - 5..|t| - 3] == PadStart(DecimalString(minute), 2, '0')
  {
    MinuteWidth(minute);
    MinuteSlice(TimeLabel(hour, minute), DecimalString(Hour12(hour)), PadStart(DecimalString(minute), 2, '0'), AmPm(hour));
  }

  lemma {:induction false} MinuteWidth(minute: nat)
    requires minute < 60
    ensures |PadStart(DecimalString(minute), 2, '0')| == 2
  {
    DecimalShort(minute);
  }

  lemma MinuteSlice(t: string, ht: string, mt: string, ap: string)
    requires t == ht + ":" + mt + " " + ap && |ht| >= 1 && |mt| == 2 && |ap| == 2
    ensures |t| >= 7 && t[|t| - 5..|t| - 3] == mt
  {
    LabelLayout(ht, mt, ap);
  }

  /** The minutes written in the options are two digits, one of 00, 15, 30 and 45. */
  lemma {:induction false} OptionMinutes(k: nat)
    requires k < 96
    ensures var t := TimeOptions()[k];
      |t| >= 7 && t[|t| - 5..|t| - 3] in ["00", "15", "30", "45"]
  {
    var q := k % 4;
    assert TimeOptions()[k] == TimeLabel(k / 4, q * 15);
    LabelMinutes(k / 4, q * 15);
    QuarterText(q);
  }

  /** The search test for one option: the hour (before ':' of the part before ' ') starts with the
      search text before its first ':', or the whole label starts with the search, ignoring case. */
  predicate KeepsTime(time: string, search: string)
    ensures search == "" ==> KeepsTime(time, search)
  {
    assert BeforeFirst("", ':') == "";
    var hourMin := BeforeFirst(time, ' ');
    var hour := BeforeFirst(hourMin, ':');
    var searchHour := BeforeFirst(search, ':');
    StartsWith(hour, searchHour) || StartsWith(ToLower(time), ToLower(search))
  }

  /** The options shown for the current search, in their order. */
  function FilterTimes(options: seq<string>, search: string): (r: seq<string>)
    ensures forall t :: t in r <==> t in options && KeepsTime(t, search)
    ensures forall t :: multiset(r)[t] == if KeepsTime(t, search) then multiset(options)[t] else 0
    ensures IsSubsequence(r, options)
  {
    Filter(t => KeepsTime(t, search), options)
  }

  /** With an empty search every option is shown. */
  lemma {:induction false} EmptySearchKeepsAll(options: seq<string>)
    ensures FilterTimes(options, "") == options
  {
    forall i | 0 <= i < |options| ensures KeepsTime(options[i], "") {
      assert BeforeFirst("", ':') == "";
    }
    FilterKeepsAll(t => KeepsTime(t, ""), options);
  }

  /** On a generated option the hour the search compares with is the option's 12-hour hour. */
  lemma {:induction false} KeepsSlotIff(k: nat, search: string)
    requires k < 96
    ensures KeepsTime(Slot(k), search) <==>
      StartsWith(DecimalString(Hour12(k / 4)), BeforeFirst(search, ':'))
      || StartsWith(ToLower(Slot(k)), ToLower(search))
  {
    var hour, minute := k / 4, (k % 4) * 15;
    var ht := DecimalString(Hour12(hour));
    var mt := PadStart(DecimalString(minute), 2, '0');
    MinuteText(minute);
    assert ' ' !in ht + ":" + mt by {
      assert AllDigits(ht) && AllDigits(mt);
      forall i | 0 <= i < |ht + ":" + mt| ensures (ht + ":" + mt)[i] != ' ' {
        if i < |ht| { assert (ht + ":" + mt)[i] == ht[i]; }
        else if i > |ht| { assert (ht + ":" + mt)[i] == mt[i - |ht| - 1]; }
      }
    }
    assert ':' !in ht by {
      assert AllDigits(ht);
      forall i | 0 <= i < |ht| ensures ht[i] != ':' {
        assert IsDigit(ht[i]);
      }
    }
    assert Slot(k) == (ht + ":" + mt) + [' '] + AmPm(hour);
    BeforeFirstOfJoin(ht + ":" + mt, ' ', AmPm(hour));
    assert ht + ":" + mt == ht + [':'] + mt;
    BeforeFirstOfJoin(ht, ':', mt);
  }

  /** The form's text fields, by the input's `name`. */
  datatype DraftField = JobApplicationId | Date | Time | InterviewerName | Notes

  /** `{ ...prev, [name]: value }` on the draft. */
  function SetDraft(d: InterviewDraft, f: DraftField, value: string): (r: InterviewDraft)
    ensures f == JobApplicationId ==> r == d.(jobApplicationId := value)
    ensures f == Date ==> r == d.(date := value)
    ensures f == Time ==> r == d.(time := value)
    ensures f == InterviewerName ==> r == d.(interviewerName := value)
    ensures f == Notes ==> r == d.(notes := value)
  {
    match f
    case JobApplicationId => d.(jobApplicationId := value)
    case Date => d.(date := value)
    case Time => d.(time := value)
    case InterviewerName => d.(interviewerName := value)
    case Notes => d.(notes := value)
  }

  /** The draft the form starts with: empty strings, a phone interview, no `userEmail` key. */
  const InitialDraft: InterviewDraft := InterviewDraft("", None, "", "", "", "", Phone, "")

  /** The draft after a submit: as the first one, but with `userEmail: ""`. */
  const ResetDraft: InterviewDraft := InitialDraft.(userEmail := Some(""))

  class Component {
    var interview: InterviewDraft
    var openTime: bool
    var timeSearch: string

    constructor ()
      ensures interview == InitialDraft && !openTime && timeSearch == ""
    {
      interview := InitialDraft;
      openTime := false;
      timeSearch := "";
    }

    /** `handleChange` and `handleSelectChange(name)` for the text fields. */
    method HandleChange(name: DraftField, value: string)
      modifies this`interview
      ensures interview == SetDraft(old(interview), name, value)
    {
      interview := SetDraft(interview, name, value);
    }

    /** `handleSelectChange("interviewType")`. */
    method HandleTypeChange(value: InterviewType)
      modifies this`interview
      ensures interview == old(interview).(interviewType := value)
    {
      interview := interview.(interviewType := value);
    }

    /** The popover's `onOpenChange`: closing it clears the search. */
    method HandleOpenChange(open: bool)
      modifies this`openTime, this`timeSearch
      ensures openTime == open
      ensures timeSearch == if open then old(timeSearch) else ""
    {
      openTime := open;
      if !open {
        timeSearch := "";
      }
    }

    /** The search box's `onValueChange`. */
    method SetTimeSearch(value: string)
      modifies this`timeSearch
      ensures timeSearch == value
    {
      timeSearch := value;
    }

    /** A time picked from the list becomes the draft's time; the popover closes and the search clears. */
    method SelectTime(time: string)
      modifies this`interview, this`openTime, this`timeSearch
      ensures interview == old(interview).(time := time)
      ensures !openTime && timeSearch == ""
    {
      interview := interview.(time := time);
      openTime := false;
      timeSearch := "";
    }

    /** `handleSubmit`: when not signed in, only a redirect, and the draft stays; otherwise the
        current draft goes to `onSubmit` and the form resets. */
    method HandleSubmit(session: Session) returns (submitted: Option<InterviewDraft>, redirect: bool)
      modifies this`interview
      ensures redirect == !LoggedIn(session)
      ensures !LoggedIn(session) ==> submitted.None? && interview == old(interview)
      ensures LoggedIn(session) ==> submitted == Some(old(interview)) && interview == ResetDraft
    {
      if !LoggedIn(session) {
        return None, true;
      }
      submitted := Some(interview);
      interview := ResetDraft;
      redirect := false;
    }
  }
}
