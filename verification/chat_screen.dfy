/** The logic of the main chat screen: the relative-time label under each
    message, and the send button, which forwards the trimmed input to the
    view-model only when the input is not blank and no reply is loading. */
module ChatScreen {
  import opened Wrappers
  import opened Kotlin
  import opened ChatViewModel

  // ---------------------------------------------------------------------
  // Relative-time labels
  // ---------------------------------------------------------------------

  const MinuteMillis: int := 60000
  const HourMillis: int := 3600000
  const DayMillis: int := 86400000

  /** `formatTimestamp`, with the clock reading passed in as `now`. The
      difference is a `Long` subtraction, which wraps on overflow. The
      divisions only ever see a positive difference, where Kotlin's
      truncating `/` and Dafny's `/` agree. Every label is in exactly one
      of the four buckets and carries the right count: reading it back
      gives an age that describes the difference. A count is written as
      a template writes a `Long`, so it never starts with '0'. */
  function FormatTimestamp(timestamp: Long, now: Long): (r: string)
    ensures ParseLabel(r).Some? && Describes(ParseLabel(r).value, SubLong(now, timestamp))
    ensures r == "Just now" || r[0] != '0'
  {
    var diff := SubLong(now, timestamp);
    if diff < MinuteMillis then "Just now"
    else if diff < HourMillis then
      ParseCountLabel(diff / MinuteMillis, "m ago");
      DecimalString(diff / MinuteMillis) + "m ago"
    else if diff < DayMillis then
      ParseCountLabel(diff / HourMillis, "h ago");
      DecimalString(diff / HourMillis) + "h ago"
    else
      ParseCountLabel(diff / DayMillis, "d ago");
      DecimalString(diff / DayMillis) + "d ago"
  }

  /** What a label tells the reader. */
  datatype Age = JustNow | MinutesAgo(minutes: nat) | HoursAgo(hours: nat) | DaysAgo(days: nat)

  /** The meaning of each label, independently of how it is computed: the
      count is the number of whole units elapsed, minutes under an hour,
      hours under a day, days otherwise; anything under a minute, including
      a timestamp in the future, is "just now". */
  predicate Describes(age: Age, diff: int) {
    match age
    case JustNow => diff < MinuteMillis
    case MinutesAgo(k) => 1 <= k <= 59 && k * MinuteMillis <= diff < (k + 1) * MinuteMillis
    case HoursAgo(k) => 1 <= k <= 23 && k * HourMillis <= diff < (k + 1) * HourMillis
    case DaysAgo(k) => 1 <= k && k * DayMillis <= diff < (k + 1) * DayMillis
  }

  /** Reads a label back. */
  function ParseLabel(lbl: string): Option<Age> {
    if lbl == "Just now" then Some(JustNow)
    else if |lbl| > 5 && AllDigits(lbl[..|lbl| - 5]) then
      var count := ParseDecimal(lbl[..|lbl| - 5]);
      var unit := lbl[|lbl| - 5..];
      if unit == "m ago" then Some(MinutesAgo(count))
      else if unit == "h ago" then Some(HoursAgo(count))
      else if unit == "d ago" then Some(DaysAgo(count))
      else None
    else None
  }

  /** A count followed by a unit reads back as that count. */
  lemma ParseCountLabel(k: nat, unit: string)
    requires unit == "m ago" || unit == "h ago" || unit == "d ago"
    ensures var lbl := DecimalString(k) + unit;
            && (unit == "m ago" ==> ParseLabel(lbl) == Some(MinutesAgo(k)))
            && (unit == "h ago" ==> ParseLabel(lbl) == Some(HoursAgo(k)))
            && (unit == "d ago" ==> ParseLabel(lbl) == Some(DaysAgo(k)))
  {
    var digits := DecimalString(k);
    var lbl := digits + unit;
    assert lbl[..|lbl| - 5] == digits;
    assert lbl[|lbl| - 5..] == unit;
    assert lbl != "Just now" by {
      assert IsDigit(lbl[0]);
    }
    ParseDecimalString(k);
  }

  /** The buckets are disjoint: a difference is described by one age only. */
  lemma DescribesUnique(a: Age, b: Age, diff: int)
    requires Describes(a, diff) && Describes(b, diff)
    ensures a == b
  {
    match a
    case JustNow =>
    case MinutesAgo(k) =>
      if b.MinutesAgo? && b.minutes != k {
        OrderedUnits(k, b.minutes, MinuteMillis, diff);
      }
    case HoursAgo(k) =>
      if b.HoursAgo? && b.hours != k {
        OrderedUnits(k, b.hours, HourMillis, diff);
      }
    case DaysAgo(k) =>
      if b.DaysAgo? && b.days != k {
        OrderedUnits(k, b.days, DayMillis, diff);
      }
  }

  /** Two different whole-unit counts cannot both fit one difference. */
  lemma OrderedUnits(j: nat, k: nat, unit: nat, diff: int)
    requires j != k && unit > 0
    ensures !(j * unit <= diff < (j + 1) * unit && k * unit <= diff < (k + 1) * unit)
  {
    if j < k {
      assert (j + 1) * unit <= k * unit;
    } else {
      assert (k + 1) * unit <= j * unit;
    }
  }

  /** When the subtraction does not overflow, the label describes the real
      elapsed time; in particular a future timestamp reads "Just now". */
  lemma FormatTimestampNoOverflow(timestamp: Long, now: Long)
    requires MinLong <= now - timestamp <= MaxLong
    ensures Describes(ParseLabel(FormatTimestamp(timestamp, now)).value, now - timestamp)
    ensures timestamp > now ==> FormatTimestamp(timestamp, now) == "Just now"
  {
  }

  // ---------------------------------------------------------------------
  // The send button
  // ---------------------------------------------------------------------

  /** The input box's state. */
  class MessageInput {
    var messageText: string

    constructor ()
      ensures messageText == ""
    {
      messageText := "";
    }

    /** Typing replaces the text. */
    method OnValueChange(text: string)
      modifies this
      ensures messageText == text
    {
      messageText := text;
    }

    /** The clear icon, shown while the text is not empty, empties it. */
    method OnClearClick()
      requires messageText != ""
      modifies this
      ensures messageText == ""
    {
      messageText := "";
    }

    /** The send button: when the text is not blank and nothing is loading,
        the trimmed text is handed to `onSendMessage` and the box is
        cleared; otherwise nothing is sent and the text stays. */
    method OnSendClick(isLoading: bool) returns (sent: Option<string>)
      modifies this
      ensures !IsBlank(old(messageText)) && !isLoading ==>
                sent == Some(Trim(old(messageText))) && messageText == ""
      ensures IsBlank(old(messageText)) || isLoading ==>
                sent == None && messageText == old(messageText)
    {
      if !IsBlank(messageText) && !isLoading {
        sent := Some(Trim(messageText));
        messageText := "";
      } else {
        sent := None;
      }
    }
  }

  /** What the button hands on is never blank and already trimmed, so the
      view-model's own blank check never rejects it. */
  lemma SentTextIsTrimmedNonBlank(text: string)
    requires !IsBlank(text)
    ensures !IsBlank(Trim(text)) && Trim(Trim(text)) == Trim(text)
  {
    TrimNonBlank(text);
    TrimIdempotent(text);
  }

  /** The screen wired to the view-model, as the app does: the send button
      calls `sendMessage`. The busy gate lives here, in the screen: while a
      reply is loading the click reaches nothing; otherwise a non-blank
      input becomes one trimmed user message and a pending reply. The gate
      keeps at most one request in flight, with the flag up exactly while
      it is out. */
  method ClickSend(input: MessageInput, vm: ChatViewModel, id: string, timestamp: Long)
    returns (pending: Option<PendingReply>)
    requires vm.Valid() && vm.OneInFlight()
    modifies input, vm
    ensures vm.Valid() && vm.OneInFlight()
    ensures old(vm.isLoading) || IsBlank(old(input.messageText)) ==>
              && pending == None && vm.UiState() == old(vm.UiState()) && vm.outstanding == old(vm.outstanding)
              && input.messageText == old(input.messageText)
    ensures !old(vm.isLoading) && !IsBlank(old(input.messageText)) ==>
              && vm.messages == old(vm.messages) + [UserMessage(Trim(old(input.messageText)), old(vm.selectedModel), id, timestamp)]
              && vm.isLoading && vm.selectedModel == old(vm.selectedModel)
              && vm.outstanding == old(vm.outstanding) + 1
              && input.messageText == ""
              && pending == Some(PendingReply(Trim(old(input.messageText)), old(vm.selectedModel)))
  {
    ghost var text := input.messageText;
    var sent := input.OnSendClick(vm.isLoading);
    if sent.Some? {
      TrimNonBlank(text);
      pending := vm.SendMessage(sent.value, id, timestamp);
    } else {
      pending := None;
    }
  }
}
