/**
 * The offset picker of the setup screen: the offset in minutes shown as
 * "H:MM", composed from the hour and minute of a 24-hour time picker and
 * split back into them.
 */
module OffsetPicker {

  import opened Wrappers
  import opened JavaInt
  import opened Decimal

  const HOURS_MINUTES_SEPARATOR: string := ":"

  /**
   * The adapter's text for an offset: Java's `offset / 60`, the separator, a
   * "0" when `offset % 60` is below 10, then `offset % 60`. For a non-negative
   * offset the text is the hours in decimal, ':' and exactly two digits whose
   * value is the minutes, in [0, 59].
   */
  function FormatOffset(offset: int): (text: string)
    ensures offset >= 0 ==>
      && |text| >= 4
      && text[..|text| - 3] == NatToDecimal(offset / 60)
      && text[|text| - 3] == ':'
      && IsDigit(text[|text| - 2]) && IsDigit(text[|text| - 1])
      && DigitValue(text[|text| - 2]) <= 5
      && DigitValue(text[|text| - 2]) * 10 + DigitValue(text[|text| - 1]) == offset % 60
  {
    var hours := Div(offset, 60);
    var minutes := Rem(offset, 60);
    var padded := (if minutes < 10 then "0" else "") + IntToDecimal(minutes);
    var text := IntToDecimal(hours) + HOURS_MINUTES_SEPARATOR + padded;
    if offset >= 0 then
      assert hours == offset / 60 && minutes == offset % 60;
      PaddedMinutes(minutes);
      assert text == NatToDecimal(hours) + [':', Digit(minutes / 10), Digit(minutes % 10)];
      text
    else
      text
  }

  /** Reads "H:MM" back into minutes. */
  function ParseOffset(text: string): Option<int> {
    if |text| >= 4 && text[|text| - 3] == ':' && AllDigits(text[..|text| - 3])
       && IsDigit(text[|text| - 2]) && IsDigit(text[|text| - 1])
    then
      Some(DecimalToNat(text[..|text| - 3]) * 60 + DigitValue(text[|text| - 2]) * 10 + DigitValue(text[|text| - 1]))
    else
      None
  }

  /** The padded minutes field of a minute count below 60 is its two digits. */
  lemma PaddedMinutes(minutes: nat)
    requires minutes < 60
    ensures (if minutes < 10 then "0" else "") + IntToDecimal(minutes) == [Digit(minutes / 10), Digit(minutes % 10)]
  {
    if minutes >= 10 {
      assert NatToDecimal(minutes / 10) == [Digit(minutes / 10)];
    }
  }

  /** Reading the text back gives the offset, for every non-negative offset. */
  lemma FormatRoundTrip(offset: int)
    requires offset >= 0
    ensures ParseOffset(FormatOffset(offset)) == Some(offset)
  {
    var text := FormatOffset(offset);
    var hoursText := text[..|text| - 3];
    DecimalRoundTrip(offset / 60);
    assert AllDigits(hoursText) && DecimalToNat(hoursText) == offset / 60;
    assert |text| >= 4 && text[|text| - 3] == ':' && IsDigit(text[|text| - 2]) && IsDigit(text[|text| - 1]);
    var minutes := DigitValue(text[|text| - 2]) * 10 + DigitValue(text[|text| - 1]);
    assert minutes == offset % 60;
    assert (offset / 60) * 60 + offset % 60 == offset;
    assert ParseOffset(text) == Some(DecimalToNat(hoursText) * 60 + minutes);
  }

  /** Distinct non-negative offsets are shown as distinct texts. */
  lemma FormatInjective(a: int, b: int)
    requires 0 <= a < b
    ensures FormatOffset(a) != FormatOffset(b)
  {
    FormatRoundTrip(a);
    FormatRoundTrip(b);
  }

  /** A negative offset keeps Java's signs on both fields and still gets the "0" pad. */
  lemma FormatNegative()
    ensures FormatOffset(-90) == "-1:0-30"
  {
    assert NatToDecimal(30) == "30";
  }

  /** The offset for the hour and minute set in the picker. */
  function ComposeOffset(hourOfDay: int, minute: int): (offset: int)
    ensures 0 <= hourOfDay && 0 <= minute < 60 ==> Div(offset, 60) == hourOfDay && Rem(offset, 60) == minute
  {
    hourOfDay * 60 + minute
  }

  class OffsetSpinner {

    var offset: int

    /** Whether an offset listener is set. */
    var hasListener: bool

    /** The offsets passed to the listener, in order. */
    ghost var notified: seq<int>

    constructor ()
      ensures offset == 0 && !hasListener && notified == []
    {
      offset := 0;
      hasListener := false;
      notified := [];
    }

    function GetOffset(): int
      reads this
    {
      offset
    }

    /** Stores the offset and passes it to the listener when one is set. */
    method SetOffset(x: int)
      modifies this`offset, this`notified
      ensures GetOffset() == x
      ensures notified == if hasListener then old(notified) + [x] else old(notified)
    {
      offset := x;
      if hasListener {
        notified := notified + [GetOffset()];
      }
    }

    method SetOnOffsetSetListener(present: bool)
      modifies this`hasListener
      ensures hasListener == present
    {
      hasListener := present;
    }

    /**
     * The hour and minute the picker dialog opens with: composing them gives
     * the current offset back, and for a non-negative offset the minute is in [0, 59].
     */
    method PerformClick() returns (hourOfDay: int, minute: int)
      ensures ComposeOffset(hourOfDay, minute) == GetOffset()
      ensures GetOffset() >= 0 ==> 0 <= minute < 60 && hourOfDay == GetOffset() / 60
    {
      hourOfDay := Div(GetOffset(), 60);
      minute := Rem(GetOffset(), 60);
    }

    /** The picker's callback: the offset becomes `hourOfDay * 60 + minute`. */
    method OnTimeSet(hourOfDay: int, minute: int)
      modifies this`offset, this`notified
      ensures GetOffset() == ComposeOffset(hourOfDay, minute)
      ensures 0 <= hourOfDay && 0 <= minute < 60 ==> Div(GetOffset(), 60) == hourOfDay && Rem(GetOffset(), 60) == minute
      ensures notified == if hasListener then old(notified) + [GetOffset()] else old(notified)
    {
      SetOffset(hourOfDay * 60 + minute);
    }
  }

  /** The one-item adapter that shows the spinner's offset. */
  class OffsetAdapter {

    const spinner: OffsetSpinner

    constructor (spinner: OffsetSpinner)
      ensures this.spinner == spinner
    {
      this.spinner := spinner;
    }

    /** The text shown: the spinner's offset as "H:MM", which reads back as the offset when it is non-negative. */
    function GetItem(): (text: string)
      reads spinner
      ensures spinner.GetOffset() >= 0 ==> ParseOffset(text) == Some(spinner.GetOffset())
    {
      var text := FormatOffset(spinner.GetOffset());
      if spinner.GetOffset() >= 0 then
        FormatRoundTrip(spinner.GetOffset());
        text
      else
        text
    }
  }

}
