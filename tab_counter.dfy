/**
 * The tab counter widget (TabCounter.java): the number of open tabs, the text
 * it shows, the text-size class it picks, and when it animates a change.
 */
module Tabs {

  /** Above this many tabs the counter shows the infinity sign. */
  const MaxVisibleTabs := 99
  const SoManyTabsOpen := "\U{221E}"
  const DefaultTabsCounterText := ":)"

  /**
   * The text-size ratio: ONE_DIGIT_SIZE_RATIO (0.6) or TWO_DIGITS_SIZE_RATIO
   * (0.5); Unset is the field's initial 0.0, which equals neither.
   */
  datatype TextRatio = Unset | OneDigit | TwoDigits

  function DigitChar(d: nat): (ch: char)
    requires d < 10
    ensures '0' <= ch <= '9'
  {
    ('0' as int + d) as char
  }

  function DigitValue(ch: char): int {
    ch as int - '0' as int
  }

  /** The decimal digits of `n`, most significant first, without leading zeros. */
  function Digits(n: nat): (s: string)
    ensures 1 <= |s|
    ensures forall i :: 0 <= i < |s| ==> '0' <= s[i] <= '9'
    ensures |s| == 1 <==> n < 10
    ensures s[0] == '0' ==> n == 0
  {
    if n < 10 then [DigitChar(n)] else Digits(n / 10) + [DigitChar(n % 10)]
  }

  /** Reads a string of decimal digits back as a number. */
  function ParseDigits(s: string): int {
    if s == [] then 0 else ParseDigits(s[..|s| - 1]) * 10 + DigitValue(s[|s| - 1])
  }

  lemma {:induction false} DigitsRoundTrip(n: nat)
    ensures ParseDigits(Digits(n)) == n
  {
    if n >= 10 {
      var s := Digits(n);
      assert s[..|s| - 1] == Digits(n / 10);
      DigitsRoundTrip(n / 10);
    }
  }

  /** NumberFormat's rendering of `n`, without grouping separators. */
  function Decimal(n: int): string {
    if n < 0 then "-" + Digits(-n) else Digits(n)
  }

  function ParseDecimal(s: string): int {
    if 0 < |s| && s[0] == '-' then -ParseDigits(s[1..]) else ParseDigits(s)
  }

  /** The rendering of a count reads back as that count. */
  lemma {:induction false} DecimalRoundTrip(n: int)
    ensures ParseDecimal(Decimal(n)) == n
  {
    var s := Decimal(n);
    if n < 0 {
      DigitsRoundTrip(-n);
      assert s[0] == '-' && s[1..] == Digits(-n);
    } else {
      DigitsRoundTrip(n);
      assert s == Digits(n) && s[0] != '-';
    }
  }

  /** `formatForDisplay`: the infinity sign above 99 tabs, otherwise the count in decimal. */
  function FormatForDisplay(n: int): (s: string)
    ensures n > MaxVisibleTabs ==> s == SoManyTabsOpen
    ensures n <= MaxVisibleTabs ==> s == Decimal(n) && ParseDecimal(s) == n
  {
    DecimalRoundTrip(n);
    if n > MaxVisibleTabs then SoManyTabsOpen else Decimal(n)
  }

  /** The ratio `adjustTextSize` picks for a count. */
  function RatioFor(n: int): (r: TextRatio)
    ensures r != Unset
    ensures r == TwoDigits <==> 10 <= n <= MaxVisibleTabs
  {
    if n <= MaxVisibleTabs && n >= 10 then TwoDigits else OneDigit
  }

  /** For a non-negative count, the two-digit size is used exactly when two characters are shown. */
  lemma TwoDigitRatioMatchesDisplayWidth(n: int)
    requires 0 <= n
    ensures RatioFor(n) == TwoDigits <==> |FormatForDisplay(n)| == 2
  {
    if 10 <= n <= MaxVisibleTabs {
      assert Digits(n) == Digits(n / 10) + [DigitChar(n % 10)];
    }
  }

  class TabCounter {
    var count: int
    var currentTextRatio: TextRatio
    var text: string
    /** The one-dp bottom padding under the default text. */
    var textShiftedForDefault: bool
    /** Layout listeners scheduled to re-size the text. */
    var resizeRequests: nat
    /** How often the animator set was (re)started. */
    var animationStarts: nat

    /** The text shows the count in its size class, or the initial smiley at count 0. */
    ghost predicate Valid()
      reads this
    {
      || (count == 0 && text == DefaultTabsCounterText && currentTextRatio == Unset)
      || (text == FormatForDisplay(count) && currentTextRatio == RatioFor(count))
    }

    constructor ()
      ensures Valid()
      ensures count == 0 && text == DefaultTabsCounterText && currentTextRatio == Unset
      ensures textShiftedForDefault && resizeRequests == 0 && animationStarts == 0
    {
      count := 0;
      currentTextRatio := Unset;
      text := DefaultTabsCounterText;
      textShiftedForDefault := true;
      resizeRequests := 0;
      animationStarts := 0;
    }

    /** Picks the size class for `newCount`; schedules a re-size only when the class changes. */
    method AdjustTextSize(newCount: int)
      modifies this`currentTextRatio, this`resizeRequests
      ensures currentTextRatio == RatioFor(newCount)
      ensures resizeRequests == old(resizeRequests) + if old(currentTextRatio) != RatioFor(newCount) then 1 else 0
    {
      var newRatio := if newCount <= MaxVisibleTabs && newCount >= 10 then TwoDigits else OneDigit;
      if newRatio != currentTextRatio {
        currentTextRatio := newRatio;
        resizeRequests := resizeRequests + 1;
      }
    }

    /** Shows `n` at once, without animation. */
    method SetCount(n: int)
      modifies this`count, this`text, this`currentTextRatio, this`resizeRequests, this`textShiftedForDefault
      ensures Valid()
      ensures count == n && text == FormatForDisplay(n) && !textShiftedForDefault
      ensures currentTextRatio == RatioFor(n)
      ensures resizeRequests == old(resizeRequests) + if old(currentTextRatio) != RatioFor(n) then 1 else 0
    {
      AdjustTextSize(n);
      textShiftedForDefault := false;
      text := FormatForDisplay(n);
      count := n;
    }

    /**
     * Shows `n` with the bump animation, except from the initial count 0 (as
     * SetCount), for an unchanged count (nothing), and while the count stays
     * above 99 (only the count changes).
     */
    method SetCountWithAnimation(n: int)
      requires Valid()
      modifies this
      ensures Valid() && count == n
      ensures old(count) == 0 ==>
        && text == FormatForDisplay(n) && currentTextRatio == RatioFor(n) && !textShiftedForDefault
        && resizeRequests == old(resizeRequests) + (if old(currentTextRatio) != RatioFor(n) then 1 else 0)
        && animationStarts == old(animationStarts)
      ensures old(count) != 0 && old(count) == n ==>
        && text == old(text) && currentTextRatio == old(currentTextRatio)
        && textShiftedForDefault == old(textShiftedForDefault)
        && resizeRequests == old(resizeRequests) && animationStarts == old(animationStarts)
      ensures old(count) > MaxVisibleTabs && n > MaxVisibleTabs ==>
        && text == old(text) && currentTextRatio == old(currentTextRatio)
        && textShiftedForDefault == old(textShiftedForDefault)
        && resizeRequests == old(resizeRequests) && animationStarts == old(animationStarts)
      ensures old(count) != 0 && old(count) != n && !(old(count) > MaxVisibleTabs && n > MaxVisibleTabs) ==>
        && text == FormatForDisplay(n) && currentTextRatio == RatioFor(n) && !textShiftedForDefault
        && resizeRequests == old(resizeRequests) + (if old(currentTextRatio) != RatioFor(n) then 1 else 0)
        && animationStarts == old(animationStarts) + 1
    {
      // Don't animate from the initial state.
      if count == 0 {
        SetCount(n);
        return;
      }
      if count == n {
        return;
      }
      // Don't animate while more than MaxVisibleTabs tabs stay open.
      if count > MaxVisibleTabs && n > MaxVisibleTabs {
        count := n;
        return;
      }
      AdjustTextSize(n);
      textShiftedForDefault := false;
      text := FormatForDisplay(n);
      count := n;
      animationStarts := animationStarts + 1;
    }
  }
}
