/**
 * The swipe card: the per-card drag-gesture state machine, the two drag
 * labels drawn over the card, and the `mm:ss` call-timer formatting.
 *
 * The model takes touch and mouse positions (`clientX`) as integers;
 * fractional positions are not modelled. Each handler runs atomically
 * against the state of the latest render.
 */
module SwipeCard {
  import opened Wrappers

  /** The decision a released drag hands to the deck. */
  datatype Direction = Left | Right

  /** Horizontal offset a release must exceed to count as a swipe. */
  const SwipeThreshold: int := 120

  /** Horizontal offset beyond which a drag label is drawn. */
  const LabelThreshold: int := 50

  /**
   * The gesture state of one rendered card: where the drag started, the
   * live offset from that start, and whether a drag is in progress.
   */
  class SwipeGesture {
    var startX: int
    var currentX: int
    var isDragging: bool

    /** A card at rest sits at offset zero. */
    ghost predicate Valid()
      reads this
    {
      !isDragging ==> currentX == 0
    }

    constructor ()
      ensures Valid()
      ensures startX == 0 && currentX == 0 && !isDragging
    {
      startX, currentX, isDragging := 0, 0, false;
    }

    /**
     * Touch start or mouse down at `x`. Ignored unless the card is on top;
     * a second start before a release overwrites the start coordinate.
     */
    method Start(isTop: bool, x: int)
      requires Valid()
      modifies this
      ensures Valid()
      ensures isTop ==> isDragging && startX == x && currentX == old(currentX)
      ensures !isTop ==> unchanged(this)
    {
      if !isTop {
        return;
      }
      startX := x;
      isDragging := true;
    }

    /**
     * Touch or mouse move to `x`: while dragging the top card, the offset becomes
     * `x - startX` whatever it was before; otherwise nothing happens.
     */
    method Move(isTop: bool, x: int)
      requires Valid()
      modifies this
      ensures Valid()
      ensures old(isDragging) && isTop ==>
        isDragging && startX == old(startX) && currentX == x - startX
      ensures !(old(isDragging) && isTop) ==> unchanged(this)
    {
      if !isDragging || !isTop {
        return;
      }
      var offset := x - startX;
      currentX := offset;
    }

    /**
     * Touch end, mouse up or mouse leave. A release of a drag on the top
     * card emits at most one decision (right beyond +120, left beyond
     * -120, none in between, both bounds included) and puts the card back
     * at rest; any other release emits nothing and changes nothing.
     */
    method End(isTop: bool) returns (decision: Option<Direction>)
      requires Valid()
      modifies this
      ensures Valid()
      ensures decision == Some(Right) <==>
        old(isDragging) && isTop && old(currentX) > SwipeThreshold
      ensures decision == Some(Left) <==>
        old(isDragging) && isTop && old(currentX) < -SwipeThreshold
      ensures old(isDragging) && isTop ==>
        !isDragging && currentX == 0 && startX == old(startX)
      ensures !(old(isDragging) && isTop) ==> unchanged(this)
    {
      decision := None;
      if !isDragging || !isTop {
        return;
      }
      if currentX > SwipeThreshold {
        decision := Some(Right);
      } else if currentX < -SwipeThreshold {
        decision := Some(Left);
      }
      isDragging := false;
      currentX := 0;
    }
  }

  /**
   * Whether the "スキ" (like) label is drawn: only while dragging more
   * than 50 to the right, never together with the "NO" label, and always
   * before a release that would emit a right swipe.
   */
  function ShowLikeLabel(isDragging: bool, currentX: int): (shown: bool)
    ensures shown ==> isDragging && currentX > LabelThreshold
    ensures shown ==> !ShowNopeLabel(isDragging, currentX)
    ensures isDragging && currentX > SwipeThreshold ==> shown
  {
    isDragging && currentX > LabelThreshold
  }

  /**
   * Whether the "NO" label is drawn: only while dragging more than 50 to
   * the left, and always before a release that would emit a left swipe.
   */
  function ShowNopeLabel(isDragging: bool, currentX: int): (shown: bool)
    ensures shown ==> isDragging && currentX < -LabelThreshold
    ensures isDragging && currentX < -SwipeThreshold ==> shown
  {
    isDragging && currentX < -LabelThreshold
  }

  // ---------------------------------------------------------------------
  // The call timer's `mm:ss` display.
  // ---------------------------------------------------------------------

  predicate IsDigit(c: char)
  {
    '0' <= c <= '9'
  }

  predicate AllDigits(s: string)
  {
    forall i :: 0 <= i < |s| ==> IsDigit(s[i])
  }

  function DigitChar(d: nat): (c: char)
    requires d < 10
    ensures IsDigit(c)
  {
    (48 + d) as char
  }

  /** The number a string of decimal digits denotes. */
  function Value(s: string): nat
    requires AllDigits(s)
  {
    if s == [] then 0 else Value(s[..|s| - 1]) * 10 + (s[|s| - 1] as int - 48)
  }

  /** `String(n)` for a non-negative integer: its decimal digits, no leading zero. */
  function Decimal(n: nat): (s: string)
    ensures 1 <= |s| && AllDigits(s)
    ensures s[0] == '0' ==> n == 0
    decreases n
  {
    if n < 10 then [DigitChar(n)] else Decimal(n / 10) + [DigitChar(n % 10)]
  }

  /** Reading back the decimal digits of `n` gives `n`. */
  lemma {:induction false} DecimalValue(n: nat)
    ensures Value(Decimal(n)) == n
    decreases n
  {
    if n >= 10 {
      DecimalValue(n / 10);
      var s := Decimal(n);
      assert s[..|s| - 1] == Decimal(n / 10);
    }
  }

  /** Numbers below 10 take one digit, below 100 two, the rest at least three. */
  lemma {:induction false} DecimalLength(n: nat)
    ensures |Decimal(n)| == 1 <==> n < 10
    ensures |Decimal(n)| == 2 <==> 10 <= n < 100
    ensures |Decimal(n)| >= 3 <==> n >= 100
    decreases n
  {
    if n >= 10 {
      DecimalLength(n / 10);
    }
  }

  /** `k` copies of `c`. */
  function Repeat(c: char, k: nat): (r: string)
    ensures |r| == k
  {
    seq(k, _ => c)
  }

  /** `s.padStart(width, fill)`: `s` preceded by as many `fill`s as bring it to `width`. */
  function PadStart(s: string, width: nat, fill: char): (r: string)
    ensures |r| == if |s| >= width then |s| else width
    ensures r[|r| - |s|..] == s
    ensures forall i :: 0 <= i < |r| - |s| ==> r[i] == fill
  {
    if |s| >= width then s else Repeat(fill, width - |s|) + s
  }

  /** Padding with zeros does not change the number a digit string denotes. */
  lemma {:induction false} LeadingZero(s: string)
    requires AllDigits(s)
    ensures AllDigits(['0'] + s) && Value(['0'] + s) == Value(s)
    decreases |s|
  {
    if s != [] {
      var z := ['0'] + s;
      assert z[..|z| - 1] == ['0'] + s[..|s| - 1];
      LeadingZero(s[..|s| - 1]);
    }
  }

  /** A number below 100, zero-padded to width two, is its tens digit then its units digit. */
  lemma TwoDigits(q: nat)
    requires q < 100
    ensures PadStart(Decimal(q), 2, '0') == [DigitChar(q / 10), DigitChar(q % 10)]
  {
    if q >= 10 {
      assert Decimal(q) == Decimal(q / 10) + [DigitChar(q % 10)];
    }
  }

  /** Two digit characters denote ten times the first plus the second. */
  lemma DigitPair(a: nat, b: nat)
    requires a < 10 && b < 10
    ensures AllDigits([DigitChar(a), DigitChar(b)])
    ensures Value([DigitChar(a), DigitChar(b)]) == 10 * a + b
  {
    var s := [DigitChar(a), DigitChar(b)];
    assert DigitChar(a) as int == 48 + a && DigitChar(b) as int == 48 + b;
    assert s[..1] == [DigitChar(a)];
    assert [DigitChar(a)][..0] == [];
    assert Value([DigitChar(a)]) == a;
  }

  lemma TensOfSeconds(q: nat)
    requires q < 60
    ensures q / 10 <= 5 && q == 10 * (q / 10) + q % 10
  {
  }

  /** The zero-padded seconds field of a value below 60 reads 00 to 59 and denotes that value. */
  lemma SecondsField(q: nat)
    requires q < 60
    ensures var ss := PadStart(Decimal(q), 2, '0');
      |ss| == 2 && '0' <= ss[0] <= '5' && IsDigit(ss[1]) && AllDigits(ss) && Value(ss) == q
  {
    TwoDigits(q);
    TensOfSeconds(q);
    DigitPair(q / 10, q % 10);
  }

  /** The zero-padded minutes field is two characters exactly when the minutes are below 100. */
  lemma MinutesWidth(m: nat)
    ensures |PadStart(Decimal(m), 2, '0')| == 2 <==> m < 100
  {
    DecimalLength(m);
  }

  lemma MinutesBound(n: nat)
    ensures n < 6000 <==> n / 60 < 100
  {
  }

  /** Where the colon and the two fields sit in `mm + ":" + ss` when the seconds field has two characters. */
  lemma Joined(mm: string, ss: string)
    requires |ss| == 2
    ensures var r := mm + ":" + ss;
      |r| == |mm| + 3 && r[|r| - 3] == ':' && r[..|r| - 3] == mm && r[|r| - 2..] == ss
  {
    var r := mm + ":" + ss;
    assert r[..|r| - 3] == mm;
    assert r[|r| - 2..] == ss;
  }

  /**
   * The timer text for `n` seconds: zero-padded minutes, a colon, and the
   * zero-padded seconds field, which always reads 00 to 59. The text is
   * five characters exactly when the minutes fit in two digits.
   */
  function FormatTime(n: nat): (r: string)
    ensures |r| >= 5 && r[|r| - 3] == ':'
    ensures '0' <= r[|r| - 2] <= '5' && IsDigit(r[|r| - 1])
    ensures AllDigits(r[|r| - 2..]) && Value(r[|r| - 2..]) == n % 60
    ensures |r| == 5 <==> n < 6000
  {
    var m, s := n / 60, n % 60;
    var mm := PadStart(Decimal(m), 2, '0');
    var ss := PadStart(Decimal(s), 2, '0');
    SecondsField(s);
    MinutesWidth(m);
    MinutesBound(n);
    Joined(mm, ss);
    mm + ":" + ss
  }

  /**
   * Reads a timer text back: minutes digits, a colon, two seconds digits.
   * Yields the total number of seconds, or None for any other text.
   */
  function ParseTime(t: string): Option<nat>
  {
    if |t| >= 4 && t[|t| - 3] == ':' && AllDigits(t[..|t| - 3]) && AllDigits(t[|t| - 2..]) then
      Some(Value(t[..|t| - 3]) * 60 + Value(t[|t| - 2..]))
    else
      None
  }

  /** Any number of leading zeros keeps the number a digit string denotes. */
  lemma {:induction false} ZerosValue(k: nat, s: string)
    requires AllDigits(s)
    ensures AllDigits(Repeat('0', k) + s) && Value(Repeat('0', k) + s) == Value(s)
    decreases k
  {
    if k == 0 {
      assert Repeat('0', k) + s == s;
    } else {
      var z := ['0'] + s;
      LeadingZero(s);
      ZerosValue(k - 1, z);
      assert Repeat('0', k) + s == Repeat('0', k - 1) + z;
    }
  }

  /** Zero padding to any width keeps the number a digit string denotes. */
  lemma PadValue(s: string, width: nat)
    requires AllDigits(s)
    ensures AllDigits(PadStart(s, width, '0'))
    ensures Value(PadStart(s, width, '0')) == Value(s)
  {
    if |s| < width {
      ZerosValue(width - |s|, s);
    }
  }

  /** Parsing a minutes field, a colon and a two-digit seconds field gives minutes times 60 plus seconds. */
  lemma ParseJoined(mm: string, ss: string)
    requires 1 <= |mm| && AllDigits(mm) && |ss| == 2 && AllDigits(ss)
    ensures ParseTime(mm + ":" + ss) == Some(Value(mm) * 60 + Value(ss))
  {
    Joined(mm, ss);
  }

  lemma SplitSeconds(n: nat)
    ensures (n / 60) * 60 + n % 60 == n
  {
  }

  /** Parsing the timer text of `n` gives back `n`. */
  lemma FormatTimeRoundTrip(n: nat)
    ensures ParseTime(FormatTime(n)) == Some(n)
  {
    var m, s := n / 60, n % 60;
    var mm := PadStart(Decimal(m), 2, '0');
    var ss := PadStart(Decimal(s), 2, '0');
    var r := FormatTime(n);
    assert r == mm + ":" + ss;
    SecondsField(s);
    DecimalValue(m);
    PadValue(Decimal(m), 2);
    ParseJoined(mm, ss);
    var vm, vs := Value(mm), Value(ss);
    assert ParseTime(r) == Some(vm * 60 + vs);
    assert vm == m && vs == s;
    SplitSeconds(n);
  }

  /** Distinct second counts are displayed differently. */
  lemma FormatTimeInjective(a: nat, b: nat)
    ensures FormatTime(a) == FormatTime(b) ==> a == b
  {
    FormatTimeRoundTrip(a);
    FormatTimeRoundTrip(b);
  }
}
