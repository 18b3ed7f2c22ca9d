/** The scrolling thermometer (src/app/temp.rs): the last reading, as text,
    is rendered into a framebuffer of 5-pixel columns, and a timer scrolls a
    5x5 window across it one column at a time. */
module Temp {
  import opened Wrappers
  import opened Modular

  /** The 3x5 digit glyphs, row by row: NUM_ARRAY[n][y][x]. */
  const NUM_ARRAY: seq<seq<seq<nat>>> := [
    [[1, 1, 1], [1, 0, 1], [1, 0, 1], [1, 0, 1], [1, 1, 1]],
    [[0, 1, 0], [1, 1, 0], [0, 1, 0], [0, 1, 0], [1, 1, 1]],
    [[1, 1, 1], [0, 0, 1], [1, 1, 1], [1, 0, 0], [1, 1, 1]],
    [[1, 1, 1], [0, 0, 1], [1, 1, 1], [0, 0, 1], [1, 1, 1]],
    [[1, 0, 1], [1, 0, 1], [1, 1, 1], [0, 0, 1], [0, 0, 1]],
    [[1, 1, 1], [1, 0, 0], [1, 1, 1], [0, 0, 1], [1, 1, 1]],
    [[1, 1, 1], [1, 0, 0], [1, 1, 1], [1, 0, 1], [1, 1, 1]],
    [[1, 1, 1], [0, 0, 1], [0, 1, 0], [0, 1, 0], [0, 1, 0]],
    [[1, 1, 1], [1, 0, 1], [1, 1, 1], [1, 0, 1], [1, 1, 1]],
    [[1, 1, 1], [1, 0, 1], [1, 1, 1], [0, 0, 1], [1, 1, 1]]
  ]

  /** The text buffer holds at most 10 characters; each is at most 4
      columns wide, so the framebuffer holds 40. */
  const BUFFER_SIZE: nat := 10
  const FB_CAPACITY: nat := 4 * BUFFER_SIZE
  const PADDING: nat := 3
  /** Timer ticks at 32768 Hz: measure every 4 s, scroll every 1/4 s. */
  const TIMER0_CC0_INTERVAL: nat := 32768 * 4
  const TIMER0_CC1_INTERVAL: nat := 32768 / 4

  type Column = seq<nat>

  const BLANK: Column := [0, 0, 0, 0, 0]
  const DOT: Column := [0, 0, 0, 0, 1]

  predicate IsDigit(c: char) {
    '0' <= c <= '9'
  }

  /** Column x of the glyph of digit n: pixel y is NUM_ARRAY[n][y][x]. */
  function GlyphColumn(n: nat, x: nat): (col: Column)
    requires n < 10 && x < 3
    ensures |col| == 5
    ensures forall y :: 0 <= y < 5 ==> col[y] == NUM_ARRAY[n][y][x]
  {
    seq(5, y requires 0 <= y < 5 => NUM_ARRAY[n][y][x])
  }

  /** The columns one character contributes: a digit's three glyph columns
      and a blank, or blank-dot-blank for '.', or nothing. */
  function CharColumns(c: char): (cols: seq<Column>)
    ensures |cols| == if IsDigit(c) then 4 else if c == '.' then 3 else 0
    ensures forall k :: 0 <= k < |cols| ==> |cols[k]| == 5
  {
    if IsDigit(c) then
      var n := (c as int) - ('0' as int);
      [GlyphColumn(n, 0), GlyphColumn(n, 1), GlyphColumn(n, 2), BLANK]
    else if c == '.' then [BLANK, DOT, BLANK]
    else []
  }

  function Columns(s: string): seq<Column>
  {
    if s == [] then [] else Columns(s[..|s| - 1]) + CharColumns(s[|s| - 1])
  }

  /** The framebuffer `update_framebuffer` renders for a text. */
  function Render(s: string): seq<Column> {
    Columns(s) + [BLANK, BLANK, BLANK]
  }

  function CountDigits(s: string): nat {
    if s == [] then 0 else CountDigits(s[..|s| - 1]) + (if IsDigit(s[|s| - 1]) then 1 else 0)
  }

  function CountDots(s: string): nat {
    if s == [] then 0 else CountDots(s[..|s| - 1]) + (if s[|s| - 1] == '.' then 1 else 0)
  }

  /** Four columns per digit, three per dot, three of padding. */
  lemma {:induction false} RenderLength(s: string)
    ensures |Render(s)| == 4 * CountDigits(s) + 3 * CountDots(s) + PADDING
    ensures forall k :: 0 <= k < |Render(s)| ==> |Render(s)[k]| == 5
  {
    ColumnsShape(s);
  }

  lemma {:induction false} ColumnsShape(s: string)
    ensures |Columns(s)| == 4 * CountDigits(s) + 3 * CountDots(s)
    ensures forall k :: 0 <= k < |Columns(s)| ==> |Columns(s)[k]| == 5
  {
    if s != [] {
      ColumnsShape(s[..|s| - 1]);
    }
  }

  lemma {:induction false} CountsBound(s: string)
    ensures CountDigits(s) + CountDots(s) <= |s|
  {
    if s != [] {
      CountsBound(s[..|s| - 1]);
    }
  }

  /** Any text of at most nine characters fits the 40-column framebuffer,
      padding included. */
  lemma RenderFits(s: string)
    requires |s| <= BUFFER_SIZE - 1
    ensures |Render(s)| <= FB_CAPACITY
  {
    RenderLength(s);
    CountsBound(s);
  }

  /** The columns of a prefix of the text are a prefix of its columns. */
  lemma {:induction false} ColumnsPrefix(s: string, k: nat)
    requires k <= |s|
    ensures Columns(s[..k]) <= Columns(s)
    decreases |s|
  {
    if k < |s| {
      assert s[..|s| - 1][..k] == s[..k];
      ColumnsPrefix(s[..|s| - 1], k);
    } else {
      assert s[..k] == s;
    }
  }

  /** A reading such as "23.5" renders as 4 + 4 + 3 + 4 + 3 = 18 columns;
      the digit 1 starts with the glyph's left column. */
  lemma RenderScenario()
    ensures |Render("23.5")| == 18
    ensures Render("1")[0] == [0, 1, 0, 0, 1]
    ensures Render("x") == [BLANK, BLANK, BLANK]
  {
    RenderLength("23.5");
    assert "23.5"[..3] == "23." && "23."[..2] == "23" && "23"[..1] == "2" && "2"[..0] == "";
    assert "1"[..0] == "";
    assert "x"[..0] == "";
  }

  /** The 5x5 image shown at a scroll offset: pixel (row j, column i) is
      pixel j of framebuffer column (i + offset) mod its length. */
  function Window(fb: seq<Column>, offset: nat): (m: seq<seq<nat>>)
    requires |fb| > 0 && forall k :: 0 <= k < |fb| ==> |fb[k]| == 5
    ensures |m| == 5 && forall j :: 0 <= j < 5 ==> |m[j]| == 5
  {
    seq(5, j requires 0 <= j < 5 => seq(5, i requires 0 <= i < 5 => fb[(i + offset) % |fb|][j]))
  }

  /** The nested loops of `update_led_display` filling the 5x5 matrix. */
  method FillMatrix(fb: seq<Column>, offset: nat) returns (image: seq<seq<nat>>)
    requires |fb| > 0 && forall k :: 0 <= k < |fb| ==> |fb[k]| == 5
    ensures image == Window(fb, offset)
  {
    var matrix := new nat[5, 5]((_, _) => 0);
    for i := 0 to 5
      invariant forall i', j :: 0 <= i' < i && 0 <= j < 5 ==> matrix[j, i'] == fb[(i' + offset) % |fb|][j]
    {
      for j := 0 to 5
        invariant forall i', j' :: 0 <= i' < i && 0 <= j' < 5 ==> matrix[j', i'] == fb[(i' + offset) % |fb|][j']
        invariant forall j' :: 0 <= j' < j ==> matrix[j', i] == fb[(i + offset) % |fb|][j']
      {
        matrix[j, i] := fb[(i + offset) % |fb|][j];
      }
    }
    image := seq(5, j requires 0 <= j < 5 reads matrix => seq(5, i requires 0 <= i < 5 reads matrix => matrix[j, i]));
    forall j | 0 <= j < 5
      ensures image[j] == Window(fb, offset)[j]
    {
      assert forall i :: 0 <= i < 5 ==> image[j][i] == matrix[j, i];
    }
  }

  /** Scrolling by one moves every column of the window one place left. */
  lemma WindowScrolls(fb: seq<Column>, offset: nat, j: nat, i: nat)
    requires |fb| > 0 && forall k :: 0 <= k < |fb| ==> |fb[k]| == 5
    requires j < 5 && i < 4
    ensures Window(fb, (offset + 1) % |fb|)[j][i] == Window(fb, offset)[j][i + 1]
  {
    ModAddLeft(offset + 1, i, |fb|);
    assert offset + 1 + i == i + 1 + offset;
  }

  /** The wrapping advance of a compare register. */
  function Advance(cc: nat, interval: nat): (r: nat)
    ensures r < U32_LIMIT
    ensures cc + interval < U32_LIMIT ==> r == cc + interval
  {
    WrapU32(cc + interval)
  }

  /** Two advances of a wrapping register are one advance by the sum: the
      events stay periodic across the 2^32 wrap. */
  lemma AdvanceTwice(cc: nat, a: nat, b: nat)
    ensures Advance(Advance(cc, a), b) == Advance(cc, a + b)
  {
    ModAddLeft(cc + a, b, U32_LIMIT);
  }

  lemma IntervalsValue()
    ensures TIMER0_CC0_INTERVAL == 131072 && TIMER0_CC1_INTERVAL == 8192
    ensures TIMER0_CC0_INTERVAL == 16 * TIMER0_CC1_INTERVAL
  {
  }

  class Thermometer {
    /** FRAMEBUFFER (a vector of capacity 40) and OFFSET_X (a u8). */
    var fb: seq<Column>
    var offset: nat
    /** The images handed to the display, oldest first. */
    var shown: seq<seq<seq<nat>>>
    /** TIMER0's compare registers and compare events. */
    var cc0: nat
    var cc1: nat
    var compare0: bool
    var compare1: bool

    ghost predicate Valid()
      reads this
    {
      |fb| <= FB_CAPACITY && (forall k :: 0 <= k < |fb| ==> |fb[k]| == 5) &&
      offset < U8_LIMIT && cc0 < U32_LIMIT && cc1 < U32_LIMIT
    }

    /** `setup_timer` and the empty statics. */
    constructor ()
      ensures Valid() && fb == [] && offset == 0 && shown == []
      ensures cc0 == TIMER0_CC0_INTERVAL && cc1 == TIMER0_CC1_INTERVAL
    {
      fb, offset, shown := [], 0, [];
      cc0, cc1 := TIMER0_CC0_INTERVAL, TIMER0_CC1_INTERVAL;
      compare0, compare1 := false, false;
    }

    /** `fb.push(column).unwrap()`: a full framebuffer panics. */
    method Push(col: Column) returns (ok: bool)
      requires Valid() && |col| == 5
      modifies this`fb
      ensures Valid()
      ensures ok == (|old(fb)| < FB_CAPACITY)
      ensures fb == if ok then old(fb) + [col] else old(fb)
    {
      if |fb| == FB_CAPACITY {
        return false;
      }
      fb := fb + [col];
      ok := true;
    }

    /** Push a group of columns one by one, stopping at the first push
        that panics. */
    method PushAll(cols: seq<Column>) returns (ok: bool)
      requires Valid() && forall k :: 0 <= k < |cols| ==> |cols[k]| == 5
      modifies this`fb
      ensures Valid()
      ensures ok == (|old(fb)| + |cols| <= FB_CAPACITY)
      ensures ok ==> fb == old(fb) + cols
      ensures !ok ==> fb == (old(fb) + cols)[..FB_CAPACITY]
    {
      var x := 0;
      while x < |cols|
        invariant 0 <= x <= |cols| && Valid()
        invariant fb == old(fb) + cols[..x]
      {
        ok := Push(cols[x]);
        if !ok {
          assert (old(fb) + cols)[..FB_CAPACITY] == old(fb) + cols[..x];
          return;
        }
        assert cols[..x + 1] == cols[..x] + [cols[x]];
        x := x + 1;
      }
      assert cols[..x] == cols;
      ok := true;
    }

    /** `update_framebuffer`: clear, push the columns of every character of
        the text, three blank columns of padding, and reset the offset. A
        text wider than 40 columns panics at the push that overflows, with
        the first 40 columns in place. */
    method UpdateFramebuffer(s: string) returns (ok: bool)
      requires Valid()
      modifies this`fb, this`offset
      ensures Valid()
      ensures ok == (|Render(s)| <= FB_CAPACITY)
      ensures ok ==> fb == Render(s) && offset == 0
      ensures !ok ==> fb == Render(s)[..FB_CAPACITY] && offset == old(offset)
    {
      fb := [];
      var k := 0;
      while k < |s|
        invariant 0 <= k <= |s| && Valid()
        invariant fb == Columns(s[..k]) && offset == old(offset)
      {
        assert s[..k + 1][..k] == s[..k];
        ok := PushAll(CharColumns(s[k]));
        if !ok {
          ColumnsPrefix(s, k + 1);
          assert Columns(s[..k + 1]) <= Render(s);
          return;
        }
        k := k + 1;
      }
      assert s[..k] == s;
      ok := PushAll([BLANK, BLANK, BLANK]);
      if ok {
        offset := 0;
      }
    }

    /** `update_led_display`: on an empty framebuffer nothing happens;
        otherwise the offset moves on by one column, wrapping at the
        framebuffer's end, and the window at the new offset is shown. */
    method UpdateLedDisplay()
      requires Valid()
      modifies this`offset, this`shown
      ensures Valid()
      ensures old(fb) == [] ==> offset == old(offset) && shown == old(shown)
      ensures old(fb) != [] ==> (offset == (old(offset) + 1) % |fb| && offset < |fb|
        && shown == old(shown) + [Window(fb, offset)])
    {
      if |fb| == 0 {
        return;
      }
      offset := (offset + 1) % |fb|;
      var image := FillMatrix(fb, offset);
      shown := shown + [image];
    }

    /** The TIMER0 handler: each pending compare event is cleared and its
        register advanced by its interval with wrapping 32-bit addition;
        the scroll event also scrolls the display. */
    method HandleTimer()
      requires Valid()
      modifies this`compare0, this`compare1, this`cc0, this`cc1, this`offset, this`shown
      ensures Valid() && !compare0 && !compare1
      ensures cc0 == if old(compare0) then Advance(old(cc0), TIMER0_CC0_INTERVAL) else old(cc0)
      ensures cc1 == if old(compare1) then Advance(old(cc1), TIMER0_CC1_INTERVAL) else old(cc1)
      ensures !old(compare1) || fb == [] ==> offset == old(offset) && shown == old(shown)
      ensures old(compare1) && fb != [] ==> (offset == (old(offset) + 1) % |fb|
        && shown == old(shown) + [Window(fb, offset)])
    {
      if compare0 {
        compare0 := false;
        cc0 := WrapU32(cc0 + TIMER0_CC0_INTERVAL);
      }
      if compare1 {
        compare1 := false;
        cc1 := WrapU32(cc1 + TIMER0_CC1_INTERVAL);
        UpdateLedDisplay();
      }
    }
  }
}
