/** The colour picker: the `#RRGGBB` hex notation of CSS Color Module Level 4
    (section 5.2) that the text field accepts, the formatting of three channels into that
    notation, the reading of channels back from it, and the parsing of a computed
    `rgb(r, g, b)` colour (section 5.1 of the same module). */
module Color {
  import opened Wrappers
  import opened Text

  predicate IsHexDigit(c: char) {
    ('0' <= c <= '9') || ('a' <= c <= 'f') || ('A' <= c <= 'F')
  }

  /** `/^#[0-9A-Fa-f]{6}$/.test(s)`: a '#' and exactly six hex digits of either case. */
  predicate IsHexColor(s: string) {
    |s| == 7 && s[0] == '#' && forall i :: 1 <= i < 7 ==> IsHexDigit(s[i])
  }

  /** The value of one hex digit. */
  function DigitValue(c: char): (v: nat)
    requires IsHexDigit(c)
    ensures v < 16
  {
    if '0' <= c <= '9' then c as int - '0' as int
    else if 'a' <= c <= 'f' then c as int - 'a' as int + 10
    else c as int - 'A' as int + 10
  }

  /** The lowercase digit of a value below 16. */
  function LowerDigit(v: nat): (c: char)
    requires v < 16
    ensures IsHexDigit(c) && DigitValue(c) == v
  {
    if v < 10 then ('0' as int + v) as char else ('a' as int + v - 10) as char
  }

  /** `n.toString(16)`: the lowercase base-16 digits of `n`, without leading zeros. */
  function ToHex(n: nat): (s: string)
    ensures s != []
    decreases n
  {
    if n < 16 then [LowerDigit(n)] else ToHex(n / 16) + [LowerDigit(n % 16)]
  }

  /** `s.padStart(2, '0')`. */
  function PadStart2(s: string): string {
    if |s| >= 2 then s else seq(2 - |s|, _ => '0') + s
  }

  /** `c.toString(16).padStart(2, '0')`: one channel as it appears in the hex notation. */
  function ChannelHex(c: nat): string {
    PadStart2(ToHex(c))
  }

  /** `'#' + [r, g, b].map(...).join('')`: the colour `handleCanvasClick` passes to
      `onChange` for the pixel's channels, and `handleHueClick` for the parsed ones. */
  function HexOf(r: nat, g: nat, b: nat): string {
    "#" + ChannelHex(r) + ChannelHex(g) + ChannelHex(b)
  }

  /** The value of a string of hex digits, read as `parseInt(s, 16)` reads it. */
  function HexValue(s: string): nat
    requires forall i :: 0 <= i < |s| ==> IsHexDigit(s[i])
  {
    if s == [] then 0 else HexValue(s[..|s| - 1]) * 16 + DigitValue(s[|s| - 1])
  }

  /** A channel from 0 to 255 is exactly two lowercase hex digits, and reading them
      gives the channel back. */
  lemma ChannelHexSpec(c: nat)
    requires c < 256
    ensures var h := ChannelHex(c);
      && |h| == 2 && IsHexDigit(h[0]) && IsHexDigit(h[1])
      && !('A' <= h[0] <= 'F') && !('A' <= h[1] <= 'F')
      && HexValue(h) == c
  {
    var h := ChannelHex(c);
    if c < 16 {
      assert h == ['0', LowerDigit(c)];
    } else {
      assert ToHex(c / 16) == [LowerDigit(c / 16)];
      assert h == [LowerDigit(c / 16), LowerDigit(c % 16)];
    }
    assert h[..1] == [h[0]];
    assert HexValue(h[..1]) == DigitValue(h[0]) by {
      assert h[..1][..0] == [];
    }
  }

  /** A channel above 255 has more than two digits: its notation is not `#RRGGBB`. */
  lemma WideChannel(c: nat)
    requires c >= 256
    ensures |ChannelHex(c)| > 2
  {
    assert ToHex(c / 16) == ToHex(c / 16 / 16) + [LowerDigit(c / 16 % 16)];
  }

  /** `color.slice(i, i + 2)` read as base 16, for the hue computation. */
  function ChannelAt(color: string, i: nat): nat
    requires i + 2 <= |color|
    requires IsHexDigit(color[i]) && IsHexDigit(color[i + 1])
  {
    HexValue(color[i..i + 2])
  }

  /** Every colour the picker formats passes the text field's check, and reading the
      slices [1, 3), [3, 5) and [5, 7) gives back the channels it came from. */
  lemma HexOfRoundTrip(r: nat, g: nat, b: nat)
    requires r < 256 && g < 256 && b < 256
    ensures IsHexColor(HexOf(r, g, b))
    ensures ChannelAt(HexOf(r, g, b), 1) == r
    ensures ChannelAt(HexOf(r, g, b), 3) == g
    ensures ChannelAt(HexOf(r, g, b), 5) == b
  {
    ChannelHexSpec(r);
    ChannelHexSpec(g);
    ChannelHexSpec(b);
    var s := HexOf(r, g, b);
    assert s[1..3] == ChannelHex(r);
    assert s[3..5] == ChannelHex(g);
    assert s[5..7] == ChannelHex(b);
  }

  /** The channels are determined by the colour: different channels give different
      colours. */
  lemma HexOfInjective(r: nat, g: nat, b: nat, r': nat, g': nat, b': nat)
    requires r < 256 && g < 256 && b < 256 && r' < 256 && g' < 256 && b' < 256
    requires HexOf(r, g, b) == HexOf(r', g', b')
    ensures r == r' && g == g' && b == b'
  {
    HexOfRoundTrip(r, g, b);
    HexOfRoundTrip(r', g', b');
  }

  /** `\d`: an ASCII digit. */
  predicate IsDigit(c: char) {
    '0' <= c <= '9'
  }

  /** The value of a decimal digit. */
  function DecimalDigit(c: char): (v: nat)
    requires IsDigit(c)
    ensures v < 10
  {
    c as int - '0' as int
  }

  /** The end of the run of digits starting at `i`: where a greedy `\d+` stops. */
  function DigitRun(s: string, i: nat): (j: nat)
    requires i <= |s|
    ensures i <= j <= |s|
    ensures j == |s| || !IsDigit(s[j])
    decreases |s| - i
  {
    if i < |s| && IsDigit(s[i]) then DigitRun(s, i + 1) else i
  }

  predicate AllDigits(d: string) {
    forall i :: 0 <= i < |d| ==> IsDigit(d[i])
  }

  /** `parseInt(d)` of a string of decimal digits, read exactly (no rounding to a double). */
  function DecimalValue(d: string): nat
    requires AllDigits(d)
  {
    if d == [] then 0 else DecimalValue(d[..|d| - 1]) * 10 + DecimalDigit(d[|d| - 1])
  }

  lemma {:induction false} DigitRunDigits(s: string, i: nat)
    requires i <= |s|
    ensures forall k :: i <= k < DigitRun(s, i) ==> IsDigit(s[k])
    decreases |s| - i
  {
    if i < |s| && IsDigit(s[i]) {
      DigitRunDigits(s, i + 1);
    }
  }

  /** The three channels a match captures. */
  datatype Rgb = Rgb(r: nat, g: nat, b: nat)

  /** The digits starting at `i`, with the end of their run. */
  function Number(s: string, i: nat): (n: (nat, nat))
    requires i <= |s|
    ensures n.1 == DigitRun(s, i)
  {
    var j := DigitRun(s, i);
    DigitRunDigits(s, i);
    (DecimalValue(s[i..j]), j)
  }

  /** "rgb(" starts at `i`. */
  predicate OpenAt(s: string, i: nat) {
    i + 4 <= |s| && s[i] == 'r' && s[i + 1] == 'g' && s[i + 2] == 'b' && s[i + 3] == '('
  }

  /** ", " starts at `i`. */
  predicate CommaAt(s: string, i: nat) {
    i + 2 <= |s| && s[i] == ',' && s[i + 1] == ' '
  }

  /** `/rgb\((\d+), (\d+), (\d+)\)/` tried at position `i`. */
  function MatchRgbAt(s: string, i: nat): Option<Rgb>
    requires i <= |s|
  {
    if !OpenAt(s, i) then None
    else
      var (r, j1) := Number(s, i + 4);
      if j1 == i + 4 || !CommaAt(s, j1) then None
      else
        var (g, j2) := Number(s, j1 + 2);
        if j2 == j1 + 2 || !CommaAt(s, j2) then None
        else
          var (b, j3) := Number(s, j2 + 2);
          if j3 == j2 + 2 || j3 == |s| || s[j3] != ')' then None
          else Some(Rgb(r, g, b))
  }

  /** `s.match(...)` from position `i`: the leftmost match. */
  function FindRgb(s: string, i: nat): (m: Option<Rgb>)
    requires i <= |s|
    decreases |s| - i
  {
    if MatchRgbAt(s, i).Some? then MatchRgbAt(s, i)
    else if i == |s| then None
    else FindRgb(s, i + 1)
  }

  /** The search finds a match exactly when one starts somewhere, and it is the
      leftmost one. */
  lemma {:induction false} FindRgbSpec(s: string, i: nat)
    requires i <= |s|
    ensures FindRgb(s, i).None? <==> forall k :: i <= k <= |s| ==> MatchRgbAt(s, k).None?
    ensures FindRgb(s, i).Some? ==>
      exists k :: i <= k <= |s| && FindRgb(s, i) == MatchRgbAt(s, k)
                  && forall k' :: i <= k' < k ==> MatchRgbAt(s, k').None?
    decreases |s| - i
  {
    if MatchRgbAt(s, i).None? && i < |s| {
      FindRgbSpec(s, i + 1);
      if FindRgb(s, i).Some? {
        var k :| i + 1 <= k <= |s| && FindRgb(s, i + 1) == MatchRgbAt(s, k)
                 && forall k' :: i + 1 <= k' < k ==> MatchRgbAt(s, k').None?;
        assert forall k' :: i <= k' < k ==> MatchRgbAt(s, k').None?;
      }
    }
  }

  /** The colour `handleHueClick` passes to `onChange` for the computed style, or None
      when the computed string holds no `rgb(d+, d+, d+)` and nothing is called. */
  function HueColor(computed: string): Option<string> {
    var m := FindRgb(computed, 0);
    if m.None? then None else Some(HexOf(m.value.r, m.value.g, m.value.b))
  }

  /** A string in which "rgb(" does not occur produces no colour. */
  lemma NoRgbNoColor(computed: string)
    requires forall k :: 0 <= k <= |computed| ==> !OpenAt(computed, k)
    ensures HueColor(computed) == None
  {
    FindRgbSpec(computed, 0);
  }

  /** `n.toString()`: the decimal digits of `n`, without leading zeros. */
  function Decimal(n: nat): (d: string)
    ensures d != [] && AllDigits(d)
    ensures DecimalValue(d) == n
    decreases n
  {
    if n < 10 then [('0' as int + n) as char]
    else
      var d := Decimal(n / 10) + [('0' as int + n % 10) as char];
      assert d[..|d| - 1] == Decimal(n / 10);
      d
  }

  /** The digits `d` stand at `i` in `s` and a non-digit or the end follows them. */
  lemma NumberOf(s: string, i: nat, d: string)
    requires i + |d| <= |s| && s[i..i + |d|] == d
    requires d != [] && AllDigits(d)
    requires i + |d| == |s| || !IsDigit(s[i + |d|])
    ensures Number(s, i) == (DecimalValue(d), i + |d|)
  {
    forall k | i <= k < i + |d| ensures IsDigit(s[k]) {
      assert s[k] == d[k - i];
    }
    DigitRunOver(s, i, i + |d|);
  }

  lemma {:induction false} DigitRunOver(s: string, i: nat, j: nat)
    requires i <= j <= |s|
    requires forall k :: i <= k < j ==> IsDigit(s[k])
    requires j == |s| || !IsDigit(s[j])
    ensures DigitRun(s, i) == j
    decreases j - i
  {
    if i < j {
      DigitRunOver(s, i + 1, j);
    }
  }

  /** Where the pieces of `rgb(` R `, ` G `, ` B `)` stand. */
  lemma ComputedLayout(s: string, dr: string, dg: string, db: string)
    requires s == "rgb(" + dr + ", " + dg + ", " + db + ")"
    ensures var j1 := 4 + |dr|; var j2 := j1 + 2 + |dg|; var j3 := j2 + 2 + |db|;
      && |s| == j3 + 1
      && OpenAt(s, 0)
      && s[4..j1] == dr && CommaAt(s, j1)
      && s[j1 + 2..j2] == dg && CommaAt(s, j2)
      && s[j2 + 2..j3] == db && s[j3] == ')'
  {
    var x1 := "rgb(" + dr;
    var x2 := x1 + ", ";
    var x3 := x2 + dg;
    var x4 := x3 + ", ";
    var x5 := x4 + db;
    assert s == x5 + ")";
    assert s[..|x5|] == x5 && x5[..|x4|] == x4 && x4[..|x3|] == x3 && x3[..|x2|] == x2 && x2[..|x1|] == x1;
    assert x1[4..] == dr && x3[|x2|..] == dg && x5[|x4|..] == db;
  }

  /** A match at the start, given where its pieces stand. */
  lemma MatchAt(s: string, j1: nat, j2: nat, j3: nat)
    requires OpenAt(s, 0) && 4 < j1 && j1 + 2 < j2 && j2 + 2 < j3 < |s|
    requires AllDigits(s[4..j1]) && CommaAt(s, j1)
    requires AllDigits(s[j1 + 2..j2]) && CommaAt(s, j2)
    requires AllDigits(s[j2 + 2..j3]) && s[j3] == ')'
    ensures MatchRgbAt(s, 0) == Some(Rgb(DecimalValue(s[4..j1]), DecimalValue(s[j1 + 2..j2]), DecimalValue(s[j2 + 2..j3])))
  {
    NumberOf(s, 4, s[4..j1]);
    NumberOf(s, j1 + 2, s[j1 + 2..j2]);
    NumberOf(s, j2 + 2, s[j2 + 2..j3]);
  }

  /** `rgb(` R `, ` G `, ` B `)` with three runs of digits matches at the start. */
  lemma MatchOfLayout(s: string, dr: string, dg: string, db: string)
    requires s == "rgb(" + dr + ", " + dg + ", " + db + ")"
    requires dr != [] && dg != [] && db != [] && AllDigits(dr) && AllDigits(dg) && AllDigits(db)
    ensures MatchRgbAt(s, 0) == Some(Rgb(DecimalValue(dr), DecimalValue(dg), DecimalValue(db)))
  {
    ComputedLayout(s, dr, dg, db);
    var j1 := 4 + |dr|;
    var j2 := j1 + 2 + |dg|;
    var j3 := j2 + 2 + |db|;
    MatchAt(s, j1, j2, j3);
    assert s[4..j1] == dr && s[j1 + 2..j2] == dg && s[j2 + 2..j3] == db;
  }

  /** The computed colour of a browser, `rgb(r, g, b)` with channels from 0 to 255 in
      decimal, becomes the hex notation of those channels. */
  lemma HueColorOfComputed(r: nat, g: nat, b: nat)
    requires r < 256 && g < 256 && b < 256
    ensures var computed := "rgb(" + Decimal(r) + ", " + Decimal(g) + ", " + Decimal(b) + ")";
      HueColor(computed) == Some(HexOf(r, g, b)) && IsHexColor(HexOf(r, g, b))
  {
    var s := "rgb(" + Decimal(r) + ", " + Decimal(g) + ", " + Decimal(b) + ")";
    MatchOfLayout(s, Decimal(r), Decimal(g), Decimal(b));
    assert FindRgb(s, 0) == Some(Rgb(r, g, b));
    HexOfRoundTrip(r, g, b);
  }

  class ColorPicker {
    /** The text field. */
    var hexInput: string

    constructor(color: string)
      ensures hexInput == color
    {
      hexInput := color;
    }

    /** The effect on a change of the `color` prop: the field shows the new colour. */
    method SyncColor(color: string)
      modifies this
      ensures hexInput == color
    {
      hexInput := color;
    }

    /** `handleHexChange`: the typed text is always kept in the field, and passed to
        `onChange` exactly when it is a valid hex colour. */
    method HandleHexChange(value: string) returns (changed: Option<string>)
      modifies this
      ensures hexInput == value
      ensures changed == if IsHexColor(value) then Some(value) else None
    {
      hexInput := value;
      if IsHexColor(value) {
        changed := Some(value);
      } else {
        changed := None;
      }
    }
  }
}
