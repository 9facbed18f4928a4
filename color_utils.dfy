/** The popup's colour helpers: the contrast text colour and the picker/hex-field sync. */
module ColorUtils {
  import opened Wrappers
  import opened Strings

  /** The text colour chosen for a light background. */
  const DarkText := "#1D1C1D"
  /** The text colour chosen for a dark or unreadable background. */
  const LightText := "#FFFFFF"

  /** `s.substring(i, j)` for `i <= j`: both ends are clamped to the length. */
  function Substring(s: string, i: nat, j: nat): (r: string)
    requires i <= j
    ensures |r| == (if j <= |s| then j - i else if i <= |s| then |s| - i else 0)
    ensures forall k :: 0 <= k < |r| ==> r[k] == s[i + k]
  {
    if i >= |s| then [] else if j >= |s| then s[i..] else s[i..j]
  }

  /** The number of leading hexadecimal digits. */
  function LeadingHexDigits(s: string): (n: nat)
    ensures n <= |s|
    ensures forall k :: 0 <= k < n ==> IsHexDigit(s[k])
    ensures n < |s| ==> !IsHexDigit(s[n])
  {
    if s == [] || !IsHexDigit(s[0]) then 0 else 1 + LeadingHexDigits(s[1..])
  }

  /** The number written by a string of hexadecimal digits, most significant first. */
  function HexNumber(s: string): nat
    requires forall k :: 0 <= k < |s| ==> IsHexDigit(s[k])
  {
    if s == [] then 0 else HexNumber(s[..|s| - 1]) * 16 + HexValue(s[|s| - 1])
  }

  /** A leading `0x` or `0X`, which `parseInt` skips when the radix is 16. */
  predicate HasHexPrefix(s: string) {
    |s| >= 2 && s[0] == '0' && (s[1] == 'x' || s[1] == 'X')
  }

  /**
   * `parseInt(s, 16)` for a string that does not start with white space or a sign: after an
   * optional `0x` prefix, the value of the leading hexadecimal digits, or `None` (NaN) when
   * there are none.
   */
  function ParseHex(s: string): (v: Option<nat>)
    ensures var t := if HasHexPrefix(s) then s[2..] else s;
            v.None? <==> t == [] || !IsHexDigit(t[0])
  {
    var t := if HasHexPrefix(s) then s[2..] else s;
    var n := LeadingHexDigits(t);
    if n == 0 then None else Some(HexNumber(t[..n]))
  }

  /** A bare prefix is NaN; digits after it are read. */
  lemma HexPrefixExamples()
    ensures ParseHex("0x") == None && ParseHex("0X") == None
    ensures ParseHex("0xA") == Some(10)
    ensures ParseHex("0g") == Some(0)
  {
    assert HasHexPrefix("0xA") && "0xA"[2..] == "A";
    assert LeadingHexDigits("A") == 1 by {
      assert "A"[1..] == [];
    }
    assert "A"[..1] == "A" && "A"[..0] == [];
    assert LeadingHexDigits("0g") == 1 by {
      assert "0g"[1..] == "g";
    }
    assert "0g"[..1] == "0" && "0"[..0] == [];
  }

  /** The weighted brightness times 1000: `r * 299 + g * 587 + b * 114`. */
  function Brightness(r: int, g: int, b: int): int {
    r * 299 + g * 587 + b * 114
  }

  /**
   * `getContrastColor(bgColor, userTextColor)`: drop the first `#`, read three byte pairs,
   * and choose dark text when the brightness is strictly above 128. A pair that reads as NaN
   * makes the comparison false. The second argument is not used.
   */
  function GetContrastColor(bgColor: string, userTextColor: string): (t: string)
    ensures t == DarkText || t == LightText
  {
    var hex := RemoveFirst(bgColor, '#');
    var r := ParseHex(Substring(hex, 0, 2));
    var g := ParseHex(Substring(hex, 2, 4));
    var b := ParseHex(Substring(hex, 4, 6));
    if r.Some? && g.Some? && b.Some? && Brightness(r.value, g.value, b.value) > 128000 then DarkText
    else LightText
  }

  /** A colour written `#rrggbb` in either case: the pattern `^#[0-9A-Fa-f]{6}$`. */
  predicate IsHexColor(v: string) {
    |v| == 7 && v[0] == '#' && forall i :: 1 <= i < 7 ==> IsHexDigit(v[i])
  }

  /** The byte written by the digit pair at `i` and `i + 1`. */
  function Channel(v: string, i: nat): (c: nat)
    requires i + 1 < |v| && IsHexDigit(v[i]) && IsHexDigit(v[i + 1])
    ensures c < 256
  {
    16 * HexValue(v[i]) + HexValue(v[i + 1])
  }

  /** The byte pair read by `ParseHex` is the pair's value. */
  lemma ParsePair(p: string)
    requires |p| == 2 && IsHexDigit(p[0]) && IsHexDigit(p[1])
    ensures ParseHex(p) == Some(16 * HexValue(p[0]) + HexValue(p[1]))
  {
    assert LeadingHexDigits(p[1..]) == 1 by {
      assert p[1..][1..] == [];
    }
    assert p[..2] == p && p[..1] == [p[0]] && [p[0]][..0] == [];
    assert HexNumber([p[0]]) == HexValue(p[0]);
  }

  /**
   * On a `#rrggbb` colour the result is dark text exactly when the weighted brightness of
   * the three channels exceeds 128, whatever the user-chosen text colour.
   */
  lemma ContrastOfHexColor(bg: string, user: string, other: string)
    requires IsHexColor(bg)
    ensures GetContrastColor(bg, user) == DarkText <==> Brightness(Channel(bg, 1), Channel(bg, 3), Channel(bg, 5)) > 128000
    ensures GetContrastColor(bg, user) == GetContrastColor(bg, other)
  {
    var hex := RemoveFirst(bg, '#');
    assert hex == bg[1..];
    ParsePair(Substring(hex, 0, 2));
    ParsePair(Substring(hex, 2, 4));
    ParsePair(Substring(hex, 4, 6));
  }

  /** A background whose first pair is `0x` has a NaN channel and gets white text. */
  lemma HexPrefixChannelExample(user: string)
    ensures GetContrastColor("#0xFFFF", user) == LightText
  {
    var hex := RemoveFirst("#0xFFFF", '#');
    assert hex == "0xFFFF";
    assert Substring(hex, 0, 2) == "0x";
    assert ParseHex("0x") == None;
  }

  /** Brightness exactly 128 is not above it, so mid grey gets white text. */
  lemma MidGreyExample()
    ensures GetContrastColor("#808080", "#000000") == LightText
  {
    var bg := "#808080";
    assert IsHexColor(bg);
    ContrastOfHexColor(bg, "#000000", "#000000");
    assert Channel(bg, 1) == 128 && Channel(bg, 3) == 128 && Channel(bg, 5) == 128;
  }

  /** White gets dark text, in either case. */
  lemma WhiteExample()
    ensures GetContrastColor("#FFFFFF", "#FFFFFF") == DarkText
    ensures GetContrastColor("#ffffff", "#000000") == DarkText
  {
    var upper, lower := "#FFFFFF", "#ffffff";
    assert IsHexColor(upper) && IsHexColor(lower);
    ContrastOfHexColor(upper, "#FFFFFF", "#FFFFFF");
    ContrastOfHexColor(lower, "#000000", "#000000");
    assert Channel(upper, 1) == 255 && Channel(upper, 3) == 255 && Channel(upper, 5) == 255;
    assert Channel(lower, 1) == 255 && Channel(lower, 3) == 255 && Channel(lower, 5) == 255;
  }

  /** Black gets white text. */
  lemma BlackExample()
    ensures GetContrastColor("#000000", "#000000") == LightText
  {
    var bg := "#000000";
    assert IsHexColor(bg);
    ContrastOfHexColor(bg, "#000000", "#000000");
    assert Channel(bg, 1) == 0 && Channel(bg, 3) == 0 && Channel(bg, 5) == 0;
  }

  /** A background that does not parse falls back to white text. */
  lemma UnreadableBackground(user: string)
    ensures GetContrastColor("", user) == LightText
    ensures GetContrastColor("#12", user) == LightText
    ensures GetContrastColor("#zz0000", user) == LightText
  {
    assert RemoveFirst("#12", '#') == "12";
    assert RemoveFirst("#zz0000", '#') == "zz0000";
    assert Substring("12", 2, 4) == [];
    assert Substring("zz0000", 0, 2) == "zz";
  }

  /**
   * A background whose text after the `#` is shorter than five characters, or has a
   * character that is not a hexadecimal digit at the start of one of its three pairs, has a
   * NaN channel and so gets white text. A short text whose three pairs all start with a digit
   * is still read: see `FiveDigitBackground`.
   */
  lemma UnreadablePair(bg: string, user: string)
    ensures var hex := RemoveFirst(bg, '#');
            (|hex| <= 4 || !IsHexDigit(hex[0]) || !IsHexDigit(hex[2]) || !IsHexDigit(hex[4])) ==>
              GetContrastColor(bg, user) == LightText
  {
    var hex := RemoveFirst(bg, '#');
    if |hex| <= 4 {
      assert Substring(hex, 4, 6) == [];
    } else if !IsHexDigit(hex[0]) {
      assert Substring(hex, 0, 2)[0] == hex[0];
    } else if !IsHexDigit(hex[2]) {
      assert Substring(hex, 2, 4)[0] == hex[2];
    } else if !IsHexDigit(hex[4]) {
      assert Substring(hex, 4, 6)[0] == hex[4];
    }
  }

  /** Five digits are read as three pairs, the last of one digit: `#FFFFF` is light enough for dark text. */
  lemma FiveDigitBackground(user: string)
    ensures GetContrastColor("#FFFFF", user) == DarkText
    ensures GetContrastColor("#FFFFFg", user) == DarkText
  {
    var hex := RemoveFirst("#FFFFF", '#');
    assert hex == "FFFFF";
    assert Substring(hex, 0, 2) == "FF" && Substring(hex, 2, 4) == "FF" && Substring(hex, 4, 6) == "F";
    ParsePair("FF");
    assert LeadingHexDigits("F") == 1 by {
      assert "F"[1..] == [];
    }
    assert "F"[..1] == "F" && "F"[..0] == [];
    var hex2 := RemoveFirst("#FFFFFg", '#');
    assert hex2 == "FFFFFg";
    assert Substring(hex2, 0, 2) == "FF" && Substring(hex2, 2, 4) == "FF" && Substring(hex2, 4, 6) == "Fg";
    assert LeadingHexDigits("Fg") == 1 by {
      assert "Fg"[1..] == "g";
    }
    assert "Fg"[..1] == "F";
  }

  /** Raising any channel never turns dark text back into white text. */
  lemma ContrastMonotone(a: string, b: string, user: string)
    requires IsHexColor(a) && IsHexColor(b)
    requires Channel(a, 1) <= Channel(b, 1) && Channel(a, 3) <= Channel(b, 3) && Channel(a, 5) <= Channel(b, 5)
    requires GetContrastColor(a, user) == DarkText
    ensures GetContrastColor(b, user) == DarkText
  {
    ContrastOfHexColor(a, user, user);
    ContrastOfHexColor(b, user, user);
  }

  /** Upper-casing a colour keeps it a colour with the same channels. */
  lemma UpperKeepsChannels(v: string)
    requires IsHexColor(v)
    ensures IsHexColor(ToUpper(v))
    ensures Channel(ToUpper(v), 1) == Channel(v, 1) && Channel(ToUpper(v), 3) == Channel(v, 3)
            && Channel(ToUpper(v), 5) == Channel(v, 5)
  {
    var u := ToUpper(v);
    forall i | 1 <= i < 7
      ensures IsHexDigit(u[i]) && HexValue(u[i]) == HexValue(v[i])
    {
      assert u[i] == UpperChar(v[i]);
    }
  }

  /** The hex field's text with `#` prepended when it does not already start with one. */
  function Normalize(value: string): (v: string)
    ensures HasPrefix(v, "#")
    ensures HasPrefix(value, "#") ==> v == value
    ensures !HasPrefix(value, "#") ==> v == "#" + value
  {
    if HasPrefix(value, "#") then value else "#" + value
  }

  /** Normalising twice is normalising once. */
  lemma NormalizeIdempotent(value: string)
    ensures Normalize(Normalize(value)) == Normalize(value)
  {
  }

  /** A typed value is accepted exactly when it is a colour, or six digits without the `#`. */
  lemma AcceptedInputs(value: string)
    ensures IsHexColor(Normalize(value)) <==>
              IsHexColor(value) || (|value| == 6 && forall i :: 0 <= i < 6 ==> IsHexDigit(value[i]))
  {
    if !HasPrefix(value, "#") {
      var v := "#" + value;
      assert forall i :: 1 <= i < |v| ==> v[i] == value[i - 1];
    } else {
      assert value[0] == '#' && !IsHexDigit(value[0]);
    }
  }

  /** One colour picker and the hex field beside it. */
  class ColorPair {
    var picker: string
    var hex: string

    constructor (picker: string, hex: string)
      ensures this.picker == picker && this.hex == hex
    {
      this.picker := picker;
      this.hex := hex;
    }

    /** The picker reports `value`; the hex field shows it upper-cased. */
    method OnPickerInput(value: string)
      modifies this
      ensures picker == value && hex == ToUpper(value)
    {
      picker := value;
      hex := ToUpper(value);
    }

    /**
     * The hex field now reads `value`. After `#` is prepended when missing, the picker takes
     * the result if it is a `#rrggbb` colour and is left alone otherwise.
     */
    method OnHexInput(value: string)
      modifies this
      ensures hex == value
      ensures IsHexColor(Normalize(value)) ==> picker == Normalize(value)
      ensures !IsHexColor(Normalize(value)) ==> picker == old(picker)
    {
      hex := value;
      var v := value;
      if !HasPrefix(v, "#") {
        v := "#" + v;
      }
      if IsHexColor(v) {
        picker := v;
      }
    }
  }

  /** A picker colour copied to the hex field and typed back changes no channel. */
  lemma PickerRoundTrip(value: string)
    requires IsHexColor(value)
    ensures IsHexColor(Normalize(ToUpper(value)))
    ensures Channel(Normalize(ToUpper(value)), 1) == Channel(value, 1)
            && Channel(Normalize(ToUpper(value)), 3) == Channel(value, 3)
            && Channel(Normalize(ToUpper(value)), 5) == Channel(value, 5)
  {
    UpperKeepsChannels(value);
    assert HasPrefix(ToUpper(value), "#");
  }
}
