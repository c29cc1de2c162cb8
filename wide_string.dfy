/** The wide-string codec of the demo: `wide_null` turns a library name into
    the NUL-terminated UTF-16 buffer that `LoadLibraryW` reads, and
    `show_wide_null` turns such a buffer back into text for the log. */
module WideString {
  import opened Winapi

  /** The UTF-16 code units of one Unicode scalar value, as Rust's
      `encode_utf16` yields them: one unit inside the Basic Multilingual
      Plane, a high/low surrogate pair above it. */
  function CharUnits(c: char): (units: seq<u16>)
    ensures 1 <= |units| <= 2
    ensures units[0] == 0 <==> c == '\0'
    ensures |units| == 1 <==> c as int < 0x1_0000
    ensures |units| == 2 ==> 0xD800 <= units[0] < 0xDC00 && 0xDC00 <= units[1] < 0xE000
    ensures |units| == 2 ==> (units[0] as int - 0xD800) * 0x400 + (units[1] as int - 0xDC00) + 0x1_0000 == c as int
  {
    var v := c as int;
    if v < 0x1_0000 then [v]
    else [0xD800 + (v - 0x1_0000) / 0x400, 0xDC00 + (v - 0x1_0000) % 0x400]
  }

  /** `s.encode_utf16()`, collected: the code units of every character in order. */
  function Utf16(s: string): (units: seq<u16>)
    ensures |s| <= |units| <= 2 * |s|
    ensures (0 in units) <==> ('\0' in s)
  {
    if s == [] then [] else CharUnits(s[0]) + Utf16(s[1..])
  }

  /** The buffer `wide_null` builds: the code units of `s`, then one 0. */
  function WideNullOf(s: string): seq<u16> {
    Utf16(s) + [0]
  }

  /** `wide_null`: pushes every code unit of `s` into a fresh vector, then a
      single terminating 0. When `s` holds no NUL, that 0 is the only one. */
  method WideNull(s: string) returns (output: seq<u16>)
    ensures output == WideNullOf(s)
    ensures |output| == |Utf16(s)| + 1 && output[|output| - 1] == 0
    ensures '\0' !in s ==> forall i | 0 <= i < |output| - 1 :: output[i] != 0
  {
    var units := Utf16(s);
    output := [];
    for i := 0 to |units|
      invariant output == units[..i]
    {
      output := output + [units[i]];
    }
    output := output + [0];
  }

  /** `u as u8 as char`: the low byte of a unit, read as a Latin-1 character. */
  function LowByte(u: u16): (c: char)
    ensures c as int < 0x100
    ensures u < 0x100 ==> c as int == u
  {
    (u % 0x100) as char
  }

  /** `show_wide_null`: the characters of the units before the first 0 unit
      (or of all units when there is none), each truncated to its low byte. */
  function ShowWideNull(arr: seq<u16>): (r: string)
    ensures |r| <= |arr|
    ensures |r| < |arr| ==> arr[|r|] == 0
    ensures forall i | 0 <= i < |r| :: arr[i] != 0 && r[i] == LowByte(arr[i])
  {
    if arr == [] || arr[0] == 0 then [] else [LowByte(arr[0])] + ShowWideNull(arr[1..])
  }

  /** A name survives the trip through `wide_null` and `show_wide_null`
      exactly when each of its characters takes one byte and is not NUL. */
  predicate IsNarrow(s: string) {
    forall i | 0 <= i < |s| :: 0 < s[i] as int < 0x100
  }

  /** Nothing after the first 0 unit is read: the prefix up to and including
      that unit shows the same text as the whole buffer. */
  lemma {:induction false} ShowWideNullStopsAtZero(arr: seq<u16>, k: nat)
    requires k < |arr| && arr[k] == 0
    ensures ShowWideNull(arr[..k + 1]) == ShowWideNull(arr)
  {
    var prefix := arr[..k + 1];
    assert prefix[0] == arr[0];
    if arr[0] != 0 {
      assert prefix[1..] == arr[1..][..k];
      ShowWideNullStopsAtZero(arr[1..], k - 1);
    }
  }

  /** A string is narrow when its first character is and the rest is. */
  lemma NarrowCons(s: string)
    requires s != []
    ensures IsNarrow(s) <==> 0 < s[0] as int < 0x100 && IsNarrow(s[1..])
  {
    if 0 < s[0] as int < 0x100 && IsNarrow(s[1..]) {
      forall i | 0 <= i < |s| ensures 0 < s[i] as int < 0x100 {
        if i > 0 { assert s[i] == s[1..][i - 1]; }
      }
    }
  }

  /** Encoding a string over the Latin-1 range without NUL and showing the
      result gives the string back; any other string does not come back. */
  lemma {:induction false} ShowWideNullOfWideNull(s: string)
    ensures ShowWideNull(WideNullOf(s)) == s <==> IsNarrow(s)
  {
    if s == [] {
      assert WideNullOf(s) == [0];
    } else {
      var c, t := s[0], s[1..];
      var units, rest := CharUnits(c), WideNullOf(t);
      var wide := units + rest;
      assert WideNullOf(s) == wide;
      NarrowCons(s);
      if c == '\0' {
        assert wide[0] == 0;
      } else {
        var shown := ShowWideNull(wide);
        assert wide[0] == units[0] != 0;
        assert shown[0] == LowByte(units[0]);
        if c as int < 0x100 {
          assert wide[1..] == rest;
          assert shown == [c] + ShowWideNull(rest);
          ShowWideNullOfWideNull(t);
        } else {
          assert shown[0] != c;
        }
      }
    }
  }
}
