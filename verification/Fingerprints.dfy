/** Hexadecimal fingerprints: `ParseSHA256Fingerprint`. */
module Fingerprints {
  import opened Errors
  import opened Certificates

  /** White space as `strings.TrimSpace` sees it. */
  predicate IsSpace(c: char) {
    || '\t' <= c <= '\r' || c == ' '
    || c in {'\U{85}', '\U{A0}', '\U{1680}', '\U{2028}', '\U{2029}', '\U{202F}', '\U{205F}', '\U{3000}'}
    || '\U{2000}' <= c <= '\U{200A}'
  }

  predicate AllSpace(s: string) {
    forall i :: 0 <= i < |s| ==> IsSpace(s[i])
  }

  function TrimLeft(s: string): string {
    if s != [] && IsSpace(s[0]) then TrimLeft(s[1..]) else s
  }

  function TrimRight(s: string): string {
    if s != [] && IsSpace(s[|s| - 1]) then TrimRight(s[..|s| - 1]) else s
  }

  function TrimSpace(s: string): string {
    TrimRight(TrimLeft(s))
  }

  /** The value of a hexadecimal digit of either case. */
  function HexValue(c: char): (v: Option<byte>)
    ensures v.Some? ==> v.value < 16
  {
    if '0' <= c <= '9' then Some(((c as int) - ('0' as int)) as byte)
    else if 'a' <= c <= 'f' then Some(((c as int) - ('a' as int) + 10) as byte)
    else if 'A' <= c <= 'F' then Some(((c as int) - ('A' as int) + 10) as byte)
    else None
  }

  predicate AllHex(s: string) {
    forall i :: 0 <= i < |s| ==> HexValue(s[i]).Some?
  }

  /** `hex.DecodeString` on a string of even length. */
  function DecodeHex(s: string): (r: Option<seq<byte>>)
    requires |s| % 2 == 0
    ensures r.Some? ==> |r.value| == |s| / 2
  {
    if s == [] then Some([])
    else
      var hi, lo, rest := HexValue(s[0]), HexValue(s[1]), DecodeHex(s[2..]);
      if hi.None? || lo.None? || rest.None? then None
      else Some([16 * hi.value + lo.value] + rest.value)
  }

  function ParseSHA256Fingerprint(hexFP: string): Option<Fingerprint> {
    var s := TrimSpace(hexFP);
    if |s| != 64 then None else DecodeHex(s)
  }

  function HexDigit(v: byte): char
    requires v < 16
  {
    if v < 10 then (('0' as int) + v as int) as char else (('a' as int) + v as int - 10) as char
  }

  /** Lower-case hexadecimal, two digits a byte. */
  function PrintHex(bytes: seq<byte>): (s: string)
    ensures |s| == 2 * |bytes|
  {
    if bytes == [] then [] else [HexDigit(bytes[0] / 16), HexDigit(bytes[0] % 16)] + PrintHex(bytes[1..])
  }

  function Lower(c: char): char {
    if 'A' <= c <= 'Z' then ((c as int) + 32) as char else c
  }

  predicate SameUpToCase(s: string, t: string) {
    |s| == |t| && forall i :: 0 <= i < |s| ==> Lower(s[i]) == Lower(t[i])
  }

  lemma CaseKeepsHex(a: char, b: char)
    requires Lower(a) == Lower(b) && HexValue(b).Some?
    ensures HexValue(a).Some?
  {
  }

  lemma {:induction false} DecodeAccepts(s: string)
    requires |s| % 2 == 0
    ensures DecodeHex(s).Some? <==> AllHex(s)
  {
    if s != [] {
      DecodeAccepts(s[2..]);
      if AllHex(s) {
        assert forall i :: 0 <= i < |s| - 2 ==> s[2..][i] == s[i + 2];
      }
      if HexValue(s[0]).Some? && HexValue(s[1]).Some? && AllHex(s[2..]) {
        forall i | 0 <= i < |s| ensures HexValue(s[i]).Some? {
          if i >= 2 { assert s[i] == s[2..][i - 2]; }
        }
      }
    }
  }

  /** Two hexadecimal strings decode alike exactly when they differ in letter case only. */
  lemma {:induction false} DecodeAgrees(s: string, t: string)
    requires |s| == |t| && |s| % 2 == 0 && AllHex(s) && AllHex(t)
    ensures DecodeHex(s) == DecodeHex(t) <==> SameUpToCase(s, t)
  {
    hide HexValue, Lower;
    DecodeAccepts(s);
    DecodeAccepts(t);
    if s != [] {
      DecodeAccepts(s[2..]);
      DecodeAccepts(t[2..]);
      DecodeAgrees(s[2..], t[2..]);
      FirstByteAgrees(s[0], s[1], t[0], t[1]);
      SameCaseSplit(s, t);
      var ds, dt := DecodeHex(s).value, DecodeHex(t).value;
      assert ds[1..] == DecodeHex(s[2..]).value && dt[1..] == DecodeHex(t[2..]).value;
      assert ds == [ds[0]] + ds[1..] && dt == [dt[0]] + dt[1..];
    }
  }

  lemma FirstByteAgrees(a: char, b: char, c: char, d: char)
    requires HexValue(a).Some? && HexValue(b).Some? && HexValue(c).Some? && HexValue(d).Some?
    ensures 16 * HexValue(a).value + HexValue(b).value == 16 * HexValue(c).value + HexValue(d).value
       <==> Lower(a) == Lower(c) && Lower(b) == Lower(d)
  {
  }

  lemma SameCaseSplit(s: string, t: string)
    requires |s| == |t| && |s| >= 2
    ensures SameUpToCase(s, t)
       <==> Lower(s[0]) == Lower(t[0]) && Lower(s[1]) == Lower(t[1]) && SameUpToCase(s[2..], t[2..])
  {
  }

  lemma DigitsOfByte(b: byte)
    ensures HexValue(HexDigit(b / 16)) == Some(b / 16)
    ensures HexValue(HexDigit(b % 16)) == Some(b % 16)
    ensures 16 * (b / 16) + b % 16 == b
  {
  }

  lemma {:induction false} DecodePrinted(bytes: seq<byte>)
    ensures DecodeHex(PrintHex(bytes)) == Some(bytes)
  {
    hide HexDigit, HexValue;
    if bytes != [] {
      var s := PrintHex(bytes);
      assert s[2..] == PrintHex(bytes[1..]);
      DecodePrinted(bytes[1..]);
      DigitsOfByte(bytes[0]);
      assert bytes == [bytes[0]] + bytes[1..];
    }
  }

  lemma {:induction false} TrimLeftSkips(pre: string, s: string)
    requires AllSpace(pre)
    ensures TrimLeft(pre + s) == TrimLeft(s)
  {
    if pre == [] {
      assert pre + s == s;
    } else {
      assert (pre + s)[1..] == pre[1..] + s;
      TrimLeftSkips(pre[1..], s);
    }
  }

  lemma {:induction false} TrimRightSkips(s: string, post: string)
    requires AllSpace(post)
    ensures TrimRight(s + post) == TrimRight(s)
  {
    if post == [] {
      assert s + post == s;
    } else {
      assert (s + post)[..|s + post| - 1] == s + post[..|post| - 1];
      TrimRightSkips(s, post[..|post| - 1]);
    }
  }

  lemma TrimSurrounded(pre: string, s: string, post: string)
    requires AllSpace(pre) && AllSpace(post)
    requires s != [] && !IsSpace(s[0]) && !IsSpace(s[|s| - 1])
    ensures TrimSpace(pre + s + post) == s
  {
    assert pre + s + post == pre + (s + post);
    TrimLeftSkips(pre, s + post);
    TrimRightSkips(s, post);
  }

  /** Parsing undoes printing, whatever the surrounding white space and the letter case. */
  lemma ParsePrinted(fp: Fingerprint, text: string, pre: string, post: string)
    requires SameUpToCase(text, PrintHex(fp))
    requires AllSpace(pre) && AllSpace(post)
    ensures ParseSHA256Fingerprint(pre + text + post) == Some(fp)
  {
    DecodePrinted(fp);
    DecodeAccepts(PrintHex(fp));
    forall i | 0 <= i < |text| ensures HexValue(text[i]).Some? {
      CaseKeepsHex(text[i], PrintHex(fp)[i]);
    }
    TrimSurrounded(pre, text, post);
    DecodeAgrees(text, PrintHex(fp));
  }

  /** Exactly the strings that trim to 64 hexadecimal digits are accepted, and two of them name the
      same fingerprint exactly when they are equal up to trimming and letter case. */
  lemma ParseAccepts(a: string, b: string)
    ensures ParseSHA256Fingerprint(a).Some? <==> |TrimSpace(a)| == 64 && AllHex(TrimSpace(a))
    ensures ParseSHA256Fingerprint(a).Some? && ParseSHA256Fingerprint(b).Some? ==>
              (ParseSHA256Fingerprint(a) == ParseSHA256Fingerprint(b)
               <==> SameUpToCase(TrimSpace(a), TrimSpace(b)))
  {
    var s, t := TrimSpace(a), TrimSpace(b);
    if |s| == 64 {
      DecodeAccepts(s);
      if |t| == 64 {
        DecodeAccepts(t);
        if AllHex(s) && AllHex(t) {
          DecodeAgrees(s, t);
        }
      }
    }
  }

  // ---------- in the characters themselves ----------

  /** The white space of Unicode. */
  const WHITE: string :=
    "\t\n\U{0B}\U{0C}\r \U{85}\U{A0}\U{1680}\U{2000}\U{2001}\U{2002}\U{2003}\U{2004}\U{2005}\U{2006}\U{2007}"
    + "\U{2008}\U{2009}\U{200A}\U{2028}\U{2029}\U{202F}\U{205F}\U{3000}"

  predicate White(s: string) {
    forall c :: c in s ==> c in WHITE
  }

  /** `c` is the hexadecimal digit for `v`, in either case. */
  predicate Digit(c: char, v: int) {
    0 <= v < 16 && (c == "0123456789abcdef"[v] || c == "0123456789ABCDEF"[v])
  }

  /** 64 digits, two a byte, the high one first. */
  predicate Spells(digits: string, fp: Fingerprint) {
    && |digits| == 64
    && forall i :: 0 <= i < 32 ==> SpellsByte(digits[2 * i], digits[2 * i + 1], fp[i])
  }

  predicate SpellsByte(high: char, low: char, b: byte) {
    Digit(high, b as int / 16) && Digit(low, b as int % 16)
  }

  lemma IsSpaceMeans(c: char)
    ensures IsSpace(c) <==> c in WHITE
  {
  }

  lemma DigitMeans(c: char, v: int)
    ensures Digit(c, v) <==> HexValue(c).Some? && HexValue(c).value as int == v
  {
  }

  lemma SpellsByteMeans(high: char, low: char, b: byte)
    ensures SpellsByte(high, low, b)
       <==> HexValue(high).Some? && HexValue(low).Some? && 16 * HexValue(high).value + HexValue(low).value == b
  {
    DigitMeans(high, b as int / 16);
    DigitMeans(low, b as int % 16);
  }

  lemma {:induction false} DecodeSpells(s: string, bytes: seq<byte>)
    requires |s| == 2 * |bytes|
    ensures DecodeHex(s) == Some(bytes)
       <==> forall i :: 0 <= i < |bytes| ==> SpellsByte(s[2 * i], s[2 * i + 1], bytes[i])
  {
    hide HexValue, SpellsByte;
    if bytes != [] {
      var rest, tail := s[2..], bytes[1..];
      DecodeSpells(rest, tail);
      SpellsByteMeans(s[0], s[1], bytes[0]);
      assert forall i :: 0 <= i < |tail| ==> rest[2 * i] == s[2 * (i + 1)] && rest[2 * i + 1] == s[2 * (i + 1) + 1];
      if forall i :: 0 <= i < |bytes| ==> SpellsByte(s[2 * i], s[2 * i + 1], bytes[i]) {
        assert SpellsByte(s[2 * 0], s[2 * 0 + 1], bytes[0]);
        forall i | 0 <= i < |tail| ensures SpellsByte(rest[2 * i], rest[2 * i + 1], tail[i]) {
          assert SpellsByte(s[2 * (i + 1)], s[2 * (i + 1) + 1], bytes[i + 1]);
        }
        assert bytes == [bytes[0]] + tail;
      }
      if DecodeHex(s) == Some(bytes) {
        assert DecodeHex(rest).value == bytes[1..];
        forall i | 0 <= i < |bytes| ensures SpellsByte(s[2 * i], s[2 * i + 1], bytes[i]) {
          if i > 0 { assert SpellsByte(rest[2 * (i - 1)], rest[2 * (i - 1) + 1], tail[i - 1]); }
        }
      }
    }
  }

  lemma {:induction false} TrimLeftSplits(s: string) returns (pre: string)
    ensures s == pre + TrimLeft(s) && AllSpace(pre)
  {
    if s != [] && IsSpace(s[0]) {
      var rest := TrimLeftSplits(s[1..]);
      pre := [s[0]] + rest;
    } else {
      pre := [];
    }
  }

  lemma {:induction false} TrimRightSplits(s: string) returns (post: string)
    ensures s == TrimRight(s) + post && AllSpace(post)
  {
    if s != [] && IsSpace(s[|s| - 1]) {
      var rest := TrimRightSplits(s[..|s| - 1]);
      post := rest + [s[|s| - 1]];
    } else {
      post := [];
    }
  }

  lemma AllSpaceMeans(s: string)
    ensures AllSpace(s) <==> White(s)
  {
    hide IsSpace;
    forall c: char ensures IsSpace(c) <==> c in WHITE { IsSpaceMeans(c); }
    assert forall i :: 0 <= i < |s| ==> s[i] in s;
  }

  /** A string names fingerprint `fp` exactly when it is white space, 64 digits that spell `fp`, and white space.
      Every other string is refused. */
  lemma ParseMeans(text: string, fp: Fingerprint)
    ensures ParseSHA256Fingerprint(text) == Some(fp) <==>
              exists pre, digits, post :: text == pre + digits + post && White(pre) && White(post) && Spells(digits, fp)
  {
    hide IsSpace, SpellsByte, White, DecodeHex, HexValue;
    if ParseSHA256Fingerprint(text) == Some(fp) {
      var pre := TrimLeftSplits(text);
      var post := TrimRightSplits(TrimLeft(text));
      var digits := TrimSpace(text);
      AllSpaceMeans(pre);
      AllSpaceMeans(post);
      DecodeSpells(digits, fp);
      assert text == pre + digits + post;
    }
    forall pre, digits, post | text == pre + digits + post && White(pre) && White(post) && Spells(digits, fp)
      ensures ParseSHA256Fingerprint(text) == Some(fp)
    {
      AllSpaceMeans(pre);
      AllSpaceMeans(post);
      DecodeSpells(digits, fp);
      SpelledIsNoSpace(digits, fp);
      TrimSurrounded(pre, digits, post);
    }
  }

  lemma SpelledIsNoSpace(digits: string, fp: Fingerprint)
    requires Spells(digits, fp)
    ensures !IsSpace(digits[0]) && !IsSpace(digits[63])
  {
    assert SpellsByte(digits[2 * 0], digits[2 * 0 + 1], fp[0]);
    assert SpellsByte(digits[2 * 31], digits[2 * 31 + 1], fp[31]);
    DigitMeans(digits[0], fp[0] as int / 16);
    DigitMeans(digits[63], fp[31] as int % 16);
  }

  /** Printing spells the bytes in lower-case digits, so parsing undoes it inside any white space. */
  lemma PrintedSpells(fp: Fingerprint, pre: string, post: string)
    requires White(pre) && White(post)
    ensures Spells(PrintHex(fp), fp)
    ensures forall c :: c in PrintHex(fp) ==> c in "0123456789abcdef"
    ensures ParseSHA256Fingerprint(pre + PrintHex(fp) + post) == Some(fp)
  {
    DecodePrinted(fp);
    DecodeSpells(PrintHex(fp), fp);
    PrintedIsLower(fp);
    ParseMeans(pre + PrintHex(fp) + post, fp);
  }

  lemma {:induction false} PrintedIsLower(bytes: seq<byte>)
    ensures forall c :: c in PrintHex(bytes) ==> c in "0123456789abcdef"
  {
    if bytes != [] {
      DigitIsLower(bytes[0] / 16);
      DigitIsLower(bytes[0] % 16);
      PrintedIsLower(bytes[1..]);
    }
  }

  lemma DigitIsLower(v: byte)
    requires v < 16
    ensures HexDigit(v) in "0123456789abcdef"
  {
    assert HexDigit(v) == "0123456789abcdef"[v as int];
  }
}
