/** The string operations the bot takes from Python: `str.capitalize()`,
    `str.strip()`, `sep.join(...)` and `s.split(sep)`. Case mapping covers the
    ASCII letters only; every other character is left as it is. */
module Text {

  predicate IsAsciiLower(c: char) { 'a' <= c <= 'z' }
  predicate IsAsciiUpper(c: char) { 'A' <= c <= 'Z' }

  function ToUpper(c: char): char
  {
    if IsAsciiLower(c) then (c as int - 32) as char else c
  }

  function ToLower(c: char): char
  {
    if IsAsciiUpper(c) then (c as int + 32) as char else c
  }

  function LowerAll(s: string): string
  {
    seq(|s|, i requires 0 <= i < |s| => ToLower(s[i]))
  }

  /** Python's `str.capitalize()`: the first character in upper case, every
      other one in lower case. */
  function Capitalize(s: string): (r: string)
    ensures |r| == |s|
    ensures |s| > 0 ==> r[0] == ToUpper(s[0])
    ensures forall i :: 0 < i < |s| ==> r[i] == ToLower(s[i])
  {
    if s == [] then [] else [ToUpper(s[0])] + LowerAll(s[1..])
  }

  /** Upper- and lower-casing a character only depend on its lower-case form. */
  lemma CaseThroughLower(c: char)
    ensures ToUpper(ToLower(c)) == ToUpper(c)
    ensures ToLower(ToUpper(c)) == ToLower(c)
    ensures ToUpper(ToUpper(c)) == ToUpper(c)
    ensures ToLower(ToLower(c)) == ToLower(c)
  {
  }

  /** Capitalizing twice is capitalizing once. */
  lemma CapitalizeIdempotent(s: string)
    ensures Capitalize(Capitalize(s)) == Capitalize(s)
  {
    var c, cc := Capitalize(s), Capitalize(Capitalize(s));
    forall i | 0 <= i < |s| ensures cc[i] == c[i] {
      CaseThroughLower(s[i]);
    }
  }

  /** Two arguments capitalize alike exactly when they agree up to the case of
      their letters: "monday", "MONDAY" and "mOnDaY" all become "Monday". */
  lemma CapitalizeIgnoresCase(s: string, t: string)
    ensures Capitalize(s) == Capitalize(t) <==> LowerAll(s) == LowerAll(t)
  {
    if LowerAll(s) == LowerAll(t) {
      assert |s| == |LowerAll(s)| == |t|;
      forall i | 0 <= i < |s| ensures Capitalize(s)[i] == Capitalize(t)[i] {
        assert LowerAll(s)[i] == LowerAll(t)[i];
        CaseThroughLower(s[i]);
        CaseThroughLower(t[i]);
      }
    }
    if Capitalize(s) == Capitalize(t) {
      forall i | 0 <= i < |s| ensures LowerAll(s)[i] == LowerAll(t)[i] {
        assert Capitalize(s)[i] == Capitalize(t)[i];
        CaseThroughLower(s[i]);
        CaseThroughLower(t[i]);
      }
    }
  }

  /** Python's `str.isspace()` for one character. */
  predicate IsSpace(c: char)
  {
    var n := c as int;
    n == 0x20 || 0x09 <= n <= 0x0d || 0x1c <= n <= 0x1f || n == 0x85 || n == 0xa0
    || n == 0x1680 || 0x2000 <= n <= 0x200a || n == 0x2028 || n == 0x2029
    || n == 0x202f || n == 0x205f || n == 0x3000
  }

  /** The length of the white-space run that starts `s`. */
  function LeadingSpaces(s: string): (n: nat)
    ensures n <= |s|
    ensures forall k :: 0 <= k < n ==> IsSpace(s[k])
    ensures n < |s| ==> !IsSpace(s[n])
  {
    if s != [] && IsSpace(s[0]) then 1 + LeadingSpaces(s[1..]) else 0
  }

  /** The length of the white-space run that ends `s`. */
  function TrailingSpaces(s: string): (n: nat)
    ensures n <= |s|
    ensures forall k :: |s| - n <= k < |s| ==> IsSpace(s[k])
    ensures n < |s| ==> !IsSpace(s[|s| - 1 - n])
  {
    if s != [] && IsSpace(s[|s| - 1]) then 1 + TrailingSpaces(s[..|s| - 1]) else 0
  }

  /** Python's `str.strip()`: the result is the part of `s` left after every
      leading and every trailing white-space character is dropped. */
  function Strip(s: string): (r: string)
    ensures r == [] || (!IsSpace(r[0]) && !IsSpace(r[|r| - 1]))
    ensures exists i :: OccursAt(s, r, i)
                        && (forall k :: 0 <= k < i ==> IsSpace(s[k]))
                        && (forall k :: i + |r| <= k < |s| ==> IsSpace(s[k]))
  {
    var i := LeadingSpaces(s);
    var t := s[i..];
    var n := TrailingSpaces(t);
    var r := t[..|t| - n];
    assert s[i..i + |r|] == r;
    assert OccursAt(s, r, i);
    assert forall k :: i + |r| <= k < |s| ==> s[k] == t[k - i];
    r
  }

  lemma {:induction false} LeadingSpacesAppend(s: string, c: char)
    ensures LeadingSpaces(s) < |s| ==> LeadingSpaces(s + [c]) == LeadingSpaces(s)
    ensures LeadingSpaces(s) == |s| && IsSpace(c) ==> LeadingSpaces(s + [c]) == |s| + 1
  {
    if s != [] {
      assert (s + [c])[1..] == s[1..] + [c];
      LeadingSpacesAppend(s[1..], c);
    } else {
      assert [c][1..] == [];
    }
  }

  /** A trailing white-space character lengthens the trailing run by one. */
  lemma TrailingSpacesAppend(t: string, c: char)
    requires IsSpace(c)
    ensures TrailingSpaces(t + [c]) == 1 + TrailingSpaces(t)
  {
    assert (t + [c])[..|t|] == t;
  }

  /** A trailing white-space character makes no difference to `strip()`. */
  lemma StripTrailingSpace(s: string, c: char)
    requires IsSpace(c)
    ensures Strip(s + [c]) == Strip(s)
  {
    LeadingSpacesAppend(s, c);
    var i := LeadingSpaces(s);
    if i < |s| {
      var t := s[i..];
      assert (s + [c])[i..] == t + [c];
      TrailingSpacesAppend(t, c);
      var n := TrailingSpaces(t);
      assert (t + [c])[..|t| - n] == t[..|t| - n];
    } else {
      assert (s + [c])[|s| + 1..] == [];
      assert s[|s|..] == [];
    }
  }

  /** `piece` stands in `text` starting at index `i`. */
  predicate OccursAt(text: string, piece: string, i: int)
  {
    0 <= i && i + |piece| <= |text| && text[i..i + |piece|] == piece
  }

  /** `text` contains `piece` as a contiguous substring. */
  ghost predicate Mentions(text: string, piece: string)
  {
    exists i :: OccursAt(text, piece, i)
  }

  /** Python's `sep.join(parts)` for a one-character separator. */
  function Join(parts: seq<string>, sep: char): string
  {
    if |parts| == 0 then ""
    else if |parts| == 1 then parts[0]
    else parts[0] + [sep] + Join(parts[1..], sep)
  }

  /** Python's `s.split(sep)` for a one-character separator. */
  function Split(s: string, sep: char): (parts: seq<string>)
    ensures |parts| > 0
  {
    if s == [] then [""]
    else
      var rest := Split(s[1..], sep);
      if s[0] == sep then [""] + rest else [[s[0]] + rest[0]] + rest[1..]
  }

  lemma {:induction false} SplitWithoutSeparator(a: string, sep: char)
    requires sep !in a
    ensures Split(a, sep) == [a]
  {
    if a != [] {
      assert a[0] in a;
      assert forall c :: c in a[1..] ==> c in a;
      SplitWithoutSeparator(a[1..], sep);
      assert [a[0]] + a[1..] == a;
    }
  }

  lemma {:induction false} SplitAtSeparator(a: string, rest: string, sep: char)
    requires sep !in a
    ensures Split(a + [sep] + rest, sep) == [a] + Split(rest, sep)
  {
    var s := a + [sep] + rest;
    if a == [] {
      assert s[1..] == rest;
    } else {
      assert a[0] in a;
      assert forall c :: c in a[1..] ==> c in a;
      assert s[0] == a[0];
      assert s[1..] == a[1..] + [sep] + rest;
      SplitAtSeparator(a[1..], rest, sep);
      assert [a[0]] + a[1..] == a;
    }
  }

  /** Splitting a join on its separator gives the parts back, provided no part
      contains the separator: each part is one line of the joined text. */
  lemma {:induction false} SplitJoin(parts: seq<string>, sep: char)
    requires |parts| > 0
    requires forall i :: 0 <= i < |parts| ==> sep !in parts[i]
    ensures Split(Join(parts, sep), sep) == parts
  {
    if |parts| == 1 {
      SplitWithoutSeparator(parts[0], sep);
    } else {
      SplitJoin(parts[1..], sep);
      SplitAtSeparator(parts[0], Join(parts[1..], sep), sep);
      assert [parts[0]] + parts[1..] == parts;
    }
  }
}
