/** Half-width / full-width conversion of `Convert3`: the printable ASCII
    characters U+0021..U+007E correspond to the full-width forms
    U+FF01..U+FF5E (a constant offset of 65248), and the ASCII space U+0020
    to the ideographic space U+3000 (12288). */
module FullWidth {
  import opened Common

  /** The offset between a printable ASCII character and its full-width form. */
  const Offset: int := 65248
  const Space: Char16 := 32
  const IdeographicSpace: Char16 := 12288

  /** The outcome of a `TryTo…(ref char c)` call: whether it changed `c`,
      and the character left in `c`. */
  datatype CharTry = CharTry(changed: bool, c: Char16)

  /** The characters `TryToSBC` converts: the ASCII space and printable ASCII. */
  predicate IsHalfWidth(c: Char16) {
    32 <= c <= 126
  }

  /** The characters `TryToDBC` converts: the ideographic space and the
      full-width forms U+FF01..U+FF5E. */
  predicate IsFullWidth(c: Char16) {
    c == IdeographicSpace || 65281 <= c <= 65374
  }

  /** `TryToSBC(ref char c)`: half-width to full-width. */
  function TryToSBC(c: Char16): (r: CharTry)
    ensures r.changed <==> IsHalfWidth(c)
    ensures r.changed ==> IsFullWidth(r.c)
    ensures !r.changed ==> r.c == c
  {
    if c < 127 then
      if c > 32 then CharTry(true, c + 65248)
      else if c == 32 then CharTry(true, IdeographicSpace)
      else CharTry(false, c)
    else CharTry(false, c)
  }

  /** `TryToDBC(ref char c)`: full-width to half-width. */
  function TryToDBC(c: Char16): (r: CharTry)
    ensures r.changed <==> IsFullWidth(c)
    ensures r.changed ==> IsHalfWidth(r.c)
    ensures !r.changed ==> r.c == c
  {
    if c == 12288 then CharTry(true, Space)
    else if c >= 65281 && c <= 65374 then CharTry(true, c - 65248)
    else CharTry(false, c)
  }

  /** `ToSBC(char c)`. */
  function ToSBC(c: Char16): Char16 {
    TryToSBC(c).c
  }

  /** `ToDBC(char c)`. */
  function ToDBC(c: Char16): Char16 {
    TryToDBC(c).c
  }

  /** Narrowing undoes widening: `TryToDBC` reverses every change `TryToSBC`
      makes, and in particular `ToDBC(ToSBC(c)) == c` for every `c < 127`. */
  lemma WidenThenNarrow(c: Char16)
    requires c < 127
    ensures TryToSBC(c).changed ==> TryToDBC(TryToSBC(c).c) == CharTry(true, c)
    ensures ToDBC(ToSBC(c)) == c
  {
  }

  /** Widening undoes narrowing. */
  lemma NarrowThenWiden(c: Char16)
    ensures TryToDBC(c).changed ==> TryToSBC(TryToDBC(c).c) == CharTry(true, c)
  {
  }

  /** Every character of `s` through `ToSBC(char)`. */
  function WidenAll(s: String16): (r: String16)
    ensures |r| == |s|
    ensures forall i :: 0 <= i < |s| ==> r[i] == ToSBC(s[i])
  {
    if s == [] then [] else [ToSBC(s[0])] + WidenAll(s[1..])
  }

  /** Every character of `s` through `ToDBC(char)`. */
  function NarrowAll(s: String16): (r: String16)
    ensures |r| == |s|
    ensures forall i :: 0 <= i < |s| ==> r[i] == ToDBC(s[i])
  {
    if s == [] then [] else [ToDBC(s[0])] + NarrowAll(s[1..])
  }

  /** `ToDBC(ToSBC(s)) == s` for every string of characters below 127. */
  lemma WidenAllThenNarrowAll(s: String16)
    requires forall i :: 0 <= i < |s| ==> s[i] < 127
    ensures NarrowAll(WidenAll(s)) == s
  {
    forall i | 0 <= i < |s|
      ensures NarrowAll(WidenAll(s))[i] == s[i]
    {
      WidenThenNarrow(s[i]);
    }
  }

  /** `ToSBC(string input)`: copies the input into a `char[]` and widens it
      in place, one character at a time. */
  method ToSBCString(input: String16) returns (r: String16)
    ensures r == WidenAll(input)
  {
    var arr := new Char16[|input|](i requires 0 <= i < |input| => input[i]);
    var length := arr.Length;
    for i := 0 to length
      invariant forall j :: 0 <= j < i ==> arr[j] == ToSBC(input[j])
      invariant forall j :: i <= j < length ==> arr[j] == input[j]
    {
      var c := TryToSBC(arr[i]);
      if c.changed {
        arr[i] := c.c;
      }
    }
    r := arr[..];
  }

  /** `ToDBC(string input)`: copies the input into a `char[]` and narrows it
      in place, one character at a time. */
  method ToDBCString(input: String16) returns (r: String16)
    ensures r == NarrowAll(input)
  {
    var arr := new Char16[|input|](i requires 0 <= i < |input| => input[i]);
    var length := arr.Length;
    for i := 0 to length
      invariant forall j :: 0 <= j < i ==> arr[j] == ToDBC(input[j])
      invariant forall j :: i <= j < length ==> arr[j] == input[j]
    {
      var c := TryToDBC(arr[i]);
      if c.changed {
        arr[i] := c.c;
      }
    }
    r := arr[..];
  }
}
