/** Strings as Python's `str` methods see them. */
module Text {

  /** The characters `str.strip` and `str.split` treat as white space. */
  predicate IsSpace(c: char) {
    var n := c as int;
    || 0x09 <= n <= 0x0d || 0x1c <= n <= 0x20 || n == 0x85 || n == 0xa0 || n == 0x1680
    || 0x2000 <= n <= 0x200a || n == 0x2028 || n == 0x2029 || n == 0x202f || n == 0x205f || n == 0x3000
  }

  predicate Trimmed(s: string) {
    s == "" || (!IsSpace(s[0]) && !IsSpace(s[|s| - 1]))
  }

  /** `s.strip()` */
  function Strip(s: string): (r: string)
    ensures Trimmed(r) && |r| <= |s|
    ensures Trimmed(s) ==> r == s
    ensures r != "" <==> exists i :: 0 <= i < |s| && !IsSpace(s[i])
  {
    if s == "" then ""
    else if IsSpace(s[0]) then Strip(s[1..])
    else if IsSpace(s[|s| - 1]) then
      assert s[..|s| - 1][0] == s[0];
      Strip(s[..|s| - 1])
    else s
  }

  predicate Blank(s: string) {
    Strip(s) == ""
  }

  /** `separator.join(parts)` */
  function Join(separator: string, parts: seq<string>): string {
    if parts == [] then ""
    else if |parts| == 1 then parts[0]
    else parts[0] + separator + Join(separator, parts[1..])
  }

  // `value.split()` and `" ".join(...)`

  /** The leading run of characters that are not white space. */
  function Word(s: string): (w: string)
    ensures |w| <= |s| && w == s[..|w|]
    ensures s != "" && !IsSpace(s[0]) ==> w != "" && w[0] == s[0]
  {
    if s == "" || IsSpace(s[0]) then "" else [s[0]] + Word(s[1..])
  }

  /** `" ".join(s.split())`: single spaces between words, none at the ends. */
  function Compact(s: string): (r: string)
    ensures r == "" <==> Blank(s)
    ensures r != "" ==> !IsSpace(r[0])
    decreases |s|
  {
    if s == "" then ""
    else if IsSpace(s[0]) then
      assert (exists i :: 0 <= i < |s| && !IsSpace(s[i])) <==> exists i :: 0 <= i < |s[1..]| && !IsSpace(s[1..][i]);
      Compact(s[1..])
    else
      var rest := Compact(s[|Word(s)|..]);
      if rest == "" then Word(s) else Word(s) + " " + rest
  }

  function Min(a: nat, b: nat): nat {
    if a < b then a else b
  }

  /** `str(n)` */
  function Decimal(n: int): (r: string)
    ensures r != "" && Trimmed(r) && !Blank(r)
    decreases n < 0, if n < 0 then -n else n
  {
    if n < 0 then "-" + Decimal(-n)
    else if n < 10 then [('0' as int + n) as char]
    else Decimal(n / 10) + [('0' as int + n % 10) as char]
  }
}
