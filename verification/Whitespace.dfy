/** Python's `str.strip`, as several parts of the gateway use it. */
module Whitespace {
  /** The characters that `str.isspace` calls white space. */
  predicate IsSpace(c: char) {
    var n := c as int;
    || 0x09 <= n <= 0x0d || 0x1c <= n <= 0x20 || n == 0x85 || n == 0xa0 || n == 0x1680
    || 0x2000 <= n <= 0x200a || n == 0x2028 || n == 0x2029 || n == 0x202f || n == 0x205f || n == 0x3000
  }

  function StripLeft(s: string): string {
    if s != "" && IsSpace(s[0]) then StripLeft(s[1..]) else s
  }

  function StripRight(s: string): string {
    if s != "" && IsSpace(s[|s| - 1]) then StripRight(s[..|s| - 1]) else s
  }

  function Strip(s: string): string {
    StripRight(StripLeft(s))
  }

  lemma {:induction false} StripLeftDone(s: string)
    ensures StripLeft(StripLeft(s)) == StripLeft(s)
    ensures StripLeft(s) != "" ==> !IsSpace(StripLeft(s)[0])
    decreases |s|
  {
    if s != "" && IsSpace(s[0]) {
      StripLeftDone(s[1..]);
    }
  }

  lemma {:induction false} StripRightDone(s: string)
    ensures StripRight(StripRight(s)) == StripRight(s) && StripRight(s) <= s
    decreases |s|
  {
    if s != "" && IsSpace(s[|s| - 1]) {
      StripRightDone(s[..|s| - 1]);
    }
  }

  lemma StripTwice(s: string)
    ensures Strip(Strip(s)) == Strip(s)
  {
    StripLeftDone(s);
    StripRightDone(StripLeft(s));
  }
}
