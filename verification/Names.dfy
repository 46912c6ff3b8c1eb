/** The Python string operations the services use. */
module Names {

  function LowerChar(c: char): char {
    if 'A' <= c <= 'Z' then (c as int - 'A' as int + 'a' as int) as char else c
  }

  /** The twenty-six capitals fold to the letter thirty-two places on, and nothing else changes. */
  lemma LowerCharFolds(c: char)
    ensures 'A' <= c <= 'Z' ==> LowerChar(c) as int == c as int + 32
    ensures !('A' <= c <= 'Z') ==> LowerChar(c) == c
  {
  }

  function Lower(s: string): (r: string)
    ensures |r| == |s| && forall i | 0 <= i < |s| :: r[i] == LowerChar(s[i])
  {
    seq(|s|, i requires 0 <= i < |s| => LowerChar(s[i]))
  }

  /** `{d.lower() for d in domains}` */
  function LowerSet(domains: seq<string>): set<string> {
    set d | d in domains :: Lower(d)
  }

  /** `c.isspace()` */
  predicate IsSpace(c: char) {
    || '\t' <= c <= '\r' || '\U{1C}' <= c <= ' ' || c == '\U{85}' || c == '\U{A0}' || c == '\U{1680}'
    || '\U{2000}' <= c <= '\U{200A}' || c == '\U{2028}' || c == '\U{2029}' || c == '\U{202F}' || c == '\U{205F}' || c == '\U{3000}'
  }

  /** The whitespace characters by code point. */
  lemma SpacesByCode(c: char)
    ensures var n := c as int;
            IsSpace(c) <==> 9 <= n <= 13 || 28 <= n <= 32 || 8192 <= n <= 8202
                            || n in {133, 160, 5760, 8232, 8233, 8239, 8287, 12288}
  {
  }

  /** `s.rstrip()` */
  function RStrip(s: string): (r: string)
    ensures r <= s && (r == "" || !IsSpace(r[|r| - 1]))
  {
    if s != "" && IsSpace(s[|s| - 1]) then RStrip(s[..|s| - 1]) else s
  }

  /** `s.lstrip()` */
  function LStrip(s: string): (r: string)
    ensures |r| <= |s| && r == s[|s| - |r|..] && (r == "" || !IsSpace(r[0]))
  {
    if s != "" && IsSpace(s[0]) then LStrip(s[1..]) else s
  }

  /** `s.rstrip(".")` */
  function RStripDots(s: string): (r: string)
    ensures r <= s && (r == "" || r[|r| - 1] != '.') && forall i | |r| <= i < |s| :: s[i] == '.'
  {
    if s != "" && s[|s| - 1] == '.' then RStripDots(s[..|s| - 1]) else s
  }
}
