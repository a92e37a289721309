/** The string operations of the original's language that the models share. */
module PyStrings {
  /** The characters `str.strip` removes. */
  predicate IsSpace(c: char) {
    || '\U{0009}' <= c <= '\U{000D}'
    || '\U{001C}' <= c <= '\U{0020}'
    || c in {'\U{0085}', '\U{00A0}', '\U{1680}', '\U{2028}', '\U{2029}', '\U{202F}', '\U{205F}', '\U{3000}'}
    || '\U{2000}' <= c <= '\U{200A}'
  }

  function StripLeft(s: string): string {
    if s != "" && IsSpace(s[0]) then StripLeft(s[1..]) else s
  }

  function StripRight(s: string): string {
    if s != "" && IsSpace(s[|s| - 1]) then StripRight(s[..|s| - 1]) else s
  }

  function Strip(s: string): string {
    StripRight(StripLeft(s))
  }

  predicate AllSpace(s: string) {
    forall i :: 0 <= i < |s| ==> IsSpace(s[i])
  }

  lemma {:induction false} StripLeftExactly(s: string)
    ensures exists left :: AllSpace(left) && s == left + StripLeft(s)
    ensures StripLeft(s) != "" ==> !IsSpace(StripLeft(s)[0])
    decreases |s|
  {
    hide IsSpace;
    if s != "" && IsSpace(s[0]) {
      StripLeftExactly(s[1..]);
      var left :| AllSpace(left) && s[1..] == left + StripLeft(s[1..]);
      assert AllSpace([s[0]] + left) && s == [s[0]] + left + StripLeft(s);
    } else {
      assert AllSpace("") && s == "" + StripLeft(s);
    }
  }

  lemma {:induction false} StripRightExactly(s: string)
    ensures exists right :: AllSpace(right) && s == StripRight(s) + right
    ensures StripRight(s) != "" ==> !IsSpace(StripRight(s)[|StripRight(s)| - 1])
    ensures StripRight(s) <= s
    decreases |s|
  {
    hide IsSpace;
    if s != "" && IsSpace(s[|s| - 1]) {
      var (front, last) := (s[..|s| - 1], s[|s| - 1]);
      StripRightExactly(front);
      var right :| AllSpace(right) && front == StripRight(front) + right;
      assert s == front + [last];
      assert AllSpace(right + [last]) && s == StripRight(s) + (right + [last]);
    } else {
      assert AllSpace("") && s == StripRight(s) + "";
    }
  }

  /** Stripping takes white space off both ends and leaves none there. */
  lemma StripExactly(s: string)
    ensures exists left, right :: AllSpace(left) && AllSpace(right) && s == left + Strip(s) + right
    ensures Strip(s) != "" ==> !IsSpace(Strip(s)[0]) && !IsSpace(Strip(s)[|Strip(s)| - 1])
  {
    hide IsSpace;
    StripLeftExactly(s);
    StripRightExactly(StripLeft(s));
    var left :| AllSpace(left) && s == left + StripLeft(s);
    var right :| AllSpace(right) && StripLeft(s) == Strip(s) + right;
    assert s == left + Strip(s) + right;
    if Strip(s) != "" {
      assert Strip(s)[0] == StripLeft(s)[0];
    }
  }

  /** `str.lower` as far as ASCII results go: the capital letters and the Kelvin sign. */
  function LowerChar(c: char): char {
    if 'A' <= c <= 'Z' then c - 'A' + 'a' else if c == '\U{212A}' then 'k' else c
  }

  function Lower(s: string): string {
    if s == "" then "" else [LowerChar(s[0])] + Lower(s[1..])
  }
}
