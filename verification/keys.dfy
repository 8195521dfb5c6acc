/** The text side of the key-entry protocol of main.py: the message that follows
    /setkey is stripped with Python's `str.strip()` and then accepted as an
    OpenAI key when it starts with "sk-" and is longer than 20 characters. */
module Keys {

  /** The prefix every accepted key starts with. */
  const KeyPrefix: string := "sk-"

  /** An accepted key is strictly longer than this many characters. */
  const MinKeyLength: nat := 20

  /** Python's `str.isspace()` for one code point: exactly the characters that
      `str.strip()` with no argument removes from either end. */
  predicate IsSpace(c: char) {
    || ('\t' <= c <= '\r')
    || ('\U{1C}' <= c <= '\U{1F}')
    || c == ' '
    || c == '\U{85}'
    || c == '\U{A0}'
    || c == '\U{1680}'
    || ('\U{2000}' <= c <= '\U{200A}')
    || c == '\U{2028}'
    || c == '\U{2029}'
    || c == '\U{202F}'
    || c == '\U{205F}'
    || c == '\U{3000}'
  }

  predicate AllSpace(s: string) {
    forall i | 0 <= i < |s| :: IsSpace(s[i])
  }

  /** Neither end is white space: what `strip()` leaves behind. */
  predicate Stripped(s: string) {
    s == [] || (!IsSpace(s[0]) && !IsSpace(s[|s| - 1]))
  }

  /** Python's `str.lstrip()`: drops the leading white space. */
  function TrimStart(s: string): (r: string)
    ensures |r| <= |s|
    ensures r == [] || !IsSpace(r[0])
  {
    if s != [] && IsSpace(s[0]) then TrimStart(s[1..]) else s
  }

  /** Python's `str.rstrip()`: drops the trailing white space; a non-empty
      result keeps the first character. */
  function TrimEnd(s: string): (r: string)
    ensures |r| <= |s|
    ensures r == [] || !IsSpace(r[|r| - 1])
    ensures r != [] ==> r[0] == s[0]
  {
    if s != [] && IsSpace(s[|s| - 1]) then TrimEnd(s[..|s| - 1]) else s
  }

  /** `lstrip()` removes white space only: the result is a suffix of the input
      and everything before it is white space. */
  lemma {:induction false} TrimStartDropsSpaceOnly(s: string)
    ensures TrimStart(s) == s[|s| - |TrimStart(s)|..]
    ensures AllSpace(s[..|s| - |TrimStart(s)|])
  {
    if s != [] && IsSpace(s[0]) {
      TrimStartDropsSpaceOnly(s[1..]);
      var k := |s| - |TrimStart(s)|;
      assert s[1..][k - 1..] == s[k..];
      assert forall i | 1 <= i < k :: s[i] == s[1..][..k - 1][i - 1];
    }
  }

  /** `rstrip()` removes white space only: the result is a prefix of the input
      and everything after it is white space. */
  lemma {:induction false} TrimEndDropsSpaceOnly(s: string)
    ensures TrimEnd(s) == s[..|TrimEnd(s)|]
    ensures AllSpace(s[|TrimEnd(s)|..])
  {
    if s != [] && IsSpace(s[|s| - 1]) {
      var t := s[..|s| - 1];
      TrimEndDropsSpaceOnly(t);
      var k := |TrimEnd(s)|;
      assert t[..k] == s[..k];
      assert forall i | k <= i < |s| - 1 :: s[i] == t[k..][i - k];
    }
  }

  /** Python's `str.strip()`. */
  function Strip(s: string): (r: string)
    ensures Stripped(r)
    ensures |r| <= |s|
  {
    TrimEnd(TrimStart(s))
  }

  /** The key-format test of handle_message: `startswith('sk-') and len(...) > 20`. */
  predicate IsValidKey(s: string) {
    KeyPrefix <= s && |s| > MinKeyLength
  }

  /** An accepted key is never the empty string, so every later
      `if not api_key` test on it sees a key. */
  lemma ValidKeyIsNonEmpty(s: string)
    requires IsValidKey(s)
    ensures s != [] && s[..3] == "sk-"
  {
  }

  lemma {:induction false} TrimStartOverSpace(pre: string, rest: string)
    requires AllSpace(pre)
    requires rest == [] || !IsSpace(rest[0])
    ensures TrimStart(pre + rest) == rest
  {
    if pre == [] {
      assert pre + rest == rest;
    } else {
      assert (pre + rest)[1..] == pre[1..] + rest;
      TrimStartOverSpace(pre[1..], rest);
    }
  }

  lemma {:induction false} TrimEndOverSpace(rest: string, post: string)
    requires AllSpace(post)
    requires rest == [] || !IsSpace(rest[|rest| - 1])
    ensures TrimEnd(rest + post) == rest
  {
    if post == [] {
      assert rest + post == rest;
    } else {
      assert (rest + post)[..|rest + post| - 1] == rest + post[..|post| - 1];
      TrimEndOverSpace(rest, post[..|post| - 1]);
    }
  }

  /** `strip()` removes any white space around a text and keeps the text itself:
      a key pasted with stray blanks or a trailing newline is read as the key. */
  lemma {:induction false} StripSurrounding(pre: string, core: string, post: string)
    requires AllSpace(pre) && AllSpace(post)
    requires Stripped(core)
    ensures Strip(pre + core + post) == core
  {
    if core == [] {
      assert pre + core + post == pre + post;
      TrimStartOverSpace(pre + post, []);
      assert pre + post + [] == pre + post;
      assert TrimStart(pre + post) == [];
    } else {
      assert pre + core + post == pre + (core + post);
      TrimStartOverSpace(pre, core + post);
      TrimEndOverSpace(core, post);
    }
  }

  /** Stripping twice is stripping once: a stored key, stripped already,
      is stored unchanged if it is sent again. */
  lemma StripIdempotent(s: string)
    ensures Strip(Strip(s)) == Strip(s)
  {
    var r := Strip(s);
    assert [] + r + [] == r;
    StripSurrounding([], r, []);
  }
}
