/**
  Line handling of the chat server: Python's `str.strip()` with no argument,
  the heartbeat control token, and the texts the server writes to clients.
 */
module Text {

  /** The control token a client sends to stay alive; it is never broadcast. */
  const Ping: string := "__ping__"

  /** The characters for which Python's `str.isspace()` holds. */
  predicate IsSpace(ch: char)
  {
    ch in {' ', '\t', '\n', '\r', '\U{0B}', '\U{0C}',
           '\U{1C}', '\U{1D}', '\U{1E}', '\U{1F}', '\U{85}', '\U{A0}',
           '\U{1680}', '\U{2000}', '\U{2001}', '\U{2002}', '\U{2003}', '\U{2004}',
           '\U{2005}', '\U{2006}', '\U{2007}', '\U{2008}', '\U{2009}', '\U{200A}',
           '\U{2028}', '\U{2029}', '\U{202F}', '\U{205F}', '\U{3000}'}
  }

  predicate AllSpace(s: string)
  {
    forall i :: 0 <= i < |s| ==> IsSpace(s[i])
  }

  /** `s.lstrip()`: drops the leading whitespace and nothing else. */
  function TrimStart(s: string): (r: string)
    ensures |r| <= |s|
    ensures r == [] || !IsSpace(r[0])
  {
    if |s| > 0 && IsSpace(s[0]) then TrimStart(s[1..]) else s
  }

  /** What `lstrip()` drops is whitespace, and what it keeps is a suffix of `s`. */
  lemma {:induction false} TrimStartShape(s: string)
    ensures TrimStart(s) == s[|s| - |TrimStart(s)|..]
    ensures forall i :: 0 <= i < |s| - |TrimStart(s)| ==> IsSpace(s[i])
  {
    if |s| > 0 && IsSpace(s[0]) {
      TrimStartShape(s[1..]);
      assert forall i :: 1 <= i < |s| - |TrimStart(s)| ==> s[i] == s[1..][i - 1];
    }
  }

  /** `s.rstrip()`: drops the trailing whitespace and nothing else. */
  function TrimEnd(s: string): (r: string)
    ensures |r| <= |s|
    ensures r == [] || !IsSpace(r[|r| - 1])
  {
    if |s| > 0 && IsSpace(s[|s| - 1]) then TrimEnd(s[..|s| - 1]) else s
  }

  /** What `rstrip()` drops is whitespace, and what it keeps is a prefix of `s`. */
  lemma {:induction false} TrimEndShape(s: string)
    ensures TrimEnd(s) == s[..|TrimEnd(s)|]
    ensures forall i :: |TrimEnd(s)| <= i < |s| ==> IsSpace(s[i])
  {
    if |s| > 0 && IsSpace(s[|s| - 1]) {
      var t := s[..|s| - 1];
      TrimEndShape(t);
      assert TrimEnd(s) == TrimEnd(t);
      assert t[..|TrimEnd(t)|] == s[..|TrimEnd(t)|];
      assert forall i :: |TrimEnd(s)| <= i < |s| - 1 ==> s[i] == t[i];
    }
  }

  /** `s.strip()`: what is left once the surrounding whitespace is gone. */
  function Strip(s: string): (r: string)
    ensures |r| <= |s|
    ensures r == [] || (!IsSpace(r[0]) && !IsSpace(r[|r| - 1]))
  {
    TrimEndShape(TrimStart(s));
    TrimEnd(TrimStart(s))
  }

  lemma SpaceRun(s: string, lo: int, hi: int)
    requires 0 <= lo <= hi <= |s|
    requires forall j :: lo <= j < hi ==> IsSpace(s[j])
    ensures AllSpace(s[lo..hi])
  {
    assert forall j :: 0 <= j < hi - lo ==> s[lo..hi][j] == s[lo + j];
  }

  lemma SplitAt(s: string, i: int)
    requires 0 <= i <= |s|
    ensures s == s[..i] + s[i..] && s[0..i] == s[..i] && s[i..|s|] == s[i..]
  {
  }

  /** `lstrip()` cuts a run of whitespace off the front of `s`. */
  lemma LeadingSpace(s: string)
    ensures var p := s[..|s| - |TrimStart(s)|]; s == p + TrimStart(s) && AllSpace(p)
  {
    var i := |s| - |TrimStart(s)|;
    TrimStartShape(s);
    SpaceRun(s, 0, i);
    SplitAt(s, i);
  }

  /** `rstrip()` cuts a run of whitespace off the back of `t`. */
  lemma TrailingSpace(t: string)
    ensures var q := t[|TrimEnd(t)|..]; t == TrimEnd(t) + q && AllSpace(q)
  {
    var k := |TrimEnd(t)|;
    TrimEndShape(t);
    SpaceRun(t, k, |t|);
    SplitAt(t, k);
  }

  /**
    `strip()` is its input with a run of whitespace cut off each end: the
    value is the middle of `s`, not just some string without surrounding
    whitespace.
   */
  lemma StripIsMiddle(s: string)
    ensures var t := TrimStart(s); var p, q := s[..|s| - |t|], t[|Strip(s)|..];
      s == p + Strip(s) + q && AllSpace(p) && AllSpace(q)
  {
    var t := TrimStart(s);
    LeadingSpace(s);
    TrailingSpace(t);
    Regroup(s[..|s| - |t|], TrimEnd(t), t[|TrimEnd(t)|..]);
  }

  lemma Regroup(p: string, r: string, q: string)
    ensures p + (r + q) == p + r + q
  {
  }

  /** A string without surrounding whitespace is its own `strip()`. */
  lemma StripKeepsTrimmed(s: string)
    requires s == [] || (!IsSpace(s[0]) && !IsSpace(s[|s| - 1]))
    ensures Strip(s) == s
  {
  }

  /** `strip()` is idempotent. */
  lemma StripIdempotent(s: string)
    ensures Strip(Strip(s)) == Strip(s)
  {
    StripKeepsTrimmed(Strip(s));
  }

  lemma {:induction false} TrimStartSkipsPadding(p: string, x: string)
    requires AllSpace(p)
    ensures TrimStart(p + x) == TrimStart(x)
  {
    if p != [] {
      assert (p + x)[0] == p[0] && (p + x)[1..] == p[1..] + x;
      TrimStartSkipsPadding(p[1..], x);
    } else {
      assert p + x == x;
    }
  }

  lemma {:induction false} TrimEndSkipsPadding(x: string, q: string)
    requires AllSpace(q)
    ensures TrimEnd(x + q) == TrimEnd(x)
  {
    if q != [] {
      var q' := q[..|q| - 1];
      assert (x + q)[|x + q| - 1] == q[|q| - 1] && (x + q)[..|x + q| - 1] == x + q';
      TrimEndSkipsPadding(x, q');
    } else {
      assert x + q == x;
    }
  }

  /** Trailing whitespace survives `lstrip()` of a string that has something else in it. */
  lemma {:induction false} TrimStartKeepsTail(x: string, q: string)
    requires TrimStart(x) != []
    ensures TrimStart(x + q) == TrimStart(x) + q
  {
    assert |x| > 0;
    if IsSpace(x[0]) {
      assert (x + q)[1..] == x[1..] + q;
      TrimStartKeepsTail(x[1..], q);
    }
  }

  /**
    `strip()` ignores whitespace padding on either side; with StripKeepsTrimmed
    this determines `strip()` completely.
   */
  lemma StripIgnoresPadding(p: string, s: string, q: string)
    requires AllSpace(p) && AllSpace(q)
    ensures Strip(p + s + q) == Strip(s)
  {
    assert p + s + q == p + (s + q);
    TrimStartSkipsPadding(p, s + q);
    if TrimStart(s) == [] {
      TrimStartShape(s);
      assert AllSpace(s);
      assert AllSpace(s + q);
      TrimStartSkipsPadding(s + q, []);
      assert s + q + [] == s + q;
    } else {
      TrimStartKeepsTail(s, q);
      TrimEndSkipsPadding(TrimStart(s), q);
    }
  }

  /** A line as `readline` returns it, newline included, strips to its text. */
  lemma StripLine(word: string)
    requires word != [] && !IsSpace(word[0]) && !IsSpace(word[|word| - 1])
    ensures Strip(word + "\n") == word
  {
    StripKeepsTrimmed(word);
    StripIgnoresPadding([], word, "\n");
    assert [] + word + "\n" == word + "\n";
  }

  /** The client's heartbeat line, the token followed by a newline, reads as a ping. */
  lemma HeartbeatLineIsPing()
    ensures Strip(Ping + "\n") == Ping
  {
    StripLine(Ping);
  }

  /** The line the server broadcasts for a chat message. */
  function ChatLine(clock: string, name: string, message: string): string
  {
    "[" + clock + "] " + name + ": " + message + "\n"
  }

  function WelcomeLine(name: string): string
  {
    "Welcome " + name + "! You are connected.\n"
  }

  function JoinNotice(name: string): string
  {
    "*** " + name + " joined the chat ***\n"
  }

  function LeaveNotice(name: string): string
  {
    "*** " + name + " left the chat ***\n"
  }
}
