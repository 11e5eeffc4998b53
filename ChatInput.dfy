/** The message composer of the chat screen (src/components/ChatInput.tsx):
    a draft string, the trim-and-guard submit handler and the disabled
    predicate of the send button. The trim is JavaScript's
    `String.prototype.trim`, written out character by character. */
module ChatInput {

  import opened Wrappers

  /** The code points `String.prototype.trim` removes: ECMAScript WhiteSpace
      (tab, vertical tab, form feed, space, no-break space, byte order mark and
      every other space separator of category Zs) and LineTerminator (line feed,
      carriage return, line separator, paragraph separator). */
  predicate IsWhitespace(c: char)
    ensures IsWhitespace(c) ==> c as int < 0x1_0000
  {
    || c == '\U{9}' || c == '\U{A}' || c == '\U{B}' || c == '\U{C}' || c == '\U{D}'
    || c == '\U{20}' || c == '\U{A0}' || c == '\U{1680}'
    || ('\U{2000}' <= c <= '\U{200A}')
    || c == '\U{2028}' || c == '\U{2029}' || c == '\U{202F}' || c == '\U{205F}'
    || c == '\U{3000}' || c == '\U{FEFF}'
  }

  ghost predicate AllWhitespace(s: string) {
    forall i :: 0 <= i < |s| ==> IsWhitespace(s[i])
  }

  /** Neither end of `t` is whitespace (vacuously so for the empty string). */
  ghost predicate Stripped(t: string) {
    t == [] || (!IsWhitespace(t[0]) && !IsWhitespace(t[|t| - 1]))
  }

  /** The reference meaning of trimming, independent of how it is computed:
      `t` is what remains of `s` once a whitespace-only prefix and a
      whitespace-only suffix are removed, and `t` itself has no whitespace at
      either end. */
  ghost predicate IsTrimmingOf(s: string, t: string) {
    exists i, j :: TrimsAt(s, t, i, j)
  }

  /** `t` is `s[i..j]`, and the parts of `s` outside it are whitespace. */
  ghost predicate TrimsAt(s: string, t: string, i: int, j: int) {
    0 <= i <= j <= |s| && t == s[i..j]
    && AllWhitespace(s[..i]) && AllWhitespace(s[j..]) && Stripped(t)
  }

  /** Drops leading whitespace. */
  function TrimStart(s: string): (r: string)
    ensures |r| <= |s|
    ensures r != [] ==> !IsWhitespace(r[0])
    decreases |s|
  {
    if |s| > 0 && IsWhitespace(s[0]) then TrimStart(s[1..]) else s
  }

  /** Drops trailing whitespace. */
  function TrimEnd(s: string): (r: string)
    ensures |r| <= |s|
    ensures r != [] ==> !IsWhitespace(r[|r| - 1])
    decreases |s|
  {
    if |s| > 0 && IsWhitespace(s[|s| - 1]) then TrimEnd(s[..|s| - 1]) else s
  }

  /** `s.trim()`. */
  function Trim(s: string): (r: string)
    ensures |r| <= |s|
    ensures r == [] || !IsWhitespace(r[|r| - 1])
  {
    TrimEnd(TrimStart(s))
  }

  /** TrimStart removes exactly a whitespace prefix and stops at a
      non-whitespace character. */
  lemma {:induction false} TrimStartIsSuffix(s: string)
    ensures |TrimStart(s)| <= |s|
    ensures TrimStart(s) == s[|s| - |TrimStart(s)|..]
    ensures AllWhitespace(s[..|s| - |TrimStart(s)|])
    ensures TrimStart(s) != [] ==> !IsWhitespace(TrimStart(s)[0])
    decreases |s|
  {
    if |s| > 0 && IsWhitespace(s[0]) {
      TrimStartIsSuffix(s[1..]);
      var k := |s| - |TrimStart(s)|;
      assert s[1..][..k - 1] == s[1..k];
      assert s[1..][k - 1..] == s[k..];
    }
  }

  /** TrimEnd removes exactly a whitespace suffix and stops at a
      non-whitespace character. */
  lemma {:induction false} TrimEndIsPrefix(s: string)
    ensures |TrimEnd(s)| <= |s|
    ensures TrimEnd(s) == s[..|TrimEnd(s)|]
    ensures AllWhitespace(s[|TrimEnd(s)|..])
    ensures TrimEnd(s) != [] ==> !IsWhitespace(TrimEnd(s)[|TrimEnd(s)| - 1])
    decreases |s|
  {
    if |s| > 0 && IsWhitespace(s[|s| - 1]) {
      var p := s[..|s| - 1];
      TrimEndIsPrefix(p);
      var k := |TrimEnd(s)|;
      assert p[..k] == s[..k];
      assert s[k..] == p[k..] + [s[|s| - 1]];
    }
  }

  /** A whitespace prefix makes no difference to TrimStart. */
  lemma {:induction false} TrimStartSkipsWhitespace(a: string, u: string)
    requires AllWhitespace(a)
    ensures TrimStart(a + u) == TrimStart(u)
    decreases |a|
  {
    if a != [] {
      assert (a + u)[0] == a[0] && (a + u)[1..] == a[1..] + u;
      assert IsWhitespace(a[0]) && AllWhitespace(a[1..]);
      assert TrimStart(a + u) == TrimStart(a[1..] + u);
      TrimStartSkipsWhitespace(a[1..], u);
    } else {
      assert a + u == u;
    }
  }

  /** A whitespace suffix makes no difference to TrimEnd. */
  lemma {:induction false} TrimEndSkipsWhitespace(u: string, b: string)
    requires AllWhitespace(b)
    ensures TrimEnd(u + b) == TrimEnd(u)
    decreases |b|
  {
    if b != [] {
      assert (u + b)[|u + b| - 1] == b[|b| - 1];
      assert (u + b)[..|u + b| - 1] == u + b[..|b| - 1];
      assert IsWhitespace(b[|b| - 1]) && AllWhitespace(b[..|b| - 1]);
      assert TrimEnd(u + b) == TrimEnd(u + b[..|b| - 1]);
      TrimEndSkipsWhitespace(u, b[..|b| - 1]);
    } else {
      assert u + b == u;
    }
  }

  /** Trim computes a trimming of its input. */
  lemma TrimIsTrimming(s: string)
    ensures IsTrimmingOf(s, Trim(s))
  {
    var u := TrimStart(s);
    TrimStartIsSuffix(s);
    TrimEndIsPrefix(u);
    var i := |s| - |u|;
    var j := i + |TrimEnd(u)|;
    assert u[..|TrimEnd(u)|] == s[i..j];
    assert u[|TrimEnd(u)|..] == s[j..];
    assert TrimEnd(u) != [] ==> TrimEnd(u)[0] == u[0];
    assert TrimsAt(s, Trim(s), i, j);
  }

  /** Trim undoes surrounding a stripped string with whitespace. */
  lemma TrimOfPadded(a: string, t: string, b: string)
    requires AllWhitespace(a) && AllWhitespace(b) && Stripped(t)
    ensures Trim(a + t + b) == t
  {
    assert a + t + b == a + (t + b);
    TrimStartSkipsWhitespace(a, t + b);
    if t == [] {
      assert t + b == b + [];
      TrimStartSkipsWhitespace(b, []);
    } else {
      assert (t + b)[0] == t[0];
      TrimEndSkipsWhitespace(t, b);
    }
  }

  /** A string has only one trimming, and Trim finds it. */
  lemma TrimmingIsUnique(s: string, t: string)
    requires IsTrimmingOf(s, t)
    ensures t == Trim(s)
  {
    var i, j :| TrimsAt(s, t, i, j);
    assert s == s[..i] + t + s[j..];
    TrimOfPadded(s[..i], t, s[j..]);
  }

  /** The submit guard's condition: the trimmed draft is empty exactly
      when the draft consists of whitespace only. */
  lemma TrimEmptyIffWhitespace(s: string)
    ensures Trim(s) == [] <==> AllWhitespace(s)
  {
    TrimIsTrimming(s);
    if AllWhitespace(s) {
      assert TrimsAt(s, [], 0, 0) by { assert s[..0] == [] && s[0..] == s; }
      TrimmingIsUnique(s, []);
    }
  }

  /** Trimming a trimmed string changes nothing. */
  lemma TrimIdempotent(s: string)
    ensures Trim(Trim(s)) == Trim(s)
  {
    var t := Trim(s);
    TrimIsTrimming(s);
    assert t[0..|t|] == t && t[..0] == [] && t[|t|..] == [];
    assert TrimsAt(t, t, 0, |t|);
    TrimmingIsUnique(t, t);
  }

  /** What a non-empty submit sends: non-empty, stripped at both ends, and the
      draft with only surrounding whitespace removed. */
  lemma SentTextShape(draft: string)
    requires Trim(draft) != []
    ensures !IsWhitespace(Trim(draft)[0])
    ensures !IsWhitespace(Trim(draft)[|Trim(draft)| - 1])
    ensures IsTrimmingOf(draft, Trim(draft))
  {
    TrimIsTrimming(draft);
  }

  /** `disabled={!message.trim()}`: the send button is disabled exactly when
      the submit guard would reject the draft. */
  function SendDisabled(draft: string): (disabled: bool)
    ensures disabled <==> AllWhitespace(draft)
  {
    TrimEmptyIffWhitespace(draft);
    Trim(draft) == []
  }

  /** The component's state: the draft held in `message`. */
  class Composer {
    var message: string

    constructor ()
      ensures message == ""
    {
      message := "";
    }

    /** The input's `onChange`: the draft becomes the input's value. */
    method Type(value: string)
      modifies this
      ensures message == value
    {
      message := value;
    }

    /** The form's `handleSubmit`. `sent` is the argument of the single call
        to `onSendMessage`, or None when it is not called. */
    method Submit() returns (sent: Option<string>)
      modifies this
      ensures AllWhitespace(old(message)) ==> sent == None && message == old(message)
      ensures !AllWhitespace(old(message)) ==>
                sent == Some(Trim(old(message))) && message == ""
      ensures sent.Some? ==> sent.value != [] && Stripped(sent.value)
                             && IsTrimmingOf(old(message), sent.value)
    {
      TrimEmptyIffWhitespace(message);
      if Trim(message) != [] {
        SentTextShape(message);
        sent := Some(Trim(message));
        message := "";
      } else {
        sent := None;
      }
    }

    /** Whether the send button is disabled for the current draft. */
    function ButtonDisabled(): (disabled: bool)
      reads this
      ensures disabled <==> AllWhitespace(message)
    {
      SendDisabled(message)
    }
  }
}
