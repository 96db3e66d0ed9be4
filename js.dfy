/** The few JavaScript built-ins the word-playlist core relies on:
    `undefined`, template-literal interpolation, `String.prototype.trim`
    and `String.prototype.split` with a one-character separator. */
module Js {

  /** A value that may be `undefined`. */
  datatype Option<T> = None | Some(value: T)

  /** The text that `${v}` contributes to a template literal: the string itself,
      or the word "undefined" when the value is `undefined`. */
  function TemplateText(v: Option<string>): string {
    match v
    case Some(s) => s
    case None => "undefined"
  }

  /** ECMAScript WhiteSpace and LineTerminator code points, the characters `trim` removes:
      TAB, VT, FF, SP, NBSP, ZWNBSP, the Unicode "Zs" space separators, LF, CR, LS and PS. */
  predicate IsWhitespace(c: char) {
    || c == '\t' || c == '\U{000B}' || c == '\U{000C}' || c == ' '
    || c == '\U{00A0}' || c == '\U{FEFF}'
    || c == '\U{1680}' || ('\U{2000}' <= c <= '\U{200A}')
    || c == '\U{202F}' || c == '\U{205F}' || c == '\U{3000}'
    || c == '\n' || c == '\r' || c == '\U{2028}' || c == '\U{2029}'
  }

  predicate AllWhitespace(s: string) {
    forall i :: 0 <= i < |s| ==> IsWhitespace(s[i])
  }

  /** Drops the leading whitespace: the result is a suffix of `s`, what was dropped is
      all whitespace, and the result does not start with whitespace. */
  function TrimStart(s: string): (r: string)
    ensures |r| <= |s| && r == s[|s| - |r|..]
    ensures AllWhitespace(s[..|s| - |r|])
    ensures r == [] || !IsWhitespace(r[0])
  {
    if |s| > 0 && IsWhitespace(s[0]) then
      var r := TrimStart(s[1..]);
      var d := |s| - |r|;
      assert AllWhitespace(s[..d]) by {
        forall i | 0 <= i < d ensures IsWhitespace(s[..d][i]) {
          if i > 0 { assert s[..d][i] == s[1..][..d - 1][i - 1]; }
        }
      }
      r
    else s
  }

  /** Drops the trailing whitespace: the result is a prefix of `s`, what was dropped is
      all whitespace, and the result does not end with whitespace. */
  function TrimEnd(s: string): (r: string)
    ensures |r| <= |s| && r == s[..|r|]
    ensures AllWhitespace(s[|r|..])
    ensures r == [] || !IsWhitespace(r[|r| - 1])
  {
    if |s| > 0 && IsWhitespace(s[|s| - 1]) then
      var r := TrimEnd(s[..|s| - 1]);
      assert r == s[..|r|];
      assert AllWhitespace(s[|r|..]) by {
        forall i | 0 <= i < |s| - |r| ensures IsWhitespace(s[|r|..][i]) {
          if i < |s| - 1 - |r| { assert s[|r|..][i] == s[..|s| - 1][|r|..][i]; }
        }
      }
      r
    else s
  }

  /** `s.trim()`. */
  function Trim(s: string): (r: string)
    ensures |r| <= |s|
    ensures r == [] <==> AllWhitespace(s)
    ensures r != [] ==> !IsWhitespace(r[0]) && !IsWhitespace(r[|r| - 1])
  {
    var t := TrimStart(s);
    assert t == [] ==> s[..|s| - |t|] == s;
    TrimEnd(t)
  }

  lemma {:induction false} TrimStartSkips(lead: string, rest: string)
    requires AllWhitespace(lead)
    requires rest == [] || !IsWhitespace(rest[0])
    ensures TrimStart(lead + rest) == rest
  {
    if lead != [] {
      assert (lead + rest)[1..] == lead[1..] + rest;
      TrimStartSkips(lead[1..], rest);
    } else {
      assert lead + rest == rest;
    }
  }

  lemma {:induction false} TrimEndSkips(core: string, trail: string)
    requires AllWhitespace(trail)
    requires core == [] || !IsWhitespace(core[|core| - 1])
    ensures TrimEnd(core + trail) == core
  {
    if trail != [] {
      var s := core + trail;
      assert s[|s| - 1] == trail[|trail| - 1];
      assert s[..|s| - 1] == core + trail[..|trail| - 1];
      TrimEndSkips(core, trail[..|trail| - 1]);
    } else {
      assert core + trail == core;
    }
  }

  /** `trim` removes exactly the surrounding whitespace: a string made of whitespace,
      a core that neither starts nor ends with whitespace, and whitespace again trims
      to that core. */
  lemma TrimRemovesSurroundingWhitespace(lead: string, core: string, trail: string)
    requires AllWhitespace(lead) && AllWhitespace(trail)
    requires core == [] || (!IsWhitespace(core[0]) && !IsWhitespace(core[|core| - 1]))
    ensures Trim(lead + core + trail) == core
  {
    var s := lead + core + trail;
    if core == [] {
      assert s == lead + trail;
      assert AllWhitespace(s) by {
        forall i | 0 <= i < |s| ensures IsWhitespace(s[i]) {
          if i < |lead| { assert s[i] == lead[i]; } else { assert s[i] == trail[i - |lead|]; }
        }
      }
    } else {
      assert s == lead + (core + trail);
      TrimStartSkips(lead, core + trail);
      TrimEndSkips(core, trail);
    }
  }

  /** Trimming twice is trimming once. */
  lemma TrimIdempotent(s: string)
    ensures Trim(Trim(s)) == Trim(s)
  {
  }

  /** The number of occurrences of `c` in `s`. */
  function Count(s: string, c: char): nat {
    if s == [] then 0 else (if s[0] == c then 1 else 0) + Count(s[1..], c)
  }

  /** `s.split(sep)` for a one-character separator: one more piece than there are
      separators, no piece holds the separator, and empty pieces are kept
      (`"".split(",")` is `[""]`). */
  function Split(s: string, sep: char): (pieces: seq<string>)
    ensures |pieces| == Count(s, sep) + 1
    ensures forall i :: 0 <= i < |pieces| ==> sep !in pieces[i]
  {
    if s == [] then [""]
    else
      var rest := Split(s[1..], sep);
      if s[0] == sep then [""] + rest else [[s[0]] + rest[0]] + rest[1..]
  }

  /** `pieces.join(sep)` for a one-character separator. */
  function Join(pieces: seq<string>, sep: char): string
    requires pieces != []
  {
    if |pieces| == 1 then pieces[0] else pieces[0] + [sep] + Join(pieces[1..], sep)
  }

  /** Splitting loses nothing: joining the pieces back gives the input. */
  lemma {:induction false} JoinSplit(s: string, sep: char)
    ensures Join(Split(s, sep), sep) == s
  {
    if s != [] {
      var rest := Split(s[1..], sep);
      JoinSplit(s[1..], sep);
      if s[0] == sep {
        assert ([""] + rest)[1..] == rest;
      } else {
        var pieces := [[s[0]] + rest[0]] + rest[1..];
        if |rest| == 1 {
          assert Join(pieces, sep) == [s[0]] + rest[0];
        } else {
          assert pieces[1..] == rest[1..];
          assert Join(pieces, sep) == [s[0]] + (rest[0] + [sep] + Join(rest[1..], sep));
        }
      }
    }
  }

  lemma {:induction false} SplitAfterPlainPrefix(p: string, t: string, sep: char)
    requires sep !in p
    ensures Split(p + t, sep) == [p + Split(t, sep)[0]] + Split(t, sep)[1..]
  {
    if p != [] {
      assert (p + t)[1..] == p[1..] + t;
      assert p[0] != sep;
      SplitAfterPlainPrefix(p[1..], t, sep);
      assert [p[0]] + (p[1..] + Split(t, sep)[0]) == p + Split(t, sep)[0];
    } else {
      var q := Split(t, sep);
      assert p + t == t && p + q[0] == q[0];
      assert q == [q[0]] + q[1..];
    }
  }

  /** Joining is undone by splitting when no piece holds the separator: the pieces of a
      joined string are the pieces it was joined from, in order. */
  lemma {:induction false} SplitJoin(pieces: seq<string>, sep: char)
    requires pieces != []
    requires forall i :: 0 <= i < |pieces| ==> sep !in pieces[i]
    ensures Split(Join(pieces, sep), sep) == pieces
  {
    var p := pieces[0];
    if |pieces| == 1 {
      SplitAfterPlainPrefix(p, "", sep);
      assert p + "" == p;
    } else {
      var j := Join(pieces[1..], sep);
      SplitJoin(pieces[1..], sep);
      assert ([sep] + j)[1..] == j;
      assert Split([sep] + j, sep) == [""] + pieces[1..];
      assert Join(pieces, sep) == p + ([sep] + j);
      SplitAfterPlainPrefix(p, [sep] + j, sep);
      assert p + "" == p;
    }
  }
}
