/** The JavaScript string operations the game relies on: `toUpperCase` (for key
    names), `trim` (for the name form), `split` (for bold markup) and
    `Number.prototype.toString` (for the string keys of the lookup tables). */
module Text {

  /** Upper-casing of one character, for the ASCII letters. */
  function UpperChar(c: char): char
  {
    if 'a' <= c <= 'z' then (c as int - 'a' as int + 'A' as int) as char else c
  }

  /** `s.toUpperCase()`: every ASCII letter upper-cased, length and other characters kept. */
  function ToUpperCase(s: string): (r: string)
    ensures |r| == |s|
    ensures forall i :: 0 <= i < |s| ==> r[i] == UpperChar(s[i])
  {
    if s == [] then [] else [UpperChar(s[0])] + ToUpperCase(s[1..])
  }

  /** The characters `String.prototype.trim` removes: the ECMAScript WhiteSpace
      (TAB, VT, FF, ZWNBSP and the Unicode space separators) and LineTerminator (LF, CR, LS, PS) sets. */
  predicate IsWhiteSpace(c: char)
  {
    || c == '\t' || c == '\n' || c == '\U{0B}' || c == '\U{0C}' || c == '\r' || c == ' '
    || c == '\U{A0}' || c == '\U{1680}' || ('\U{2000}' <= c <= '\U{200A}')
    || c == '\U{2028}' || c == '\U{2029}' || c == '\U{202F}' || c == '\U{205F}'
    || c == '\U{3000}' || c == '\U{FEFF}'
  }

  predicate AllWhiteSpace(s: string)
  {
    forall i :: 0 <= i < |s| ==> IsWhiteSpace(s[i])
  }

  function TrimStart(s: string): string
  {
    if s != [] && IsWhiteSpace(s[0]) then TrimStart(s[1..]) else s
  }

  function TrimEnd(s: string): string
  {
    if s != [] && IsWhiteSpace(s[|s| - 1]) then TrimEnd(s[..|s| - 1]) else s
  }

  /** `s.trim()`. */
  function Trim(s: string): string
  {
    TrimEnd(TrimStart(s))
  }

  /** Trimming keeps a contiguous slice of the input and removes only white space around it. */
  lemma {:induction false} TrimStartSlice(s: string)
    ensures var i := |s| - |TrimStart(s)|;
      0 <= i <= |s| && TrimStart(s) == s[i..] && AllWhiteSpace(s[..i])
    ensures TrimStart(s) == [] || !IsWhiteSpace(TrimStart(s)[0])
  {
    if s != [] && IsWhiteSpace(s[0]) {
      TrimStartSlice(s[1..]);
      var i := |s| - |TrimStart(s)|;
      assert s[1..][i - 1..] == s[i..];
      assert forall k :: 1 <= k < i ==> s[..i][k] == s[1..][..i - 1][k - 1];
    }
  }

  lemma {:induction false} TrimEndSlice(s: string)
    ensures var j := |TrimEnd(s)|;
      j <= |s| && TrimEnd(s) == s[..j] && AllWhiteSpace(s[j..])
    ensures TrimEnd(s) == [] || !IsWhiteSpace(TrimEnd(s)[|TrimEnd(s)| - 1])
  {
    if s != [] && IsWhiteSpace(s[|s| - 1]) {
      var p := s[..|s| - 1];
      TrimEndSlice(p);
      var j := |TrimEnd(s)|;
      assert p[..j] == s[..j];
      assert forall k :: 0 <= k < |s| - 1 - j ==> s[j..][k] == p[j..][k];
    }
  }

  /** `trim()` returns the input with its leading and trailing white space removed,
      and what remains neither starts nor ends with white space. */
  lemma TrimSpec(s: string)
    ensures exists i, j :: (0 <= i <= j <= |s| && Trim(s) == s[i..j]
                             && AllWhiteSpace(s[..i]) && AllWhiteSpace(s[j..]))
    ensures Trim(s) != [] ==> !IsWhiteSpace(Trim(s)[0]) && !IsWhiteSpace(Trim(s)[|Trim(s)| - 1])
  {
    TrimStartSlice(s);
    var t := TrimStart(s);
    var i := |s| - |t|;
    TrimEndSlice(t);
    var j := i + |TrimEnd(t)|;
    assert Trim(s) == s[i..j];
    assert t[|TrimEnd(t)|..] == s[j..];
    if Trim(s) != [] {
      assert TrimEnd(t)[0] == t[0];
    }
  }

  /** White space only is trimmed away entirely from the front. */
  lemma {:induction false} TrimStartAllWhiteSpace(s: string)
    requires AllWhiteSpace(s)
    ensures TrimStart(s) == []
  {
    if s != [] {
      TrimStartAllWhiteSpace(s[1..]);
    }
  }

  /** A trimmed string is empty exactly when the input was white space only:
      this is the test `name.trim()` makes in the name form. */
  lemma TrimEmptyIff(s: string)
    ensures Trim(s) == [] <==> AllWhiteSpace(s)
  {
    TrimStartSlice(s);
    var t := TrimStart(s);
    var i := |s| - |t|;
    TrimEndSlice(t);
    if AllWhiteSpace(s) {
      TrimStartAllWhiteSpace(s);
    }
    if Trim(s) == [] {
      assert t[|TrimEnd(t)|..] == t;
      assert t == [];
      assert s[..i] == s;
    }
  }

  /** Trimming twice is trimming once. */
  lemma TrimIdempotent(s: string)
    ensures Trim(Trim(s)) == Trim(s)
  {
    TrimSpec(s);
    var t := Trim(s);
    if t != [] {
      assert TrimStart(t) == t;
      assert TrimEnd(t) == t;
    }
  }

  /** `s.split(sep)` for a non-empty string separator: the pieces between the
      non-overlapping occurrences of `sep`, found from left to right. */
  function Split(s: string, sep: string): seq<string>
    requires sep != []
  {
    SplitFrom(s, sep, [])
  }

  /** No piece of a split contains the separator, and every piece but the last ends
      just before the leftmost occurrence that starts in it or after it: with the
      round trip below, this determines the pieces. */
  lemma SplitPieces(s: string, sep: string)
    requires sep != []
    ensures CutAtOccurrences(Split(s, sep), sep)
  {
    assert [] + s == s;
    SplitFromPieces(s, sep, []);
  }

  /** Of three stars, the first two are the separator and the third stays in the next piece. */
  lemma SplitLeftmostExample()
    ensures Split("a***b", "**") == ["a", "*b"]
  {
    assert "a***b"[..2][0] == 'a';
    assert "a***b"[1..] == "***b" && "***b"[..2] == "**" && "***b"[2..] == "*b";
    assert [] + ["a***b"[0]] == "a";
    assert SplitFrom("a***b", "**", []) == SplitFrom("***b", "**", "a");
    assert "*b"[..2][1] == 'b';
    assert "*b"[1..] == "b" && [] + ["*b"[0]] == "*";
    assert SplitFrom("*b", "**", []) == SplitFrom("b", "**", "*");
    assert "*" + "b" == "*b";
    assert SplitFrom("b", "**", "*") == ["*b"];
    assert SplitFrom("***b", "**", "a") == ["a"] + SplitFrom("*b", "**", []);
  }

  /** Pieces cut at the leftmost non-overlapping occurrences of `sep`. */
  predicate CutAtOccurrences(parts: seq<string>, sep: string)
    requires sep != []
  {
    && (forall i :: 0 <= i < |parts| ==> Avoids(parts[i], sep))
    && (forall i :: 0 <= i < |parts| - 1 ==> Avoids(parts[i] + sep[..|sep| - 1], sep))
  }

  /** `sep` occurs in `t` at position k. */
  predicate MatchesAt(t: string, sep: string, k: int)
  {
    0 <= k && k + |sep| <= |t| && t[k..k + |sep|] == sep
  }

  /** No occurrence of `sep` in `t` starts before position n. */
  predicate NoMatchBefore(t: string, sep: string, n: int)
  {
    forall k :: 0 <= k < n ==> !MatchesAt(t, sep, k)
  }

  /** `sep` does not occur in `t`. */
  predicate Avoids(t: string, sep: string)
  {
    NoMatchBefore(t, sep, |t|)
  }

  /** An occurrence in a prefix is an occurrence in the whole string. */
  lemma MatchInPrefix(u: string, t: string, sep: string, k: int)
    requires |u| <= |t| && u == t[..|u|] && MatchesAt(u, sep, k)
    ensures MatchesAt(t, sep, k)
  {
    assert t[k..k + |sep|] == u[k..k + |sep|];
  }

  /** The pieces `SplitFrom` yields when every position of the piece read so far
      has already been found not to start an occurrence. */
  lemma {:induction false} SplitFromPieces(s: string, sep: string, part: string)
    requires sep != []
    requires NoMatchBefore(part + s, sep, |part|)
    ensures CutAtOccurrences(SplitFrom(s, sep, part), sep)
    decreases |s|
  {
    var t := part + s;
    if |s| < |sep| {
      assert SplitFrom(s, sep, part) == [t];
      forall k | 0 <= k < |t| ensures !MatchesAt(t, sep, k) {
        if k >= |part| {
          assert k + |sep| > |t|;
        }
      }
    } else if s[..|sep|] == sep {
      var rest := SplitFrom(s[|sep|..], sep, []);
      SplitFromPieces(s[|sep|..], sep, []);
      SplitFromAtSeparatorPieces(s, sep, part);
      var parts := SplitFrom(s, sep, part);
      assert parts == [part] + rest;
      assert forall i :: 1 <= i < |parts| ==> parts[i] == rest[i - 1];
    } else {
      SplitFromPastCharClear(s, sep, part);
      SplitFromPieces(s[1..], sep, part + [s[0]]);
      SplitFromPastChar(s, sep, part);
    }
  }

  /** At an occurrence, the piece read so far closes, and neither it nor it followed
      by all but the last character of the separator contains the separator. */
  lemma SplitFromAtSeparatorPieces(s: string, sep: string, part: string)
    requires sep != [] && |s| >= |sep| && s[..|sep|] == sep
    requires NoMatchBefore(part + s, sep, |part|)
    ensures Avoids(part, sep) && Avoids(part + sep[..|sep| - 1], sep)
  {
    var t := part + s;
    var u := part + sep[..|sep| - 1];
    assert u == t[..|u|];
    assert part == t[..|part|];
    forall k | 0 <= k < |u| ensures !MatchesAt(u, sep, k) {
      if MatchesAt(u, sep, k) {
        MatchInPrefix(u, t, sep, k);
      }
    }
    forall k | 0 <= k < |part| ensures !MatchesAt(part, sep, k) {
      if MatchesAt(part, sep, k) {
        MatchInPrefix(part, t, sep, k);
      }
    }
  }

  /** Past a character that does not start an occurrence, that position is checked too. */
  lemma SplitFromPastCharClear(s: string, sep: string, part: string)
    requires sep != [] && |s| >= |sep| && s[..|sep|] != sep
    requires NoMatchBefore(part + s, sep, |part|)
    ensures NoMatchBefore((part + [s[0]]) + s[1..], sep, |part| + 1)
  {
    var t := part + s;
    ConcatFirst(part, s);
    assert t[|part|..|part| + |sep|] == s[..|sep|];
  }

  /** Splitting the rest `s` of a string when the piece being read so far is `part`. */
  function SplitFrom(s: string, sep: string, part: string): (parts: seq<string>)
    requires sep != []
    ensures |parts| >= 1
    decreases |s|
  {
    if |s| < |sep| then [part + s]
    else if s[..|sep|] == sep then [part] + SplitFrom(s[|sep|..], sep, [])
    else SplitFrom(s[1..], sep, part + [s[0]])
  }

  /** `parts.join(sep)`. */
  function Join(parts: seq<string>, sep: string): string
  {
    if parts == [] then []
    else if |parts| == 1 then parts[0]
    else parts[0] + sep + Join(parts[1..], sep)
  }

  lemma JoinCons(head: string, rest: seq<string>, sep: string)
    requires rest != []
    ensures Join([head] + rest, sep) == head + sep + Join(rest, sep)
  {
    assert ([head] + rest)[1..] == rest;
  }

  lemma {:induction false} JoinSplitFrom(s: string, sep: string, part: string)
    requires sep != []
    ensures Join(SplitFrom(s, sep, part), sep) == part + s
    decreases |s|
  {
    if |s| < |sep| {
      assert SplitFrom(s, sep, part) == [part + s];
    } else if s[..|sep|] == sep {
      JoinSplitFrom(s[|sep|..], sep, []);
      JoinSplitAtSeparator(s, sep, part);
    } else {
      JoinSplitFrom(s[1..], sep, part + [s[0]]);
      JoinSplitPastChar(s, sep, part);
    }
  }

  /** The step of the round trip where the string starts with the separator. */
  lemma JoinSplitAtSeparator(s: string, sep: string, part: string)
    requires sep != [] && |s| >= |sep| && s[..|sep|] == sep
    requires Join(SplitFrom(s[|sep|..], sep, []), sep) == s[|sep|..]
    ensures Join(SplitFrom(s, sep, part), sep) == part + s
  {
    var tail := s[|sep|..];
    var rest := SplitFrom(tail, sep, []);
    assert s == sep + tail by {
      assert s == s[..|sep|] + s[|sep|..];
    }
    assert SplitFrom(s, sep, part) == [part] + rest;
    JoinCons(part, rest, sep);
  }

  /** The step of the round trip where the string does not start with the separator. */
  lemma JoinSplitPastChar(s: string, sep: string, part: string)
    requires sep != [] && |s| >= |sep| && s[..|sep|] != sep
    requires Join(SplitFrom(s[1..], sep, part + [s[0]]), sep) == part + [s[0]] + s[1..]
    ensures Join(SplitFrom(s, sep, part), sep) == part + s
  {
    SplitFromPastChar(s, sep, part);
    ConcatFirst(part, s);
  }

  lemma SplitFromPastChar(s: string, sep: string, part: string)
    requires sep != [] && |s| >= |sep| && s[..|sep|] != sep
    ensures SplitFrom(s, sep, part) == SplitFrom(s[1..], sep, part + [s[0]])
  {
  }

  lemma ConcatFirst(part: string, s: string)
    requires s != []
    ensures part + [s[0]] + s[1..] == part + s
  {
    assert s == [s[0]] + s[1..];
  }

  /** Splitting on a separator and joining the pieces with it gives the string back. */
  lemma JoinSplit(s: string, sep: string)
    requires sep != []
    ensures |Split(s, sep)| >= 1
    ensures Join(Split(s, sep), sep) == s
  {
    JoinSplitFrom(s, sep, []);
    assert [] + s == s;
  }

  function DigitChar(d: int): char
    requires 0 <= d < 10
  {
    ('0' as int + d) as char
  }

  /** The decimal numeral of a natural number, as `n.toString()` writes it. */
  function NatToString(n: nat): (r: string)
    ensures |r| >= 1
    decreases n
  {
    if n < 10 then [DigitChar(n)] else NatToString(n / 10) + [DigitChar(n % 10)]
  }

  /** `n.toString()` for an integer. */
  function IntToString(n: int): string
  {
    if n < 0 then "-" + NatToString(-n) else NatToString(n)
  }

  /** The value a string of decimal digits denotes, read from left to right. */
  function DigitsValue(s: string): int
  {
    if s == [] then 0 else 10 * DigitsValue(s[..|s| - 1]) + (s[|s| - 1] as int - '0' as int)
  }

  predicate IsDigits(s: string)
  {
    forall i :: 0 <= i < |s| ==> '0' <= s[i] <= '9'
  }

  /** The numeral is made of decimal digits, denotes n, and has no leading zero. */
  lemma {:induction false} NatToStringDenotes(n: nat)
    ensures IsDigits(NatToString(n))
    ensures DigitsValue(NatToString(n)) == n
    ensures NatToString(n)[0] == '0' ==> n == 0
    decreases n
  {
    if n >= 10 {
      NatToStringDenotes(n / 10);
      var s := NatToString(n);
      assert s[..|s| - 1] == NatToString(n / 10);
      assert s[0] == NatToString(n / 10)[0];
    }
  }

  /** Distinct integers have distinct numerals. */
  lemma IntToStringInjective(a: int, b: int)
    requires IntToString(a) == IntToString(b)
    ensures a == b
  {
    if a >= 0 && b >= 0 {
      NatToStringDenotes(a);
      NatToStringDenotes(b);
    } else if a < 0 && b < 0 {
      NatToStringDenotes(-a);
      NatToStringDenotes(-b);
      assert NatToString(-a) == IntToString(a)[1..];
      assert NatToString(-b) == IntToString(b)[1..];
    } else {
      var n := if a >= 0 then a else b;
      NatToStringDenotes(n);
      assert false;
    }
  }
}
