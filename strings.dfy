/** The string operations the caching layer relies on (Foundation's
    hasPrefix, range(of:), replacingOccurrences and %lld formatting),
    written out over seq<char>. */
module Strings {

  /** `s.hasPrefix(p)`. */
  predicate StartsWith(s: string, p: string) {
    |p| <= |s| && s[..|p|] == p
  }

  /** `s.range(of: t) != nil`, for a non-empty `t`. */
  predicate Contains(s: string, t: string)
    decreases |s|
  {
    StartsWith(s, t) || (s != [] && Contains(s[1..], t))
  }

  /** `s.replacingOccurrences(of: pat, with: rep)`: every occurrence, scanning
      left to right, non-overlapping. */
  function ReplaceAll(s: string, pat: string, rep: string): string
    requires pat != []
    decreases |s|
  {
    if s == [] then []
    else if StartsWith(s, pat) then rep + ReplaceAll(s[|pat|..], pat, rep)
    else [s[0]] + ReplaceAll(s[1..], pat, rep)
  }

  lemma {:induction false} ReplaceAllAbsent(s: string, pat: string, rep: string)
    requires pat != [] && !Contains(s, pat)
    ensures ReplaceAll(s, pat, rep) == s
    decreases |s|
  {
    if s != [] {
      ReplaceAllAbsent(s[1..], pat, rep);
    }
  }

  lemma {:induction false} RemoveAllNoLonger(s: string, pat: string)
    requires pat != []
    ensures |ReplaceAll(s, pat, "")| <= |s|
    decreases |s|
  {
    if s == [] {
    } else if StartsWith(s, pat) {
      RemoveAllNoLonger(s[|pat|..], pat);
    } else {
      RemoveAllNoLonger(s[1..], pat);
    }
  }

  /** Deleting a pattern that occurs makes the string strictly shorter. */
  lemma {:induction false} RemoveAllShortens(s: string, pat: string)
    requires pat != [] && Contains(s, pat)
    ensures |ReplaceAll(s, pat, "")| < |s|
    decreases |s|
  {
    if StartsWith(s, pat) {
      RemoveAllNoLonger(s[|pat|..], pat);
    } else {
      RemoveAllShortens(s[1..], pat);
    }
  }

  /** Deleting every occurrence of `pat` gives `s` back exactly when `pat` does not occur. */
  lemma RemoveAllIdentityIff(s: string, pat: string)
    requires pat != []
    ensures ReplaceAll(s, pat, "") == s <==> !Contains(s, pat)
  {
    if Contains(s, pat) {
      RemoveAllShortens(s, pat);
    } else {
      ReplaceAllAbsent(s, pat, "");
    }
  }

  // ---- decimal rendering (the %lld and NSStringFromRange formats) ----

  predicate IsDigit(c: char) {
    '0' <= c <= '9'
  }

  predicate AllDigits(s: string) {
    forall i :: 0 <= i < |s| ==> IsDigit(s[i])
  }

  function DigitChar(d: nat): (c: char)
    requires d < 10
    ensures IsDigit(c)
  {
    (48 + d) as char
  }

  function DigitValue(c: char): nat
    requires IsDigit(c)
  {
    (c as int) - 48
  }

  /** The decimal digits of `n`, most significant first, with no leading zero. */
  function NatToString(n: nat): string
    decreases n
  {
    if n < 10 then [DigitChar(n)] else NatToString(n / 10) + [DigitChar(n % 10)]
  }

  /** `%lld` of a signed value. */
  function IntToString(i: int): string {
    if i < 0 then "-" + NatToString(-i) else NatToString(i)
  }

  /** Reads a string of digits back as a number. */
  function ParseNat(s: string): nat
    requires AllDigits(s)
    decreases |s|
  {
    if s == [] then 0 else 10 * ParseNat(s[..|s| - 1]) + DigitValue(s[|s| - 1])
  }

  lemma {:induction false} NatToStringParses(n: nat)
    ensures AllDigits(NatToString(n)) && |NatToString(n)| > 0
    ensures ParseNat(NatToString(n)) == n
    decreases n
  {
    if n >= 10 {
      NatToStringParses(n / 10);
      var s := NatToString(n);
      assert s == NatToString(n / 10) + [DigitChar(n % 10)];
      assert s[..|s| - 1] == NatToString(n / 10);
    }
  }

  lemma NatToStringInjective(a: nat, b: nat)
    requires NatToString(a) == NatToString(b)
    ensures a == b
  {
    NatToStringParses(a);
    NatToStringParses(b);
  }

  lemma IntToStringInjective(a: int, b: int)
    requires IntToString(a) == IntToString(b)
    ensures a == b
  {
    NatToStringParses(if a < 0 then -a else a);
    NatToStringParses(if b < 0 then -b else b);
    // a rendering starts with '-' exactly when the value is negative
    assert (IntToString(a)[0] == '-') == (a < 0);
    assert (IntToString(b)[0] == '-') == (b < 0);
    if a < 0 {
      assert NatToString(-a) == IntToString(a)[1..];
      assert NatToString(-b) == IntToString(b)[1..];
      NatToStringInjective(-a, -b);
    } else {
      NatToStringInjective(a, b);
    }
  }

  /** Index of the first character that is not a digit (|s| when there is none). */
  function FirstNonDigit(s: string): (k: nat)
    ensures k <= |s|
    decreases |s|
  {
    if s == [] || !IsDigit(s[0]) then 0 else 1 + FirstNonDigit(s[1..])
  }

  lemma {:induction false} FirstNonDigitAt(a: string, c: char, b: string)
    requires AllDigits(a) && !IsDigit(c)
    ensures FirstNonDigit(a + [c] + b) == |a|
    decreases |a|
  {
    if a != [] {
      assert (a + [c] + b)[1..] == a[1..] + [c] + b;
      FirstNonDigitAt(a[1..], c, b);
    }
  }

  /** A run of digits followed by a non-digit separator can be split off unambiguously. */
  lemma SplitAtSeparator(a1: string, b1: string, a2: string, b2: string, c: char)
    requires AllDigits(a1) && AllDigits(a2) && !IsDigit(c)
    requires a1 + [c] + b1 == a2 + [c] + b2
    ensures a1 == a2 && b1 == b2
  {
    FirstNonDigitAt(a1, c, b1);
    FirstNonDigitAt(a2, c, b2);
    var s := a1 + [c] + b1;
    assert |a1| == |a2|;
    assert a1 == s[..|a1|] && a2 == s[..|a2|];
    assert b1 == s[|a1| + 1..] && b2 == s[|a2| + 1..];
  }

  // ---- path components ----

  /** The characters of `s` after its last '/' (all of `s` when it has none). */
  function LastSegment(s: string): (r: string)
    ensures '/' !in r
    ensures s != [] && s[|s| - 1] != '/' ==> r != []
    decreases |s|
  {
    if s == [] || s[|s| - 1] == '/' then [] else LastSegment(s[..|s| - 1]) + [s[|s| - 1]]
  }

  lemma {:induction false} LastSegmentAfterSlash(base: string, c: string)
    requires base != [] && base[|base| - 1] == '/' && '/' !in c
    ensures LastSegment(base + c) == c
    decreases |c|
  {
    if c == [] {
      assert base + c == base;
    } else {
      var s := base + c;
      assert s[..|s| - 1] == base + c[..|c| - 1];
      LastSegmentAfterSlash(base, c[..|c| - 1]);
      assert c == c[..|c| - 1] + [c[|c| - 1]];
    }
  }

  /** The last segment takes its characters from `s`. */
  lemma {:induction false} LastSegmentChars(s: string)
    ensures forall ch :: ch in LastSegment(s) ==> ch in s
    decreases |s|
  {
    if s != [] && s[|s| - 1] != '/' {
      LastSegmentChars(s[..|s| - 1]);
    }
  }

  /** `s` without its trailing slashes. */
  function TrimTrailingSlashes(s: string): (r: string)
    ensures StartsWith(s, r) && (r == [] || r[|r| - 1] != '/')
    ensures forall i :: |r| <= i < |s| ==> s[i] == '/'
    decreases |s|
  {
    if s != [] && s[|s| - 1] == '/' then TrimTrailingSlashes(s[..|s| - 1]) else s
  }

  /** `NSString.lastPathComponent` of a path: trailing slashes are ignored, a
      path made only of slashes gives "/", and the empty path gives "". */
  function LastPathComponent(p: string): (r: string)
    ensures r == "/" || '/' !in r
    ensures r == [] <==> p == []
  {
    var t := TrimTrailingSlashes(p);
    if t == [] then (if p == [] then [] else "/") else LastSegment(t)
  }

  /** A trailing slash does not change the last path component. */
  lemma TrailingSlashIgnored(p: string)
    requires p != []
    ensures LastPathComponent(p + "/") == LastPathComponent(p)
  {
    assert (p + "/")[..|p|] == p;
  }

  /** After a slash, a non-empty slash-free name is the last path component. */
  lemma LastPathComponentAfterSlash(base: string, c: string)
    requires base != [] && base[|base| - 1] == '/' && '/' !in c && c != []
    ensures LastPathComponent(base + c) == c
  {
    var s := base + c;
    assert s[|s| - 1] == c[|c| - 1];
    assert c[|c| - 1] in c;
    LastSegmentAfterSlash(base, c);
  }

  /** Index of the first occurrence of `t` in `s` (|s| when there is none). */
  function IndexOf(s: string, t: string): (i: nat)
    ensures i <= |s|
    ensures i < |s| ==> StartsWith(s[i..], t)
    decreases |s|
  {
    if s == [] || StartsWith(s, t) then 0 else 1 + IndexOf(s[1..], t)
  }

  /** Everything before the first character of `s` that is in `stops`. */
  function BeforeAny(s: string, stops: set<char>): (r: string)
    ensures StartsWith(s, r) && (r == s || s[|r|] in stops)
    ensures forall i :: 0 <= i < |r| ==> r[i] !in stops
    decreases |s|
  {
    if s == [] || s[0] in stops then [] else [s[0]] + BeforeAny(s[1..], stops)
  }

  lemma {:induction false} BeforeAnyAt(a: string, c: char, b: string, stops: set<char>)
    requires (forall i :: 0 <= i < |a| ==> a[i] !in stops) && c in stops
    ensures BeforeAny(a + [c] + b, stops) == a
    decreases |a|
  {
    if a != [] {
      assert (a + [c] + b)[1..] == a[1..] + [c] + b;
      BeforeAnyAt(a[1..], c, b, stops);
    }
  }

  /** The path part of a URL string without query or fragment: what follows
      the `scheme://authority` head when there is one, all of it otherwise. */
  function PathAfterAuthority(q: string): (p: string)
    ensures forall ch :: ch in p ==> ch in q
  {
    var i := IndexOf(q, "://");
    if i == |q| then q
    else
      var rest := q[i + 3..];
      var p := rest[|BeforeAny(rest, {'/'})|..];
      assert forall j :: 0 <= j < |p| ==> p[j] == q[i + 3 + |BeforeAny(rest, {'/'})| + j];
      p
  }

  /** The path of a URL string (`URL.path`): the query (from '?') and the
      fragment (from '#') are cut off, and so is the `scheme://authority`
      head when there is one. */
  function UrlPath(u: string): (p: string)
    ensures '?' !in p && '#' !in p
  {
    var q := BeforeAny(u, {'?', '#'});
    assert forall j :: 0 <= j < |q| ==> q[j] !in {'?', '#'};
    PathAfterAuthority(q)
  }

  /** `URL.lastPathComponent`: the last component of the URL's path. */
  function UrlLastPathComponent(u: string): (r: string)
    ensures r == "/" || '/' !in r
    ensures '?' !in r && '#' !in r
  {
    var p := UrlPath(u);
    var t := TrimTrailingSlashes(p);
    LastSegmentChars(t);
    assert forall ch :: ch in t ==> ch in p;
    LastPathComponent(p)
  }

  /** A query or a fragment does not change the URL's last path component. */
  lemma UrlQueryIgnored(u: string, c: char, rest: string)
    requires '?' !in u && '#' !in u
    requires c == '?' || c == '#'
    ensures UrlLastPathComponent(u + [c] + rest) == UrlLastPathComponent(u)
  {
    assert forall i :: 0 <= i < |u| ==> u[i] in u;
    BeforeAnyAt(u, c, rest, {'?', '#'});
    BeforeAnyAt(u, '?', [], {'?', '#'});
    assert BeforeAny(u, {'?', '#'}) == u;
  }
}
