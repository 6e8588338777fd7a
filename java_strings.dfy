/**
 * The two `java.lang.String` operations the profile service relies on:
 * `trim()` and `split(",")` with its default limit of zero.
 */
module JavaStrings {

  /** `String.trim()` removes every leading and trailing char whose code is at most U+0020. */
  predicate IsTrimmable(c: char) {
    c <= ' '
  }

  /** Every char of `s` would be removed by `trim()`; `s.trim().isEmpty()` holds exactly then. */
  predicate Blank(s: string) {
    forall i :: 0 <= i < |s| ==> IsTrimmable(s[i])
  }

  /** How many trimmable chars `s` starts with. */
  function Leading(s: string): (n: nat)
    ensures n <= |s|
    ensures forall k :: 0 <= k < n ==> IsTrimmable(s[k])
    ensures n == |s| || !IsTrimmable(s[n])
  {
    if |s| > 0 && IsTrimmable(s[0]) then 1 + Leading(s[1..]) else 0
  }

  /** How many trimmable chars `s` ends with. */
  function Trailing(s: string): (n: nat)
    ensures n <= |s|
    ensures forall k :: |s| - n <= k < |s| ==> IsTrimmable(s[k])
    ensures n == |s| || !IsTrimmable(s[|s| - n - 1])
  {
    if |s| > 0 && IsTrimmable(s[|s| - 1]) then 1 + Trailing(s[..|s| - 1]) else 0
  }

  /**
   * `s.trim()`: the infix of `s` left once every leading and trailing trimmable char
   * is cut; it neither starts nor ends with one, and it is empty exactly for blank `s`.
   */
  function Trim(s: string): (r: string)
    ensures var i := Leading(s);
      && i + |r| <= |s|
      && (forall k :: 0 <= k < |r| ==> r[k] == s[i + k])
      && (forall k :: 0 <= k < i ==> IsTrimmable(s[k]))
      && (forall k :: i + |r| <= k < |s| ==> IsTrimmable(s[k]))
    ensures r == [] || (!IsTrimmable(r[0]) && !IsTrimmable(r[|r| - 1]))
    ensures r == [] <==> Blank(s)
  {
    var i := Leading(s);
    var t := s[i..];
    var j := Trailing(t);
    assert forall k :: i + |t| - j <= k < |s| ==> s[k] == t[k - i];
    s[i..|s| - j]
  }

  /** Trimming is idempotent. */
  lemma TrimIdempotent(s: string)
    ensures Trim(Trim(s)) == Trim(s)
  {
  }

  /** The number of occurrences of `c` in `s`. */
  function CountOf(s: string, c: char): (n: nat)
    ensures n <= |s|
    ensures n == 0 <==> c !in s
  {
    if s == [] then 0 else (if s[0] == c then 1 else 0) + CountOf(s[1..], c)
  }

  /**
   * Every piece of `s` between occurrences of `sep`, empty pieces included
   * (what `split` yields before it discards trailing empty strings).
   */
  function SplitAll(s: string, sep: char): (r: seq<string>)
    ensures |r| == CountOf(s, sep) + 1
    ensures forall i :: 0 <= i < |r| ==> sep !in r[i]
  {
    if s == [] then [""]
    else
      var rest := SplitAll(s[1..], sep);
      if s[0] == sep then [""] + rest else [[s[0]] + rest[0]] + rest[1..]
  }

  /** The pieces `ps` with `sep` between each two of them. */
  function Join(ps: seq<string>, sep: char): (r: string)
    ensures ps == [] ==> r == ""
    ensures ps != [] ==> ps[0] <= r
    ensures |ps| > 1 ==> |r| > |ps[0]| && r[|ps[0]|] == sep
  {
    if ps == [] then ""
    else if |ps| == 1 then ps[0]
    else ps[0] + [sep] + Join(ps[1..], sep)
  }

  /** The pieces of `s` put back together with the separator give `s` again. */
  lemma {:induction false} JoinSplitAll(s: string, sep: char)
    ensures Join(SplitAll(s, sep), sep) == s
  {
    if s != [] {
      var rest := SplitAll(s[1..], sep);
      JoinSplitAll(s[1..], sep);
      if s[0] == sep {
        assert SplitAll(s, sep)[1..] == rest;
      } else if |rest| == 1 {
        assert SplitAll(s, sep) == [[s[0]] + rest[0]];
      } else {
        var all := SplitAll(s, sep);
        assert all[1..] == rest[1..];
        assert Join(rest, sep) == rest[0] + [sep] + Join(rest[1..], sep);
      }
    }
  }

  /** `ps` without its trailing empty strings. */
  function DropTrailingEmpty(ps: seq<string>): (r: seq<string>)
    ensures |r| <= |ps| && r == ps[..|r|]
    ensures r == [] || r[|r| - 1] != ""
    ensures forall i :: |r| <= i < |ps| ==> ps[i] == ""
  {
    if ps != [] && ps[|ps| - 1] == "" then DropTrailingEmpty(ps[..|ps| - 1]) else ps
  }

  /**
   * `s.split(sep)` for a one-char separator that is not a regular-expression
   * metacharacter, with limit zero: the whole string when `sep` does not occur,
   * otherwise all pieces but the trailing empty ones.
   */
  function Split(s: string, sep: char): (r: seq<string>)
    ensures |r| <= CountOf(s, sep) + 1
    ensures forall i :: 0 <= i < |r| ==> sep !in r[i]
    ensures sep in s ==> r == [] || r[|r| - 1] != ""
  {
    if sep !in s then [s]
    else
      var all := SplitAll(s, sep);
      var r := DropTrailingEmpty(all);
      assert forall i :: 0 <= i < |r| ==> r[i] == all[i];
      r
  }

  /**
   * What `split` keeps: a prefix of all the pieces in which only trailing empty
   * pieces are missing; a string without the separator splits into itself.
   */
  lemma SplitKeepsPrefix(s: string, sep: char)
    ensures var r := Split(s, sep); var all := SplitAll(s, sep);
      && r == all[..|r|]
      && (forall i :: |r| <= i < |all| ==> all[i] == "")
      && (sep !in s ==> r == [s])
      && (sep in s ==> r == [] || r[|r| - 1] != "")
  {
    if sep !in s {
      var all := SplitAll(s, sep);
      assert all == [s] by {
        assert |all| == 1;
        JoinSplitAll(s, sep);
      }
    }
  }
}
