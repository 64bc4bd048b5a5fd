/**
 * The string operations the handler applies: trimming whitespace, lower-casing
 * (both over ASCII) and joining with a separator, with `Split` as the inverse of `Join`.
 */
module Text {

  /** Python's notion of whitespace restricted to ASCII: space, tab to carriage return, and codes 28 to 31. */
  predicate IsSpace(c: char) {
    c == ' ' || 9 <= c as int <= 13 || 28 <= c as int <= 31
  }

  predicate IsUpper(c: char) {
    'A' <= c <= 'Z'
  }

  /** No leading or trailing whitespace. */
  predicate IsStripped(s: string) {
    s != [] ==> !IsSpace(s[0]) && !IsSpace(s[|s| - 1])
  }

  /** Leading whitespace removed: the longest whitespace prefix is dropped. */
  function TrimStart(s: string): (r: string)
    ensures |r| <= |s| && r == s[|s| - |r|..]
    ensures forall i :: 0 <= i < |s| - |r| ==> IsSpace(s[i])
    ensures r != [] ==> !IsSpace(r[0])
    decreases |s|
  {
    if s != [] && IsSpace(s[0]) then TrimStart(s[1..]) else s
  }

  /** Trailing whitespace removed: the longest whitespace suffix is dropped. */
  function TrimEnd(s: string): (r: string)
    ensures |r| <= |s| && r == s[..|r|]
    ensures forall i :: |r| <= i < |s| ==> IsSpace(s[i])
    ensures r != [] ==> !IsSpace(r[|r| - 1])
    decreases |s|
  {
    if s != [] && IsSpace(s[|s| - 1]) then TrimEnd(s[..|s| - 1]) else s
  }

  /** `s` trimmed: no whitespace left at either end. */
  function Strip(s: string): (r: string)
    ensures IsStripped(r)
    ensures |r| <= |s|
  {
    TrimEnd(TrimStart(s))
  }

  /** Trimming keeps a contiguous piece of its input and cuts only whitespace. */
  lemma StripSlice(s: string) returns (lo: nat)
    ensures lo + |Strip(s)| <= |s| && Strip(s) == s[lo..lo + |Strip(s)|]
    ensures forall i :: 0 <= i < lo ==> IsSpace(s[i])
    ensures forall i :: lo + |Strip(s)| <= i < |s| ==> IsSpace(s[i])
  {
    var t := TrimStart(s);
    var r := TrimEnd(t);
    lo := |s| - |t|;
    assert t == s[lo..];
    forall i | lo + |r| <= i < |s| ensures IsSpace(s[i]) {
      assert s[i] == t[i - lo];
    }
  }

  /** A string with no whitespace at either end is left alone by trimming. */
  lemma StripStripped(s: string)
    requires IsStripped(s)
    ensures Strip(s) == s
  {
    assert TrimStart(s) == s;
    assert TrimEnd(s) == s;
  }

  lemma {:induction false} StripIdempotent(s: string)
    ensures Strip(Strip(s)) == Strip(s)
  {
    StripStripped(Strip(s));
  }

  function LowerChar(c: char): (d: char)
    ensures !IsUpper(d)
    ensures !IsUpper(c) ==> d == c
    ensures IsSpace(d) <==> IsSpace(c)
  {
    if IsUpper(c) then (c as int + ('a' as int - 'A' as int)) as char else c
  }

  /** Lower-casing over ASCII: each upper-case letter is replaced by its lower-case letter, nothing else moves. */
  function Lower(s: string): string {
    seq(|s|, i requires 0 <= i < |s| => LowerChar(s[i]))
  }

  lemma LowerIdempotent(s: string)
    ensures Lower(Lower(s)) == Lower(s)
  {
  }

  /** Trimmed, then lower-cased: the normal form of a resolved search query. */
  function Normalize(s: string): (r: string)
    ensures IsStripped(r)
    ensures forall i :: 0 <= i < |r| ==> !IsUpper(r[i])
    ensures |r| <= |s|
  {
    var t := Strip(s);
    LowerKeepsStripped(t);
    Lower(t)
  }

  /** Lower-casing moves no whitespace, so a stripped string stays stripped. */
  lemma LowerKeepsStripped(t: string)
    requires IsStripped(t)
    ensures IsStripped(Lower(t))
  {
    if t != [] {
      assert Lower(t)[0] == LowerChar(t[0]);
      assert Lower(t)[|t| - 1] == LowerChar(t[|t| - 1]);
    }
  }

  /** Normalizing a normalized query changes nothing. */
  lemma {:induction false} NormalizeIdempotent(s: string)
    ensures Normalize(Normalize(s)) == Normalize(s)
  {
    var n := Normalize(s);
    StripStripped(n);
    assert Lower(n) == n;
  }

  /** The parts with `sep` between each neighbouring pair. */
  function Join(parts: seq<string>, sep: string): string {
    if |parts| == 0 then ""
    else if |parts| == 1 then parts[0]
    else Join(parts[..|parts| - 1], sep) + sep + parts[|parts| - 1]
  }

  /** Joining one more part after the existing ones. */
  lemma JoinSnoc(parts: seq<string>, sep: string, p: string)
    ensures Join(parts + [p], sep) == if parts == [] then p else Join(parts, sep) + sep + p
  {
    assert (parts + [p])[..|parts|] == parts;
  }

  /** Joining is left-to-right as well: the first part, the separator, then the rest joined. */
  lemma {:induction false} JoinCons(p: string, parts: seq<string>, sep: string)
    requires parts != []
    ensures Join([p] + parts, sep) == p + sep + Join(parts, sep)
    decreases |parts|
  {
    var n := |parts|;
    assert ([p] + parts)[..n] == [p] + parts[..n - 1];
    if n > 1 {
      JoinCons(p, parts[..n - 1], sep);
    }
  }

  /**
   * With a non-empty separator the joined string is empty exactly when there
   * is nothing to join or the single part is itself empty.
   */
  lemma JoinEmpty(parts: seq<string>, sep: string)
    requires sep != ""
    ensures Join(parts, sep) == "" <==> parts == [] || parts == [""]
  {
    if |parts| > 1 {
      assert |Join(parts, sep)| >= |sep|;
    }
  }

  /** The index of the last `c` in `s`, if any. */
  function LastIndexOf(s: string, c: char): (r: int)
    ensures -1 <= r < |s|
    ensures r >= 0 ==> s[r] == c
    ensures forall i :: r < i < |s| ==> s[i] != c
    ensures r < 0 <==> c !in s
  {
    if s == [] then -1
    else if s[|s| - 1] == c then |s| - 1
    else LastIndexOf(s[..|s| - 1], c)
  }

  /** The pieces between occurrences of `c`, in order. */
  function Split(s: string, c: char): (r: seq<string>)
    ensures |r| >= 1
    ensures forall p :: p in r ==> c !in p
    decreases |s|
  {
    var j := LastIndexOf(s, c);
    if j < 0 then [s] else Split(s[..j], c) + [s[j + 1..]]
  }

  /** In `a + [c] + b` with no `c` in `b`, the last `c` is the one after `a`. */
  lemma LastIndexOfSep(a: string, c: char, b: string)
    requires c !in b
    ensures LastIndexOf(a + [c] + b, c) == |a|
  {
    var s := a + [c] + b;
    var r := LastIndexOf(s, c);
    assert s[|a|] == c;
  }

  /** The piece after the last separator is split off as the final piece. */
  lemma SplitAtLast(a: string, c: char, b: string)
    requires c !in b
    ensures Split(a + [c] + b, c) == Split(a, c) + [b]
  {
    var s := a + [c] + b;
    LastIndexOfSep(a, c, b);
    assert s[..|a|] == a && s[|a| + 1..] == b;
  }

  lemma InitLast(s: seq<string>)
    requires s != []
    ensures s[..|s| - 1] + [s[|s| - 1]] == s
  {
  }

  /** Splitting on the separator recovers the joined parts when no part contains it. */
  lemma {:induction false} SplitJoin(parts: seq<string>, c: char)
    requires parts != []
    requires forall p :: p in parts ==> c !in p
    ensures Split(Join(parts, [c]), c) == parts
    decreases |parts|
  {
    var j := Join(parts, [c]);
    var last := parts[|parts| - 1];
    assert last in parts;
    if |parts| == 1 {
      assert c !in j;
    } else {
      var init := parts[..|parts| - 1];
      var ij := Join(init, [c]);
      assert j == ij + [c] + last;
      SplitAtLast(ij, c, last);
      assert forall p :: p in init ==> p in parts;
      SplitJoin(init, c);
      InitLast(parts);
    }
  }
}
