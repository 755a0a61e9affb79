/**
 * String helpers with the meaning of the Python built-ins the backend uses:
 * `sub in s`, `str.strip`, `str.split`, `str.replace` on one character,
 * `str.lower` on ASCII letters, `sep.join` and list slicing.
 */
module Text {

  /** `sub` occurs in `s` starting at position `i`. */
  ghost predicate OccursAt(s: string, sub: string, i: int)
  {
    0 <= i && i + |sub| <= |s| && s[i..i + |sub|] == sub
  }

  /** Python's `sub in s` for two strings. */
  predicate Contains(s: string, sub: string)
    ensures Contains(s, sub) <==> exists i :: OccursAt(s, sub, i)
    decreases |s|
  {
    if |sub| > |s| then false
    else if s[..|sub|] == sub then (assert OccursAt(s, sub, 0); true)
    else
      var r := Contains(s[1..], sub);
      assert !OccursAt(s, sub, 0);
      assert forall i :: OccursAt(s[1..], sub, i) <==> OccursAt(s, sub, i + 1) by {
        forall i ensures OccursAt(s[1..], sub, i) <==> OccursAt(s, sub, i + 1) {
          if 0 <= i && i + |sub| <= |s| - 1 {
            assert s[1..][i..i + |sub|] == s[i + 1..i + 1 + |sub|];
          }
        }
      }
      assert (exists i :: OccursAt(s, sub, i)) ==> exists i :: OccursAt(s[1..], sub, i) by {
        if exists i :: OccursAt(s, sub, i) {
          var i :| OccursAt(s, sub, i);
          assert i != 0;
          assert OccursAt(s[1..], sub, i - 1);
        }
      }
      r
  }

  /** A string contains every prefix and suffix wrapping it. */
  lemma ContainsConcat(a: string, b: string, c: string)
    ensures Contains(a + b + c, b)
  {
    assert (a + b + c)[|a|..|a| + |b|] == b;
    assert OccursAt(a + b + c, b, |a|);
  }

  /** `any(p in s for p in phrases)`. */
  predicate ContainsAny(s: string, phrases: seq<string>)
  {
    exists k :: 0 <= k < |phrases| && Contains(s, phrases[k])
  }

  /** The phrases of `phrases` that occur in `s`, in list order (`[p for p in phrases if p in s]`). */
  function Present(phrases: seq<string>, s: string): (r: seq<string>)
    ensures |r| <= |phrases|
    ensures forall p :: p in r <==> p in phrases && Contains(s, p)
  {
    if phrases == [] then []
    else (if Contains(s, phrases[0]) then [phrases[0]] else []) + Present(phrases[1..], s)
  }

  /** `sum(1 for p in phrases if p in s)`: how many phrases occur in `s`. */
  function HitCount(phrases: seq<string>, s: string): (n: nat)
    ensures n <= |phrases|
    ensures n == 0 <==> !ContainsAny(s, phrases)
    ensures n == |phrases| ==> forall k :: 0 <= k < |phrases| ==> Contains(s, phrases[k])
  {
    if phrases == [] then 0
    else
      assert forall k :: 0 <= k < |phrases| - 1 ==> phrases[1..][k] == phrases[k + 1];
      (if Contains(s, phrases[0]) then 1 else 0) + HitCount(phrases[1..], s)
  }

  /** At least two entries of `phrases`, at different positions, occur in `s`. */
  predicate ContainsTwo(s: string, phrases: seq<string>)
  {
    exists a, b :: 0 <= a < b < |phrases| && Contains(s, phrases[a]) && Contains(s, phrases[b])
  }

  /** Two hits are exactly two entries at different positions that occur. */
  lemma {:induction false} TwoHits(phrases: seq<string>, s: string)
    ensures HitCount(phrases, s) >= 2 <==> ContainsTwo(s, phrases)
  {
    if phrases != [] {
      var rest := phrases[1..];
      TwoHits(rest, s);
      assert forall k :: 0 <= k < |rest| ==> rest[k] == phrases[k + 1];
      if ContainsTwo(s, phrases) {
        var a, b :| 0 <= a < b < |phrases| && Contains(s, phrases[a]) && Contains(s, phrases[b]);
        if a > 0 {
          assert Contains(s, rest[a - 1]) && Contains(s, rest[b - 1]);
        } else {
          assert Contains(s, rest[b - 1]);
        }
      }
      if HitCount(phrases, s) >= 2 && !ContainsTwo(s, rest) {
        assert Contains(s, phrases[0]) && ContainsAny(s, rest);
        var b :| 0 <= b < |rest| && Contains(s, rest[b]);
        assert Contains(s, phrases[b + 1]);
      }
      if ContainsTwo(s, rest) {
        var a, b :| 0 <= a < b < |rest| && Contains(s, rest[a]) && Contains(s, rest[b]);
        assert Contains(s, phrases[a + 1]) && Contains(s, phrases[b + 1]);
      }
    }
  }

  /** The characters Python's `str.isspace` accepts (used by `strip()` and `split()`). */
  predicate IsSpace(c: char)
  {
    c == ' ' || ('\t' <= c <= '\r') || ('\U{1C}' <= c <= '\U{1F}') || c == '\U{85}' || c == '\U{A0}'
    || c == '\U{1680}' || ('\U{2000}' <= c <= '\U{200A}') || c == '\U{2028}' || c == '\U{2029}'
    || c == '\U{202F}' || c == '\U{205F}' || c == '\U{3000}'
  }

  /** Drops the leading characters that satisfy `drop`. */
  function LStrip(s: string, drop: char -> bool): string
  {
    if s != [] && drop(s[0]) then LStrip(s[1..], drop) else s
  }

  /** `LStrip` leaves a suffix that starts with a kept character, and everything it dropped satisfies `drop`. */
  lemma {:induction false} LStripSpec(s: string, drop: char -> bool)
    ensures |LStrip(s, drop)| <= |s| && LStrip(s, drop) == s[|s| - |LStrip(s, drop)|..]
    ensures LStrip(s, drop) == [] || !drop(LStrip(s, drop)[0])
    ensures forall k :: 0 <= k < |s| - |LStrip(s, drop)| ==> drop(s[k])
  {
    if s != [] && drop(s[0]) {
      LStripSpec(s[1..], drop);
      assert forall k :: 1 <= k < |s| ==> s[k] == s[1..][k - 1];
    }
  }

  /** Drops the trailing characters that satisfy `drop`. */
  function RStrip(s: string, drop: char -> bool): string
  {
    if s != [] && drop(s[|s| - 1]) then RStrip(s[..|s| - 1], drop) else s
  }

  /** `RStrip` leaves a prefix that ends with a kept character, and everything it dropped satisfies `drop`. */
  lemma {:induction false} RStripSpec(s: string, drop: char -> bool)
    ensures |RStrip(s, drop)| <= |s| && RStrip(s, drop) == s[..|RStrip(s, drop)|]
    ensures RStrip(s, drop) == [] || !drop(RStrip(s, drop)[|RStrip(s, drop)| - 1])
    ensures forall k :: |RStrip(s, drop)| <= k < |s| ==> drop(s[k])
  {
    if s != [] && drop(s[|s| - 1]) {
      RStripSpec(s[..|s| - 1], drop);
      assert forall k :: 0 <= k < |s| - 1 ==> s[k] == s[..|s| - 1][k];
    }
  }

  /** `r` is the slice of `s` left after dropping `i` leading and some trailing characters. */
  ghost predicate StrippedAt(s: string, r: string, i: int, drop: char -> bool)
  {
    0 <= i <= |s| - |r| && r == s[i..i + |r|]
    && (forall k :: 0 <= k < i ==> drop(s[k]))
    && (forall k :: i + |r| <= k < |s| ==> drop(s[k]))
  }

  /** `s.strip(chars)`: both ends lose their maximal runs of dropped characters. */
  function StripBy(s: string, drop: char -> bool): string
  {
    RStrip(LStrip(s, drop), drop)
  }

  /** `StripBy` keeps a slice of `s` whose ends are kept characters, dropping only characters that satisfy `drop`. */
  lemma StripBySpec(s: string, drop: char -> bool)
    ensures exists i :: StrippedAt(s, StripBy(s, drop), i, drop)
    ensures StripBy(s, drop) == [] || (!drop(StripBy(s, drop)[0]) && !drop(StripBy(s, drop)[|StripBy(s, drop)| - 1]))
  {
    var l := LStrip(s, drop);
    var r := RStrip(l, drop);
    LStripSpec(s, drop);
    RStripSpec(l, drop);
    assert r == s[|s| - |l|..|s| - |l| + |r|];
    assert forall k :: |s| - |l| + |r| <= k < |s| ==> drop(s[k]) by {
      forall k | |s| - |l| + |r| <= k < |s| ensures drop(s[k]) {
        assert s[k] == l[k - (|s| - |l|)];
      }
    }
    assert r == StripBy(s, drop);
    assert StrippedAt(s, StripBy(s, drop), |s| - |l|, drop);
  }

  /** `s.strip()` with no argument. */
  function Strip(s: string): string
  {
    StripBy(s, IsSpace)
  }

  /** `strip()` never lengthens, leaves no whitespace at either end, and empties exactly the all-whitespace strings. */
  lemma StripSpec(s: string)
    ensures |Strip(s)| <= |s|
    ensures Strip(s) == [] || (!IsSpace(Strip(s)[0]) && !IsSpace(Strip(s)[|Strip(s)| - 1]))
    ensures Strip(s) == [] <==> forall k :: 0 <= k < |s| ==> IsSpace(s[k])
  {
    var r := Strip(s);
    StripBySpec(s, IsSpace);
    var i :| StrippedAt(s, r, i, IsSpace);
    if r == [] {
      LStripSpec(s, IsSpace);
      RStripSpec(LStrip(s, IsSpace), IsSpace);
      assert |LStrip(s, IsSpace)| == 0;
    } else {
      assert r[0] == s[i];
    }
  }

  /** One character whose value is `c`, as a dropping predicate for `strip(c)`. */
  function IsChar(c: char): char -> bool
  {
    x => x == c
  }

  /** The index of the first `c` in `s`, or `|s|` when `c` does not occur. */
  function FirstIndex(s: string, c: char): (r: nat)
    ensures r <= |s|
    ensures r < |s| ==> s[r] == c
    ensures forall k :: 0 <= k < r ==> s[k] != c
    ensures r == |s| <==> c !in s
  {
    if s == [] then 0
    else if s[0] == c then 0
    else 1 + FirstIndex(s[1..], c)
  }

  /** `s.replace(a, b)` for one-character strings `a` and `b`. */
  function ReplaceChar(s: string, a: char, b: char): (r: string)
    ensures |r| == |s|
    ensures forall k :: 0 <= k < |s| ==> r[k] == (if s[k] == a then b else s[k])
    ensures a != b ==> a !in r
  {
    if s == [] then [] else [if s[0] == a then b else s[0]] + ReplaceChar(s[1..], a, b)
  }

  /** `c.lower()` for ASCII letters; other characters are kept. */
  function LowerChar(c: char): (r: char)
  {
    if 'A' <= c <= 'Z' then (c as int + 32) as char else c
  }

  /** `s.lower()`, restricted to ASCII case mapping. */
  function Lower(s: string): (r: string)
    ensures |r| == |s|
    ensures forall k :: 0 <= k < |s| ==> r[k] == LowerChar(s[k])
    ensures forall k :: 0 <= k < |r| ==> !('A' <= r[k] <= 'Z')
  {
    if s == [] then [] else [LowerChar(s[0])] + Lower(s[1..])
  }

  /** Length of the run of non-space characters at the front of `s`. */
  function WordLength(s: string): (n: nat)
    ensures n <= |s|
    ensures forall k :: 0 <= k < n ==> !IsSpace(s[k])
    ensures n < |s| ==> IsSpace(s[n])
  {
    if s == [] || IsSpace(s[0]) then 0 else 1 + WordLength(s[1..])
  }

  /** A non-empty run of non-space characters. */
  predicate IsWord(w: string)
  {
    w != [] && forall k :: 0 <= k < |w| ==> !IsSpace(w[k])
  }

  /** `s.split()`: the maximal runs of non-space characters, in order. */
  function Words(s: string): (ws: seq<string>)
    ensures forall j :: 0 <= j < |ws| ==> IsWord(ws[j])
    ensures ws == [] <==> forall k :: 0 <= k < |s| ==> IsSpace(s[k])
    decreases |s|
  {
    var t := LStrip(s, IsSpace);
    LStripSpec(s, IsSpace);
    if t == [] then
      assert forall k :: 0 <= k < |s| ==> IsSpace(s[k]) by {
        assert forall k :: 0 <= k < |s| - |t| ==> IsSpace(s[k]);
      }
      []
    else
      var n := WordLength(t);
      var w := t[..n];
      var rest := Words(t[n..]);
      assert IsWord(w);
      assert !IsSpace(s[|s| - |t|]);
      [w] + rest
  }

  /** `sep.join(parts)`. */
  function Join(parts: seq<string>, sep: string): (r: string)
    ensures parts != [] ==> |parts[0]| <= |r| && r[..|parts[0]|] == parts[0]
    ensures |parts| == 1 ==> r == parts[0]
  {
    if parts == [] then ""
    else if |parts| == 1 then parts[0]
    else parts[0] + sep + Join(parts[1..], sep)
  }

  /** Python `xs[-n:]` for a positive `n`: the newest `n` entries. */
  function Tail<T>(xs: seq<T>, n: nat): (r: seq<T>)
    requires n > 0
    ensures |r| == if |xs| < n then |xs| else n
    ensures r == xs[|xs| - |r|..]
  {
    if |xs| <= n then xs else xs[|xs| - n..]
  }

  /** Python `xs[:n]` for any integer `n` (a negative `n` counts from the end). */
  function SliceTo<T>(xs: seq<T>, n: int): (r: seq<T>)
    ensures |r| <= |xs| && r == xs[..|r|]
    ensures n >= 0 ==> |r| == if n < |xs| then n else |xs|
    ensures n < 0 ==> |r| == if |xs| + n > 0 then |xs| + n else 0
  {
    if n >= 0 then (if n < |xs| then xs[..n] else xs)
    else if |xs| + n > 0 then xs[..|xs| + n] else []
  }
}
