/**
 * Call names, capability IDs and the peer prefix.
 *
 * `joinIds(...ids)` and `path.join(SEPERATOR)` are both `Array.prototype.join` with the
 * separator '.', and `name.split(SEPERATOR)` is its inverse on the receiving side.
 * Counters enter an ID through JavaScript's number-to-string conversion, which for the
 * counters that occur (safe integers) is plain decimal notation.
 */
module Ids {

  /** `SEPERATOR` of index.js. */
  const Separator: char := '.'

  predicate IsDigit(c: char) {
    '0' <= c <= '9'
  }

  predicate IsDigits(s: string) {
    forall i :: 0 <= i < |s| ==> IsDigit(s[i])
  }

  function DigitChar(d: nat): (c: char)
    requires d < 10
    ensures IsDigit(c)
  {
    ('0' as int + d) as char
  }

  function DigitValue(c: char): (d: nat)
    requires IsDigit(c)
    ensures d < 10 && DigitChar(d) == c
  {
    c as int - '0' as int
  }

  /** Decimal rendering of a counter. */
  function NatToString(n: nat): (s: string)
    ensures |s| >= 1 && IsDigits(s)
    ensures |s| == 1 <==> n < 10
  {
    if n < 10 then [DigitChar(n)] else NatToString(n / 10) + [DigitChar(n % 10)]
  }

  /** Reading a run of decimal digits back as a number: the reference inverse of NatToString. */
  function ParseDigits(s: string): nat
    requires IsDigits(s)
  {
    if |s| == 0 then 0 else ParseDigits(s[..|s| - 1]) * 10 + DigitValue(s[|s| - 1])
  }

  lemma {:induction false} ParseNatToString(n: nat)
    ensures ParseDigits(NatToString(n)) == n
  {
    if n >= 10 {
      var s := NatToString(n);
      assert s[..|s| - 1] == NatToString(n / 10);
      ParseNatToString(n / 10);
    }
  }

  lemma NatToStringInjective(a: nat, b: nat)
    ensures NatToString(a) == NatToString(b) <==> a == b
  {
    if NatToString(a) == NatToString(b) {
      ParseNatToString(a);
      ParseNatToString(b);
    }
  }

  /** `parts.join('.')`. */
  function Join(parts: seq<string>): string {
    if |parts| == 0 then ""
    else if |parts| == 1 then parts[0]
    else parts[0] + [Separator] + Join(parts[1..])
  }

  /** Position of the first separator in `s`. */
  function IndexOfSeparator(s: string): (i: nat)
    requires Separator in s
    ensures i < |s| && s[i] == Separator && Separator !in s[..i]
  {
    if s[0] == Separator then 0
    else
      assert s == [s[0]] + s[1..];
      var j := IndexOfSeparator(s[1..]);
      assert s[..j + 1] == [s[0]] + s[1..][..j];
      j + 1
  }

  /** `s.split('.')`: the segments between separators (an empty string gives one empty segment). */
  function Split(s: string): (parts: seq<string>)
    ensures |parts| >= 1
    decreases |s|
  {
    if Separator in s then
      var i := IndexOfSeparator(s);
      [s[..i]] + Split(s[i + 1..])
    else [s]
  }

  /** No segment contains the separator. */
  predicate DotFree(parts: seq<string>) {
    forall k :: 0 <= k < |parts| ==> Separator !in parts[k]
  }

  lemma {:induction false} SplitIsDotFree(s: string)
    ensures DotFree(Split(s))
    decreases |s|
  {
    if Separator in s {
      var i := IndexOfSeparator(s);
      SplitIsDotFree(s[i + 1..]);
    }
  }

  /** Splitting then joining gives back the original name. */
  lemma {:induction false} JoinSplit(s: string)
    ensures Join(Split(s)) == s
    decreases |s|
  {
    if Separator in s {
      var i := IndexOfSeparator(s);
      var tail := s[i + 1..];
      JoinSplit(tail);
      JoinCons(s[..i], Split(tail));
      CutAt(s, i);
    }
  }

  /** A string is what comes before position `i`, the character there, and what follows. */
  lemma CutAt(s: string, i: nat)
    requires i < |s|
    ensures s[..i] + [s[i]] + s[i + 1..] == s
  {
    assert s[i..] == [s[i]] + s[i + 1..];
    assert s == s[..i] + s[i..];
  }

  /** Joining a segment in front of a non-empty path puts a separator between them. */
  lemma JoinCons(p: string, rest: seq<string>)
    requires |rest| >= 1
    ensures Join([p] + rest) == p + [Separator] + Join(rest)
  {
    assert ([p] + rest)[1..] == rest;
  }

  /** Joining then splitting a non-empty path whose segments have no '.' gives back the path. */
  lemma {:induction false} SplitJoin(parts: seq<string>)
    requires |parts| >= 1 && DotFree(parts)
    ensures Split(Join(parts)) == parts
  {
    if |parts| > 1 {
      var rest := parts[1..];
      assert DotFree(rest) by {
        forall k | 0 <= k < |rest|
          ensures Separator !in rest[k]
        {
          assert rest[k] == parts[k + 1];
        }
      }
      SplitFirst(parts[0], Join(rest));
      SplitJoin(rest);
      assert parts == [parts[0]] + rest;
    }
  }

  /** A separator after a dot-free segment is the first one, so `split` cuts there. */
  lemma SplitFirst(p0: string, rest: string)
    requires Separator !in p0
    ensures Split(p0 + [Separator] + rest) == [p0] + Split(rest)
  {
    var s := p0 + [Separator] + rest;
    assert s[|p0|] == Separator;
    assert s[..|p0|] == p0;
    assert forall j :: 0 <= j < |p0| ==> s[j] == p0[j];
    var i := IndexOfSeparator(s);
    assert s[..i] == p0 by {
      assert i >= |p0|;
      assert s[..i][..|p0|] == p0;
    }
    assert s[i + 1..] == rest;
  }

  lemma JoinPair(x: string, y: string)
    ensures Join([x, y]) == x + [Separator] + y
  {
    assert [x, y][1..] == [y];
  }

  /** `joinIds(base, n)`: the ID numbered `n` under `base`. */
  function Id(base: string, n: nat): string {
    Join([base, NatToString(n)])
  }

  /**
   * Two IDs are equal exactly when both their bases and their numbers are: the number is
   * the digit run after the last separator.
   */
  lemma IdInjective(a: string, i: nat, b: string, j: nat)
    ensures Id(a, i) == Id(b, j) <==> a == b && i == j
  {
    var da, db := NatToString(i), NatToString(j);
    JoinPair(a, da);
    JoinPair(b, db);
    assert Id(a, i) == a + [Separator] + da;
    assert Id(b, j) == b + [Separator] + db;
    if Id(a, i) == Id(b, j) {
      var s := Id(a, i);
      assert s[|s| - |da| - 1] == Separator && s[|s| - |db| - 1] == Separator;
      assert forall k :: |s| - |da| <= k < |s| ==> IsDigit(s[k]);
      assert forall k :: |s| - |db| <= k < |s| ==> IsDigit(s[k]);
      assert da == s[|s| - |da|..] == db;
      assert a == s[..|a|] == b;
      NatToStringInjective(i, j);
    }
  }

  /** IDs numbered by a counter are pairwise distinct, whatever base each was issued under. */
  lemma IdsPairwiseDistinct(bases: seq<string>, ids: seq<string>)
    requires |ids| == |bases|
    requires forall k :: 0 <= k < |ids| ==> ids[k] == Id(bases[k], k)
    ensures forall i, j :: 0 <= i < j < |ids| ==> ids[i] != ids[j]
  {
    forall i, j | 0 <= i < j < |ids|
      ensures ids[i] != ids[j]
    {
      IdInjective(bases[i], i, bases[j], j);
    }
  }

  /** `Math.round(Math.random() * 1000)`: the draw used to break a nonce tie. */
  type TieBreak = d: nat | d <= 1000

  /** `calculatePrefix(nonce, remoteNonce)`, with the random draw made explicit. */
  function CalculatePrefix(nonce: int, remoteNonce: int, draw: TieBreak): string {
    if remoteNonce > nonce then "A"
    else if remoteNonce < nonce then "B"
    else "X" + NatToString(draw)
  }

  /** Two peers holding different nonces end up with "A" and "B", one each. */
  lemma PrefixesDisjoint(a: int, b: int, drawA: TieBreak, drawB: TieBreak)
    requires a != b
    ensures {CalculatePrefix(a, b, drawA), CalculatePrefix(b, a, drawB)} == {"A", "B"}
    ensures CalculatePrefix(a, b, drawA) != CalculatePrefix(b, a, drawB)
  {
  }

  /**
   * On a nonce tie each side picks 'X' followed by its own draw; the two prefixes collide
   * exactly when the two draws are equal.
   */
  lemma TieBreakCollision(n: int, drawA: TieBreak, drawB: TieBreak)
    ensures CalculatePrefix(n, n, drawA)[0] == 'X'
    ensures CalculatePrefix(n, n, drawA) == CalculatePrefix(n, n, drawB) <==> drawA == drawB
  {
    var pa, pb := CalculatePrefix(n, n, drawA), CalculatePrefix(n, n, drawB);
    if pa == pb {
      assert pa[1..] == NatToString(drawA);
      assert pb[1..] == NatToString(drawB);
      NatToStringInjective(drawA, drawB);
    }
  }
}
