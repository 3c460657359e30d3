/**
 * The string helpers the backend relies on: ASCII `str.lower()`, Python's
 * substring test `needle in hay`, `str.strip()`, and the fence removal that
 * `clean_and_parse_json` applies before handing text to the JSON parser.
 */
module Text {

  // ---------------------------------------------------------------------------
  // Lower case

  /** `str.lower()` on one character, restricted to ASCII letters. */
  function LowerChar(c: char): char
  {
    if 'A' <= c <= 'Z' then (c as int + 32) as char else c
  }

  predicate IsUpper(c: char)
  {
    'A' <= c <= 'Z'
  }

  /** `s.lower()`: every character lowered, length and position kept. */
  function Lower(s: string): (r: string)
    ensures |r| == |s|
    ensures forall i :: 0 <= i < |s| ==> r[i] == LowerChar(s[i])
    ensures forall i :: 0 <= i < |r| ==> !IsUpper(r[i])
  {
    if s == [] then [] else [LowerChar(s[0])] + Lower(s[1..])
  }

  lemma LowerIdempotent(s: string)
    ensures Lower(Lower(s)) == Lower(s)
  {
  }

  lemma LowerSlice(s: string, i: int, j: int)
    requires 0 <= i <= j <= |s|
    ensures Lower(s)[i..j] == Lower(s[i..j])
  {
  }

  // ---------------------------------------------------------------------------
  // Substring test

  /** Python's `needle in hay` on strings: some suffix of `hay` starts with `needle`. */
  function Contains(hay: string, needle: string): (r: bool)
    ensures needle <= hay ==> r
    ensures r ==> |needle| <= |hay|
    decreases |hay|
  {
    needle <= hay || (hay != [] && Contains(hay[1..], needle))
  }

  /** Reference definition: `needle` occurs in `hay` starting at index `i`. */
  ghost predicate OccursAt(hay: string, needle: string, i: int)
  {
    0 <= i && i + |needle| <= |hay| && hay[i..i + |needle|] == needle
  }

  /** `needle` occurs in `hay` at some index. */
  ghost predicate Occurs(hay: string, needle: string)
  {
    exists i :: OccursAt(hay, needle, i)
  }

  /** An index where a contained `needle` occurs. */
  lemma {:induction false} ContainsWitness(hay: string, needle: string) returns (i: int)
    requires Contains(hay, needle)
    ensures OccursAt(hay, needle, i)
    decreases |hay|
  {
    if needle <= hay {
      i := 0;
    } else {
      var j := ContainsWitness(hay[1..], needle);
      i := j + 1;
      forall m | 0 <= m < |needle|
        ensures hay[i + m] == needle[m]
      {
        assert hay[1..][j + m] == needle[m];
      }
    }
  }

  /** An occurrence at any index is found by the recursive test. */
  lemma {:induction false} OccursContains(hay: string, needle: string, i: int)
    requires OccursAt(hay, needle, i)
    ensures Contains(hay, needle)
    decreases |hay|
  {
    if i == 0 {
      assert needle <= hay;
    } else {
      forall m | 0 <= m < |needle|
        ensures hay[1..][i - 1 + m] == needle[m]
      {
        assert hay[i + m] == needle[m];
      }
      assert OccursAt(hay[1..], needle, i - 1);
      OccursContains(hay[1..], needle, i - 1);
    }
  }

  /** The recursive test agrees with the positional definition, in both directions. */
  lemma ContainsIffOccurs(hay: string, needle: string)
    ensures Contains(hay, needle) <==> Occurs(hay, needle)
  {
    if Contains(hay, needle) {
      var i := ContainsWitness(hay, needle);
    }
    if exists i :: OccursAt(hay, needle, i) {
      var i :| OccursAt(hay, needle, i);
      OccursContains(hay, needle, i);
    }
  }

  /** Whatever occurs in a slice of `t` occurs in `t`. */
  lemma ContainsInSlice(t: string, i: int, j: int, needle: string)
    requires 0 <= i <= j <= |t|
    requires Contains(t[i..j], needle)
    ensures Contains(t, needle)
  {
    var k := ContainsWitness(t[i..j], needle);
    forall m | 0 <= m < |needle|
      ensures t[i + k + m] == needle[m]
    {
      assert needle[m] == t[i..j][k + m];
    }
    OccursContains(t, needle, i + k);
  }

  /** `b` is found inside any string that embeds it. */
  lemma ContainsInfix(a: string, b: string, c: string)
    ensures Contains(a + b + c, b)
  {
    assert (a + b + c)[|a|..|a| + |b|] == b;
    OccursContains(a + b + c, b, |a|);
  }

  /** Each of `x`, `y` and `z` is found in a text made by joining them with glue `p`, `q`, `t`. */
  lemma ContainsEachPart(p: string, x: string, q: string, y: string, t: string, z: string)
    ensures var s := p + x + q + y + t + z;
      Contains(s, x) && Contains(s, y) && Contains(s, z)
  {
    var s := p + x + q + y + t + z;
    assert s == p + x + (q + y + t + z);
    ContainsInfix(p, x, q + y + t + z);
    assert s == p + x + q + y + (t + z);
    ContainsInfix(p + x + q, y, t + z);
    assert s == p + x + q + y + t + z + [];
    ContainsInfix(p + x + q + y + t, z, []);
  }

  /** Lowering both sides keeps every occurrence. */
  lemma ContainsLower(hay: string, needle: string)
    ensures Contains(hay, needle) ==> Contains(Lower(hay), Lower(needle))
  {
    if Contains(hay, needle) {
      var i := ContainsWitness(hay, needle);
      LowerSlice(hay, i, i + |needle|);
      OccursContains(Lower(hay), Lower(needle), i);
    }
  }

  // ---------------------------------------------------------------------------
  // Whitespace stripping

  /** Python's `str.isspace()` on one character (the characters `str.strip()` removes). */
  predicate IsSpace(c: char)
  {
    var n := c as int;
    n == 0x20 || 0x09 <= n <= 0x0D || 0x1C <= n <= 0x1F || n == 0x85 || n == 0xA0
    || n == 0x1680 || 0x2000 <= n <= 0x200A || n == 0x2028 || n == 0x2029
    || n == 0x202F || n == 0x205F || n == 0x3000
  }

  /** The number of leading whitespace characters of `s`. */
  function LeadingSpace(s: string): (n: nat)
    ensures n <= |s|
    ensures forall k :: 0 <= k < n ==> IsSpace(s[k])
    ensures n < |s| ==> !IsSpace(s[n])
  {
    if s == [] || !IsSpace(s[0]) then 0 else 1 + LeadingSpace(s[1..])
  }

  /** The length of `s` once its trailing whitespace is cut off. */
  function WithoutTrailingSpace(s: string): (n: nat)
    ensures n <= |s|
    ensures forall k :: n <= k < |s| ==> IsSpace(s[k])
    ensures 0 < n ==> !IsSpace(s[n - 1])
  {
    if s == [] || !IsSpace(s[|s| - 1]) then |s| else WithoutTrailingSpace(s[..|s| - 1])
  }

  /** Neither end of `s` is whitespace. */
  predicate IsStripped(s: string)
  {
    s == [] || (!IsSpace(s[0]) && !IsSpace(s[|s| - 1]))
  }

  /** `s.strip()`: the longest middle slice of `s` with no whitespace at either end. */
  function Strip(s: string): (r: string)
    ensures IsStripped(r)
    ensures LeadingSpace(s) + |r| <= |s|
    ensures r == s[LeadingSpace(s)..LeadingSpace(s) + |r|]
    ensures forall k :: LeadingSpace(s) + |r| <= k < |s| ==> IsSpace(s[k])
  {
    var t := s[LeadingSpace(s)..];
    t[..WithoutTrailingSpace(t)]
  }

  lemma StripStripped(s: string)
    requires IsStripped(s)
    ensures Strip(s) == s
  {
  }

  // ---------------------------------------------------------------------------
  // Markdown fences

  const Fence: string := "```"
  const JsonFence: string := "```json"

  /**
   * `re.sub(r"```(json)?", "", s)`: scanning left to right, every "```json"
   * and every other "```" is deleted; the characters in between are kept.
   */
  function RemoveFences(s: string): (r: string)
    ensures |r| <= |s|
    ensures forall i :: 0 <= i < |r| ==> r[i] in s
  {
    if JsonFence <= s then RemoveFences(s[|JsonFence|..])
    else if Fence <= s then RemoveFences(s[|Fence|..])
    else if s == [] then []
    else [s[0]] + RemoveFences(s[1..])
  }

  predicate StartsWithTick(s: string)
  {
    |s| > 0 && s[0] == '`'
  }

  lemma NoTickStaysNoTick(t: string)
    requires !StartsWithTick(t)
    ensures !StartsWithTick(RemoveFences(t))
  {
  }

  lemma NoDoubleTickStaysNoDoubleTick(t: string)
    requires !("``" <= t)
    ensures !("``" <= RemoveFences(t))
  {
    if t != [] {
      assert !(Fence <= t) && !(JsonFence <= t);
      assert RemoveFences(t) == [t[0]] + RemoveFences(t[1..]);
      if t[0] == '`' {
        NoTickStaysNoTick(t[1..]);
      }
    }
  }

  /** After removal no "```" is left, not even one formed by joining the pieces. */
  lemma {:induction false} RemoveFencesLeavesNone(s: string)
    ensures !Contains(RemoveFences(s), Fence)
    decreases |s|
  {
    if JsonFence <= s {
      RemoveFencesLeavesNone(s[|JsonFence|..]);
    } else if Fence <= s {
      RemoveFencesLeavesNone(s[|Fence|..]);
    } else if s != [] {
      var r := RemoveFences(s);
      assert r == [s[0]] + RemoveFences(s[1..]);
      RemoveFencesLeavesNone(s[1..]);
      assert r[1..] == RemoveFences(s[1..]);
      if s[0] == '`' {
        NoDoubleTickStaysNoDoubleTick(s[1..]);
      }
    }
  }

  /** Text with no fence in it passes through unchanged. */
  lemma {:induction false} RemoveFencesNoFence(s: string)
    requires !Contains(s, Fence)
    ensures RemoveFences(s) == s
    decreases |s|
  {
    if s != [] {
      assert !(JsonFence <= s);
      RemoveFencesNoFence(s[1..]);
    }
  }

  /**
   * Content wrapped in a closing fence comes out as it went in, even when it
   * ends in one or two backticks of its own.
   */
  lemma {:induction false} RemoveClosingFence(b: string)
    requires !Contains(b, Fence)
    ensures RemoveFences(b + Fence) == b
    decreases |b|
  {
    var s := b + Fence;
    if Fence <= s {
      // `b` is at most two backticks: a third character would complete a fence inside `b`.
      assert |b| < 3;
      assert forall k :: 0 <= k < |b| ==> b[k] == s[k] == '`';
      assert |s| < |JsonFence|;
      forall k | 0 <= k < |b|
        ensures s[|Fence|..][k] == b[k]
      {
        assert s[|Fence|..][k] == s[|Fence| + k] == '`';
      }
      assert |s[|Fence|..]| == |b|;
      assert s[|Fence|..] == b;
      assert RemoveFences(s) == RemoveFences(b);
      RemoveFencesNoFence(b);
    } else {
      assert b != [] && !(JsonFence <= s);
      assert s[1..] == b[1..] + Fence;
      if Contains(b[1..], Fence) {
        ContainsInSlice(b, 1, |b|, Fence);
      }
      RemoveClosingFence(b[1..]);
    }
  }

  /**
   * The usual shape of the model's reply, a ```json fence around the
   * payload: the fences go and the payload is what is left.
   */
  lemma Unwrap(b: string)
    requires !Contains(b, Fence)
    ensures RemoveFences(JsonFence + b + Fence) == b
    ensures CleanText(JsonFence + b + Fence) == Strip(b)
  {
    var s := JsonFence + b + Fence;
    assert JsonFence <= s;
    assert s[|JsonFence|..] == b + Fence;
    RemoveClosingFence(b);
  }

  /** Stripping cuts a slice out, so it cannot create a fence. */
  lemma StripKeepsNoFence(u: string)
    requires !Contains(u, Fence)
    ensures !Contains(Strip(u), Fence)
  {
    if Contains(Strip(u), Fence) {
      ContainsInSlice(u, LeadingSpace(u), LeadingSpace(u) + |Strip(u)|, Fence);
    }
  }

  /**
   * `re.sub(r"```(json)?", "", text).strip()`, the text `clean_and_parse_json`
   * hands to the JSON parser: no fence is left and neither end is whitespace.
   */
  function CleanText(s: string): (r: string)
    ensures !Contains(r, Fence)
    ensures IsStripped(r)
    ensures |r| <= |s|
  {
    RemoveFencesLeavesNone(s);
    StripKeepsNoFence(RemoveFences(s));
    Strip(RemoveFences(s))
  }

  /** Cleaning twice is cleaning once. */
  lemma CleanTextIdempotent(s: string)
    ensures CleanText(CleanText(s)) == CleanText(s)
  {
    var c := CleanText(s);
    RemoveFencesNoFence(c);
    StripStripped(c);
  }
}
