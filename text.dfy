/** String helpers with the meaning of the Python built-ins the agents use:
    slicing `s[:n]`, `str.lower()`, the `in` substring test and `str(int)`. */
module Text {

  /** `s[:n]`: the first `n` characters, or all of `s` when it is shorter. */
  function Take(s: string, n: nat): (r: string)
    ensures |r| <= n && r <= s
    ensures |s| <= n ==> r == s
    ensures n <= |s| ==> |r| == n
  {
    if |s| <= n then s else s[..n]
  }

  /** `c.lower()` for ASCII letters; every other character is kept. */
  function LowerChar(c: char): char
  {
    if 'A' <= c <= 'Z' then (c as int + 32) as char else c
  }

  /** `s.lower()`, character by character. */
  function Lower(s: string): (r: string)
    ensures |r| == |s|
    ensures forall i :: 0 <= i < |s| ==> r[i] == LowerChar(s[i])
  {
    if s == [] then [] else [LowerChar(s[0])] + Lower(s[1..])
  }

  lemma {:induction false} LowerIdempotent(s: string)
    ensures Lower(Lower(s)) == Lower(s)
  {
    if s != [] {
      LowerIdempotent(s[1..]);
      assert Lower(s)[1..] == Lower(s[1..]);
    }
  }

  /** The only strings that lower-case to "n" are "n" and "N". */
  lemma LowerIsN(s: string)
    ensures Lower(s) == "n" <==> s == "n" || s == "N"
  {
    if Lower(s) == "n" {
      assert |s| == 1 && LowerChar(s[0]) == 'n';
    }
  }

  /** `needle in hay` for strings. */
  predicate Contains(hay: string, needle: string)
    decreases |hay|
  {
    needle <= hay || (|hay| > 0 && Contains(hay[1..], needle))
  }

  /** `needle` occurs in `hay` starting at position `i`. */
  predicate OccursAt(hay: string, needle: string, i: nat)
  {
    i + |needle| <= |hay| && hay[i..i + |needle|] == needle
  }

  /** An occurrence at position `i` is enough for `Contains`. */
  lemma {:induction false} ContainsAt(hay: string, needle: string, i: nat)
    requires OccursAt(hay, needle, i)
    ensures Contains(hay, needle)
    decreases i
  {
    if i == 0 {
      assert needle <= hay;
    } else {
      assert hay[1..][i - 1..i - 1 + |needle|] == hay[i..i + |needle|];
      ContainsAt(hay[1..], needle, i - 1);
    }
  }

  /** `Contains` holds exactly when the needle occurs at some position. */
  lemma {:induction false} ContainsIff(hay: string, needle: string)
    ensures Contains(hay, needle) <==> exists i: nat :: OccursAt(hay, needle, i)
    decreases |hay|
  {
    if Contains(hay, needle) {
      if needle <= hay {
        assert OccursAt(hay, needle, 0);
      } else {
        ContainsIff(hay[1..], needle);
        var j: nat :| OccursAt(hay[1..], needle, j);
        assert hay[1..][j..j + |needle|] == hay[j + 1..j + 1 + |needle|];
        assert OccursAt(hay, needle, j + 1);
      }
    }
    if exists i: nat :: OccursAt(hay, needle, i) {
      var i: nat :| OccursAt(hay, needle, i);
      ContainsAt(hay, needle, i);
    }
  }

  /** Where the parts of a five-part concatenation start. */
  lemma PartsOfFive(a: string, b: string, c: string, d: string, e: string)
    ensures a <= a + b + c + d + e
    ensures OccursAt(a + b + c + d + e, b, |a|)
    ensures OccursAt(a + b + c + d + e, d, |a| + |b| + |c|)
  {
    var p := a + b + c + d + e;
    assert p[|a|..|a| + |b|] == b;
    assert p[|a| + |b| + |c|..|a| + |b| + |c| + |d|] == d;
  }

  /** A string occurs in any concatenation that has it in the middle. */
  lemma ContainsMiddle(a: string, b: string, c: string)
    ensures Contains(a + b + c, b)
  {
    assert OccursAt(a + b + c, b, |a|) by {
      assert (a + b + c)[|a|..|a| + |b|] == b;
    }
    ContainsAt(a + b + c, b, |a|);
  }

  /** A single decimal digit. */
  function Digit(d: nat): char
    requires d < 10
  {
    "0123456789"[d]
  }

  /** `str(n)` for a natural number: its decimal digits, without leading zeros. */
  function Decimal(n: nat): (r: string)
    ensures |r| >= 1
    ensures forall i :: 0 <= i < |r| ==> '0' <= r[i] <= '9'
    ensures n >= 10 <==> |r| >= 2
  {
    if n < 10 then [Digit(n)] else Decimal(n / 10) + [Digit(n % 10)]
  }
}
