/**
 * The part of Go's `strings` package the credential code relies on, over
 * strings taken as sequences of Unicode code points.
 */
module Text {

  /** Go's `unicode.IsSpace`: the code points `strings.TrimSpace` removes. */
  predicate IsSpace(c: char)
  {
    var n := c as int;
    (9 <= n <= 13) || n == 32 || n == 0x85 || n == 0xA0 || n == 0x1680
    || (0x2000 <= n <= 0x200A) || n == 0x2028 || n == 0x2029 || n == 0x202F
    || n == 0x205F || n == 0x3000
  }

  predicate AllSpace(s: string)
  {
    forall i :: 0 <= i < |s| ==> IsSpace(s[i])
  }

  /** No white space at either end of `s`. */
  predicate Trimmed(s: string)
  {
    s == [] || (!IsSpace(s[0]) && !IsSpace(s[|s| - 1]))
  }

  /** `strings.TrimLeftFunc(s, unicode.IsSpace)`: white space dropped from the front. */
  function TrimLeftSpace(s: string): string
  {
    if s != [] && IsSpace(s[0]) then TrimLeftSpace(s[1..]) else s
  }

  /** Left trimming keeps the longest suffix of `s` that does not start with white space. */
  lemma {:induction false} TrimLeftSpaceFacts(s: string)
    ensures var r := TrimLeftSpace(s);
      && |r| <= |s| && r == s[|s| - |r|..]
      && (r == [] || !IsSpace(r[0]))
      && (forall i :: 0 <= i < |s| - |r| ==> IsSpace(s[i]))
    decreases |s|
  {
    if s != [] && IsSpace(s[0]) {
      TrimLeftSpaceFacts(s[1..]);
    }
  }

  /** `strings.TrimRightFunc(s, unicode.IsSpace)`: white space dropped from the back. */
  function TrimRightSpace(s: string): string
  {
    if s != [] && IsSpace(s[|s| - 1]) then TrimRightSpace(s[..|s| - 1]) else s
  }

  /** Right trimming keeps the longest prefix of `s` that does not end with white space. */
  lemma {:induction false} TrimRightSpaceFacts(s: string)
    ensures var r := TrimRightSpace(s);
      && |r| <= |s| && r == s[..|r|]
      && (r == [] || !IsSpace(r[|r| - 1]))
      && (forall i :: |r| <= i < |s| ==> IsSpace(s[i]))
    decreases |s|
  {
    if s != [] && IsSpace(s[|s| - 1]) {
      TrimRightSpaceFacts(s[..|s| - 1]);
    }
  }

  /** `strings.TrimSpace`: white space dropped from both ends. */
  function TrimSpace(s: string): string
  {
    TrimRightSpace(TrimLeftSpace(s))
  }

  /**
   * A trimmed string has no white space at either end, is empty exactly
   * when `s` is all white space, and is `s` itself when `s` was trimmed.
   */
  lemma TrimSpaceFacts(s: string)
    ensures Trimmed(TrimSpace(s))
    ensures TrimSpace(s) == [] <==> AllSpace(s)
    ensures Trimmed(s) ==> TrimSpace(s) == s
    ensures |TrimSpace(s)| <= |s|
  {
    TrimLeftSpaceFacts(s);
    TrimRightSpaceFacts(TrimLeftSpace(s));
  }

  /** Trimming only removes code points: one absent before is absent after. */
  lemma TrimSpaceKeepsAbsent(s: string, c: char)
    requires c !in s
    ensures c !in TrimSpace(s)
  {
    TrimLeftSpaceFacts(s);
    var left := TrimLeftSpace(s);
    assert c !in left;
    TrimRightSpaceFacts(left);
  }

  /** `strings.TrimLeft(s, string(cut))`. */
  function TrimLeftChar(s: string, cut: char): (r: string)
    ensures |r| <= |s| && r == s[|s| - |r|..]
    ensures r == [] || r[0] != cut
  {
    if s != [] && s[0] == cut then TrimLeftChar(s[1..], cut) else s
  }

  /** `strings.TrimRight(s, string(cut))`. */
  function TrimRightChar(s: string, cut: char): (r: string)
    ensures |r| <= |s| && r == s[..|r|]
    ensures r == [] || r[|r| - 1] != cut
  {
    if s != [] && s[|s| - 1] == cut then TrimRightChar(s[..|s| - 1], cut) else s
  }

  /** `strings.Trim(s, string(cut))`: `cut` dropped from both ends. */
  function TrimChar(s: string, cut: char): (r: string)
    ensures r == [] || (r[0] != cut && r[|r| - 1] != cut)
    ensures |r| <= |s|
  {
    TrimRightChar(TrimLeftChar(s, cut), cut)
  }

  /**
   * `unicode.ToLower` on one code point, exact for every code point whose
   * lower case is ASCII: the ASCII capitals, U+0130 (capital I with dot
   * above) and U+212A (Kelvin sign). Any other code point is kept.
   */
  function LowerChar(c: char): char
  {
    if 'A' <= c <= 'Z' then (c as int + 32) as char
    else if c == '\U{0130}' then 'i'
    else if c == '\U{212A}' then 'k'
    else c
  }

  /** `strings.ToLower`, code point by code point. */
  function ToLower(s: string): (r: string)
    ensures |r| == |s|
    ensures forall i :: 0 <= i < |s| ==> r[i] == LowerChar(s[i])
  {
    if s == [] then [] else [LowerChar(s[0])] + ToLower(s[1..])
  }

  lemma LowerCharIdempotent(c: char)
    ensures LowerChar(LowerChar(c)) == LowerChar(c)
  {
  }

  /** Lowering is idempotent: a lowered string is its own lower case. */
  lemma ToLowerIdempotent(s: string)
    ensures ToLower(ToLower(s)) == ToLower(s)
  {
    var once := ToLower(s);
    forall i | 0 <= i < |s| ensures ToLower(once)[i] == once[i] {
      LowerCharIdempotent(s[i]);
    }
  }

  /** A string with no code point that `LowerChar` changes is its own lower case. */
  lemma ToLowerUnchanged(s: string)
    requires forall i :: 0 <= i < |s| ==> !('A' <= s[i] <= 'Z') && s[i] != '\U{0130}' && s[i] != '\U{212A}'
    ensures ToLower(s) == s
  {
  }

  /** A word of lower-case ASCII letters and hyphens is unchanged by trimming and by lowering. */
  lemma PlainWordUnchanged(s: string)
    requires forall i :: 0 <= i < |s| ==> 'a' <= s[i] <= 'z' || s[i] == '-'
    ensures TrimSpace(s) == s && ToLower(s) == s
  {
    assert Trimmed(s);
    TrimSpaceFacts(s);
    ToLowerUnchanged(s);
  }

  /** Lowering neither creates nor removes white space. */
  lemma LowerCharKeepsSpace(c: char)
    ensures IsSpace(LowerChar(c)) <==> IsSpace(c)
  {
  }

  /** Trimming and lowering commute, so their order in a normaliser does not matter. */
  lemma {:induction false} TrimSpaceToLower(s: string)
    ensures TrimSpace(ToLower(s)) == ToLower(TrimSpace(s))
  {
    TrimLeftLower(s);
    var left := TrimLeftSpace(s);
    TrimRightLower(left);
  }

  lemma {:induction false} TrimLeftLower(s: string)
    ensures TrimLeftSpace(ToLower(s)) == ToLower(TrimLeftSpace(s))
    decreases |s|
  {
    if s != [] {
      LowerCharKeepsSpace(s[0]);
      assert ToLower(s)[1..] == ToLower(s[1..]);
      if IsSpace(s[0]) {
        TrimLeftLower(s[1..]);
      }
    }
  }

  lemma {:induction false} TrimRightLower(s: string)
    ensures TrimRightSpace(ToLower(s)) == ToLower(TrimRightSpace(s))
    decreases |s|
  {
    if s != [] {
      LowerCharKeepsSpace(s[|s| - 1]);
      assert ToLower(s)[..|s| - 1] == ToLower(s[..|s| - 1]);
      if IsSpace(s[|s| - 1]) {
        TrimRightLower(s[..|s| - 1]);
      }
    }
  }

  /** A string padded with white space on both sides trims back to itself. */
  lemma {:induction false} TrimSpacePadded(left: string, s: string, right: string)
    requires AllSpace(left) && AllSpace(right) && Trimmed(s)
    ensures TrimSpace(left + s + right) == s
  {
    var whole := left + s + right;
    if s == [] {
      assert AllSpace(whole);
      TrimSpaceFacts(whole);
    } else {
      TrimLeftSpaceFacts(whole);
      var l := TrimLeftSpace(whole);
      var n := |whole| - |l|;
      assert whole[|left|] == s[0];
      assert forall i :: 0 <= i < |left| ==> whole[i] == left[i];
      assert n == |left|;
      assert l == s + right;
      TrimRightSpaceFacts(l);
      var r := TrimRightSpace(l);
      assert l[|s| - 1] == s[|s| - 1];
      assert forall i :: |s| <= i < |l| ==> l[i] == right[i - |s|];
      assert |r| == |s|;
      assert r == s;
    }
  }

  /** `strings.HasSuffix`. */
  predicate HasSuffix(s: string, suffix: string)
  {
    |suffix| <= |s| && s[|s| - |suffix|..] == suffix
  }

  /** Index of the first occurrence of `c` in `s`. */
  function IndexOf(s: string, c: char): (k: nat)
    requires c in s
    ensures k < |s| && s[k] == c && c !in s[..k]
  {
    if s[0] == c then 0 else 1 + IndexOf(s[1..], c)
  }

  /** `strings.Join(parts, string(sep))`. */
  function Join(parts: seq<string>, sep: char): string
  {
    if parts == [] then []
    else if |parts| == 1 then parts[0]
    else parts[0] + [sep] + Join(parts[1..], sep)
  }

  /** `strings.Split(s, string(sep))`: the pieces between the separators. */
  function Split(s: string, sep: char): seq<string>
    decreases |s|
  {
    if sep !in s then [s]
    else
      var k := IndexOf(s, sep);
      [s[..k]] + Split(s[k + 1..], sep)
  }

  /**
   * There is at least one piece (splitting "" gives [""]), no piece holds
   * the separator, and joining the pieces gives `s` back.
   */
  lemma {:induction false} SplitFacts(s: string, sep: char)
    ensures |Split(s, sep)| >= 1
    ensures forall i :: 0 <= i < |Split(s, sep)| ==> sep !in Split(s, sep)[i]
    ensures Join(Split(s, sep), sep) == s
    decreases |s|
  {
    if sep in s {
      var k := IndexOf(s, sep);
      var rest := Split(s[k + 1..], sep);
      SplitFacts(s[k + 1..], sep);
      assert s == s[..k] + [sep] + s[k + 1..];
      var parts := Split(s, sep);
      assert parts == [s[..k]] + rest;
      assert parts[1..] == rest;
      forall i | 0 <= i < |parts| ensures sep !in parts[i] {
        if i > 0 {
          assert parts[i] == rest[i - 1];
        }
      }
    }
  }

  /** The converse of the round trip in `Split`: splitting a join returns the pieces. */
  lemma {:induction false} SplitJoin(parts: seq<string>, sep: char)
    requires |parts| >= 1
    requires forall i :: 0 <= i < |parts| ==> sep !in parts[i]
    ensures Split(Join(parts, sep), sep) == parts
    decreases |parts|
  {
    if |parts| > 1 {
      var s := Join(parts, sep);
      var tail := Join(parts[1..], sep);
      assert s == parts[0] + [sep] + tail;
      assert s[|parts[0]|] == sep;
      assert s[..|parts[0]|] == parts[0];
      assert IndexOf(s, sep) == |parts[0]|;
      assert s[|parts[0]| + 1..] == tail;
      SplitJoin(parts[1..], sep);
      assert Split(s, sep) == [parts[0]] + parts[1..];
    }
  }
}
