/**
 * The two string functions of Go's `strings` package the rate fetcher relies on:
 * `strings.Contains` and `strings.Split` with a one-character separator.
 */
module Text {

  /** `sub` occurs in `s` at index `i`. */
  predicate OccursAt(s: string, sub: string, i: nat) {
    i + |sub| <= |s| && s[i..i + |sub|] == sub
  }

  /** `strings.Contains(s, sub)`. */
  predicate Contains(s: string, sub: string) {
    exists i: nat | i <= |s| :: OccursAt(s, sub, i)
  }

  /** An occurrence inside the suffix of `prefix + s` is an occurrence in the whole string. */
  lemma ContainsSuffix(prefix: string, s: string, sub: string)
    requires Contains(s, sub)
    ensures Contains(prefix + s, sub)
  {
    var i: nat :| i <= |s| && OccursAt(s, sub, i);
    assert (prefix + s)[|prefix| + i..|prefix| + i + |sub|] == s[i..i + |sub|];
    assert OccursAt(prefix + s, sub, |prefix| + i);
  }

  /**
   * If the second character of `sub` never occurs in `prefix`, and `prefix` does not end with
   * the first character of `sub`, then an occurrence of `sub` in `prefix + s` lies inside `s`.
   */
  lemma ContainsOnlyInSuffix(prefix: string, s: string, sub: string)
    requires |sub| >= 2 && sub[1] !in prefix
    requires prefix == [] || prefix[|prefix| - 1] != sub[0]
    requires Contains(prefix + s, sub)
    ensures Contains(s, sub)
  {
    var whole := prefix + s;
    var i: nat :| i <= |whole| && OccursAt(whole, sub, i);
    assert whole[i] == sub[0] && whole[i + 1] == sub[1] by {
      assert whole[i..i + |sub|][0] == whole[i] && whole[i..i + |sub|][1] == whole[i + 1];
    }
    if i + 1 < |prefix| {
      assert false;
    } else if i + 1 == |prefix| {
      assert false;
    }
    assert s[i - |prefix|..i - |prefix| + |sub|] == whole[i..i + |sub|];
    assert OccursAt(s, sub, i - |prefix|);
  }

  /** Number of occurrences of the character `c` in `s`. */
  function Count(s: string, c: char): nat {
    if s == [] then 0 else (if s[0] == c then 1 else 0) + Count(s[1..], c)
  }

  /**
   * `strings.Split(s, string(sep))`: the maximal `sep`-free pieces of `s`, in order.
   * Like Go, an empty string gives one empty token and adjacent separators give empty tokens.
   */
  function Split(s: string, sep: char): (tokens: seq<string>)
    ensures |tokens| == Count(s, sep) + 1
    ensures forall t | t in tokens :: sep !in t
  {
    if s == [] then [[]]
    else
      var rest := Split(s[1..], sep);
      if s[0] == sep then [[]] + rest
      else [[s[0]] + rest[0]] + rest[1..]
  }

  /** `strings.Join(tokens, string(sep))`, the inverse of Split. */
  function Join(tokens: seq<string>, sep: char): string
    requires |tokens| >= 1
  {
    if |tokens| == 1 then tokens[0] else tokens[0] + [sep] + Join(tokens[1..], sep)
  }

  /** A string without the separator is a single token. */
  lemma {:induction false} SplitNoSeparator(s: string, sep: char)
    requires sep !in s
    ensures Split(s, sep) == [s]
  {
    if s != [] {
      assert s[0] in s;
      assert forall c | c in s[1..] :: c in s;
      SplitNoSeparator(s[1..], sep);
      assert [s[0]] + s[1..] == s;
    }
  }

  /** Joining the tokens of a split gives back the original string. */
  lemma {:induction false} JoinSplit(s: string, sep: char)
    ensures Join(Split(s, sep), sep) == s
  {
    if s != [] {
      var rest := Split(s[1..], sep);
      JoinSplit(s[1..], sep);
      if s[0] == sep {
        assert Split(s, sep)[1..] == rest;
      } else {
        var tokens := Split(s, sep);
        if |rest| == 1 {
          assert tokens == [[s[0]] + rest[0]];
        } else {
          assert tokens[1..] == rest[1..];
          assert Join(rest, sep) == rest[0] + [sep] + Join(rest[1..], sep);
        }
        assert [s[0]] + s[1..] == s;
      }
    }
  }

  /** A separator-free head followed by the separator splits off as the first token. */
  lemma {:induction false} SplitAfterToken(a: string, b: string, sep: char)
    requires sep !in a
    ensures Split(a + [sep] + b, sep) == [a] + Split(b, sep)
  {
    if a == [] {
      assert a + [sep] + b == [sep] + b;
      assert ([sep] + b)[1..] == b;
    } else {
      SplitAfterToken(a[1..], b, sep);
      assert (a + [sep] + b)[1..] == a[1..] + [sep] + b;
      assert [a[0]] + a[1..] == a;
    }
  }

  /** Splitting the join of separator-free tokens gives back the tokens. */
  lemma {:induction false} SplitJoin(tokens: seq<string>, sep: char)
    requires |tokens| >= 1
    requires forall t | t in tokens :: sep !in t
    ensures Split(Join(tokens, sep), sep) == tokens
  {
    if |tokens| == 1 {
      SplitNoSeparator(tokens[0], sep);
    } else {
      assert tokens[0] in tokens;
      assert forall t | t in tokens[1..] :: t in tokens;
      SplitJoin(tokens[1..], sep);
      SplitAfterToken(tokens[0], Join(tokens[1..], sep), sep);
      assert [tokens[0]] + tokens[1..] == tokens;
    }
  }
}
