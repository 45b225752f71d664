// str.split, str.strip and str.join. What counts as white space, or as a character to drop, is given.
module Words {
  // str.split(): word is the token read so far.
  function Tokens(space: char -> bool, s: string, word: string): seq<string>
  {
    if s == "" then Flush(word)
    else if space(s[0]) then Flush(word) + Tokens(space, s[1..], "")
    else Tokens(space, s[1..], word + [s[0]])
  }

  function Flush(word: string): seq<string>
  {
    if word == "" then [] else [word]
  }

  function StripLeft(drop: char -> bool, s: string): string
  {
    if s != "" && drop(s[0]) then StripLeft(drop, s[1..]) else s
  }

  function StripRight(drop: char -> bool, s: string): string
  {
    if s != "" && drop(s[|s|-1]) then StripRight(drop, s[..|s|-1]) else s
  }

  function Strip(drop: char -> bool, s: string): string
  {
    StripRight(drop, StripLeft(drop, s))
  }

  ghost predicate Blank(space: char -> bool, s: string)
  {
    forall i :: 0 <= i < |s| ==> space(s[i])
  }

  ghost predicate Solid(space: char -> bool, s: string)
  {
    forall i :: 0 <= i < |s| ==> !space(s[i])
  }

  // ----- Splitting -----

  lemma {:induction false} TokensSplitAtSpace(space: char -> bool, a: string, c: char, b: string, word: string)
    requires space(c)
    ensures Tokens(space, a + [c] + b, word) == Tokens(space, a, word) + Tokens(space, b, "")
  {
    var s := a + [c] + b;
    if a == "" {
      assert s[1..] == b;
    } else {
      assert s[1..] == a[1..] + [c] + b;
      if space(a[0]) {
        TokensSplitAtSpace(space, a[1..], c, b, "");
        assert Flush(word) + (Tokens(space, a[1..], "") + Tokens(space, b, ""))
            == Flush(word) + Tokens(space, a[1..], "") + Tokens(space, b, "");
      } else {
        TokensSplitAtSpace(space, a[1..], c, b, word + [a[0]]);
      }
    }
  }

  // White space separates: the tokens of a, blank, b are those of a and then those of b.
  lemma {:induction false} TokensSplit(space: char -> bool, a: string, blank: string, b: string)
    requires Blank(space, blank) && blank != ""
    ensures Tokens(space, a + blank + b, "") == Tokens(space, a, "") + Tokens(space, b, "")
    decreases |blank|
  {
    var rest := blank[1..] + b;
    assert a + blank + b == a + [blank[0]] + rest;
    TokensSplitAtSpace(space, a, blank[0], rest, "");
    if blank[1..] == "" {
      assert rest == b;
    } else {
      assert rest == "" + blank[1..] + b;
      TokensSplit(space, "", blank[1..], b);
      assert Tokens(space, "", "") == [];
    }
  }

  lemma {:induction false} SolidTokens(space: char -> bool, s: string, word: string)
    requires Solid(space, s)
    ensures Tokens(space, s, word) == Flush(word + s)
  {
    if s == "" {
      assert word + s == word;
    } else {
      SolidTokens(space, s[1..], word + [s[0]]);
      assert word + [s[0]] + s[1..] == word + s;
    }
  }

  // x is a word of the text, from position i to j: not empty, without white space, and bounded by white space or
  // the ends of the text.
  ghost predicate WordAt(space: char -> bool, s: string, i: nat, j: nat, x: string)
  {
    && i < j <= |s| && s[i..j] == x && (forall p :: i <= p < j ==> !space(s[p]))
    && (i > 0 ==> space(s[i-1])) && (j < |s| ==> space(s[j]))
  }

  ghost predicate IsWord(space: char -> bool, s: string, x: string)
  {
    exists i: nat, j: nat :: WordAt(space, s, i, j, x)
  }

  // Where the first white space is, or the length of the text.
  ghost function FirstSpace(space: char -> bool, s: string): (n: nat)
    ensures n <= |s| && (forall p :: 0 <= p < n ==> !space(s[p])) && (n < |s| ==> space(s[n]))
  {
    if s == "" || space(s[0]) then 0 else FirstSpace(space, s[1..]) + 1
  }

  lemma WordOfBeginning(space: char -> bool, s: string, n: nat, i: nat, j: nat, x: string)
    requires n < |s| && (forall p :: 0 <= p < n ==> !space(s[p])) && space(s[n])
    requires WordAt(space, s, i, j, x) && i < n
    ensures x == s[..n]
  {
  }

  lemma WordShifts(space: char -> bool, s: string, n: nat, i: nat, j: nat, x: string)
    requires n < |s| && space(s[n])
    ensures WordAt(space, s, i + n + 1, j + n + 1, x) <==> WordAt(space, s[n+1..], i, j, x)
  {
    var b := s[n+1..];
    if i < j <= |b| {
      assert s[i+n+1..j+n+1] == b[i..j];
      assert forall p :: 0 <= p < |b| ==> b[p] == s[p+n+1];
      assert (forall p :: i <= p < j ==> !space(b[p])) ==> forall p :: i + n + 1 <= p < j + n + 1 ==> !space(s[p]) by {
        if forall p :: i <= p < j ==> !space(b[p]) {
          forall p | i + n + 1 <= p < j + n + 1 ensures !space(s[p]) { assert s[p] == b[p-n-1]; }
        }
      }
    }
  }

  // A word of a text is its beginning up to the first white space, or a word of the rest.
  lemma WordsOfRest(space: char -> bool, s: string, n: nat, x: string)
    requires n < |s| && (forall p :: 0 <= p < n ==> !space(s[p])) && space(s[n])
    ensures IsWord(space, s, x) <==> (n > 0 && x == s[..n]) || IsWord(space, s[n+1..], x)
  {
    if i: nat, j: nat :| WordAt(space, s, i, j, x) {
      if i < n {
        WordOfBeginning(space, s, n, i, j, x);
      } else {
        WordShifts(space, s, n, i - n - 1, j - n - 1, x);
      }
    }
    var b := s[n+1..];
    if i: nat, j: nat :| WordAt(space, b, i, j, x) {
      WordShifts(space, s, n, i, j, x);
    }
    if n > 0 && x == s[..n] { assert WordAt(space, s, 0, n, x); }
  }

  lemma OneWord(space: char -> bool, s: string, x: string)
    requires Solid(space, s)
    ensures x in Tokens(space, s, "") <==> IsWord(space, s, x)
  {
    SolidTokens(space, s, "");
    assert "" + s == s;
    if s != "" { assert WordAt(space, s, 0, |s|, s); }
  }

  lemma TokensOfRest(space: char -> bool, s: string, n: nat)
    requires n < |s| && (forall p :: 0 <= p < n ==> !space(s[p])) && space(s[n])
    ensures Tokens(space, s, "") == Flush(s[..n]) + Tokens(space, s[n+1..], "")
  {
    SplitsAt(s, n);
    WordThenRest(space, s, s[..n], s[n], s[n+1..]);
  }

  lemma SplitsAt(s: string, n: nat)
    requires n < |s|
    ensures s == s[..n] + [s[n]] + s[n+1..]
  {
  }

  lemma WordThenRest(space: char -> bool, s: string, a: string, c: char, b: string)
    requires s == a + [c] + b && Solid(space, a) && space(c)
    ensures Tokens(space, s, "") == Flush(a) + Tokens(space, b, "")
  {
    SolidTokens(space, a, "");
    assert "" + a == a;
    TokensSplitAtSpace(space, a, c, b, "");
  }

  // The tokens of a text are its words.
  lemma {:induction false} TokensAreWords(space: char -> bool, s: string, x: string)
    ensures x in Tokens(space, s, "") <==> IsWord(space, s, x)
    decreases |s|
  {
    var n := FirstSpace(space, s);
    if n == |s| {
      OneWord(space, s, x);
    } else {
      TokensOfRest(space, s, n);
      TokensAreWords(space, s[n+1..], x);
      WordsOfRest(space, s, n, x);
    }
  }

  // str.join()
  function Join(parts: seq<string>, separator: string): string
  {
    if |parts| == 0 then "" else if |parts| == 1 then parts[0] else parts[0] + separator + Join(parts[1..], separator)
  }

  // Splitting undoes joining, in order and with repetitions.
  lemma {:induction false} TokensUndoJoin(space: char -> bool, words: seq<string>, separator: char)
    requires space(separator) && forall i :: 0 <= i < |words| ==> words[i] != "" && Solid(space, words[i])
    ensures Tokens(space, Join(words, [separator]), "") == words
  {
    if |words| > 0 {
      SolidTokens(space, words[0], "");
      assert "" + words[0] == words[0];
      if |words| == 1 {
        assert words == [words[0]];
      } else {
        TokensUndoJoin(space, words[1..], separator);
        TokensSplitAtSpace(space, words[0], separator, Join(words[1..], [separator]), "");
        assert words == [words[0]] + words[1..];
      }
    }
  }

  // ----- Stripping -----

  // r is s without the characters to drop at both ends, and without those only.
  ghost predicate IsStripped(drop: char -> bool, s: string, r: string)
  {
    exists p: nat, q: nat :: StrippedTo(drop, s, p, q, r)
  }

  ghost predicate StrippedTo(drop: char -> bool, s: string, p: nat, q: nat, r: string)
  {
    && p <= q <= |s| && r == s[p..q]
    && (forall i :: 0 <= i < p ==> drop(s[i])) && (forall i :: q <= i < |s| ==> drop(s[i]))
    && (p < q ==> !drop(s[p]) && !drop(s[q-1]))
  }

  lemma {:induction false} LeftStripped(drop: char -> bool, s: string) returns (p: nat)
    ensures p <= |s| && StripLeft(drop, s) == s[p..]
    ensures (forall i :: 0 <= i < p ==> drop(s[i])) && (p < |s| ==> !drop(s[p]))
  {
    p := 0;
    if s != "" && drop(s[0]) {
      p := LeftStripped(drop, s[1..]);
      forall i | 0 < i < p + 1 ensures drop(s[i]) { assert s[i] == s[1..][i-1]; }
      assert s[1..][p..] == s[p+1..];
      p := p + 1;
    }
  }

  lemma {:induction false} RightStripped(drop: char -> bool, s: string) returns (q: nat)
    ensures q <= |s| && StripRight(drop, s) == s[..q]
    ensures (forall i :: q <= i < |s| ==> drop(s[i])) && (q > 0 ==> !drop(s[q-1]))
  {
    q := |s|;
    if s != "" && drop(s[|s|-1]) {
      q := RightStripped(drop, s[..|s|-1]);
      assert s[..|s|-1][..q] == s[..q];
    }
  }

  lemma StripIsStripped(drop: char -> bool, s: string)
    ensures IsStripped(drop, s, Strip(drop, s))
  {
    var p := LeftStripped(drop, s);
    var n := RightStripped(drop, s[p..]);
    forall i | p + n <= i < |s| ensures drop(s[i]) { assert s[i] == s[p..][i-p]; }
    assert s[p..][..n] == s[p..p+n];
    assert StrippedTo(drop, s, p, p + n, Strip(drop, s));
  }

  lemma OneStripped(drop: char -> bool, s: string, p: nat, q: nat, r: string, p': nat, q': nat, r': string)
    requires StrippedTo(drop, s, p, q, r) && StrippedTo(drop, s, p', q', r')
    ensures r == r'
  {
    if p < q {
      assert p' <= p < q';
      assert p' == p && q' == q;
    }
  }

  // Stripping is all there is to it: the stripped text is the only one without the characters to drop at its ends.
  lemma StripIff(drop: char -> bool, s: string, r: string)
    ensures r == Strip(drop, s) <==> IsStripped(drop, s, r)
  {
    StripIsStripped(drop, s);
    var p: nat, q: nat :| StrippedTo(drop, s, p, q, Strip(drop, s));
    if p': nat, q': nat :| StrippedTo(drop, s, p', q', r) {
      OneStripped(drop, s, p, q, Strip(drop, s), p', q', r);
    }
  }

  // Characters to drop put at either end make no difference.
  lemma StripIgnoresEnds(drop: char -> bool, before: string, s: string, after: string)
    requires Blank(drop, before) && Blank(drop, after)
    ensures Strip(drop, before + s + after) == Strip(drop, s)
  {
    StripIsStripped(drop, s);
    StrippedInside(drop, before, s, after, Strip(drop, s));
    StripIff(drop, before + s + after, Strip(drop, s));
  }

  lemma StrippedInside(drop: char -> bool, before: string, s: string, after: string, r: string)
    requires Blank(drop, before) && Blank(drop, after) && IsStripped(drop, s, r)
    ensures IsStripped(drop, before + s + after, r)
  {
    var p: nat, q: nat :| StrippedTo(drop, s, p, q, r);
    var n, longer := |before|, before + s + after;
    assert longer[n+p..n+q] == s[p..q];
    assert StrippedTo(drop, longer, n + p, n + q, r);
  }

  lemma {:induction false} StripLeftTokens(space: char -> bool, s: string)
    ensures Tokens(space, StripLeft(space, s), "") == Tokens(space, s, "")
  {
    if s != "" && space(s[0]) {
      StripLeftTokens(space, s[1..]);
    }
  }

  lemma {:induction false} StripRightTokens(space: char -> bool, s: string)
    ensures Tokens(space, StripRight(space, s), "") == Tokens(space, s, "")
  {
    if s != "" && space(s[|s|-1]) {
      StripRightTokens(space, s[..|s|-1]);
      assert s == s[..|s|-1] + [s[|s|-1]] + "";
      TokensSplitAtSpace(space, s[..|s|-1], s[|s|-1], "", "");
    }
  }

  lemma StripKeepsTokens(space: char -> bool, s: string)
    ensures Tokens(space, Strip(space, s), "") == Tokens(space, s, "")
  {
    StripLeftTokens(space, s);
    StripRightTokens(space, StripLeft(space, s));
  }

  lemma {:induction false} StripLeftAppend(space: char -> bool, a: string, b: string)
    ensures StripLeft(space, a + b) == if Blank(space, a) then StripLeft(space, b) else StripLeft(space, a) + b
  {
    if a == "" {
      assert a + b == b;
    } else if space(a[0]) {
      assert (a + b)[1..] == a[1..] + b;
      StripLeftAppend(space, a[1..], b);
      assert Blank(space, a) <==> Blank(space, a[1..]) by {
        if Blank(space, a[1..]) { assert forall i :: 0 < i < |a| ==> a[i] == a[1..][i-1]; }
      }
    }
  }

  // What stripping on the right leaves is a prefix, and it only grows when text is appended.
  lemma {:induction false} StripRightPrefix(space: char -> bool, s: string)
    ensures StripRight(space, s) <= s
    ensures StripRight(space, s) == "" <==> Blank(space, s)
  {
    if s != "" && space(s[|s|-1]) {
      StripRightPrefix(space, s[..|s|-1]);
    }
  }

  lemma {:induction false} StripRightGrows(space: char -> bool, a: string, b: string)
    ensures StripRight(space, a) <= StripRight(space, a + b)
  {
    if b == "" {
      assert a + b == a;
    } else if space(b[|b|-1]) {
      assert (a + b)[..|a + b| - 1] == a + b[..|b|-1];
      StripRightGrows(space, a, b[..|b|-1]);
    } else {
      StripRightPrefix(space, a);
      assert StripRight(space, a + b) == a + b;
    }
  }

  lemma {:induction false} StripLeftOfBlank(space: char -> bool, s: string)
    requires Blank(space, s)
    ensures StripLeft(space, s) == ""
  {
    if s != "" {
      StripLeftOfBlank(space, s[1..]);
    }
  }

  // Appending never loses a character of the stripped text: the old one is a prefix of the new.
  lemma StripGrows(space: char -> bool, a: string, b: string)
    ensures Strip(space, a) <= Strip(space, a + b)
  {
    StripLeftAppend(space, a, b);
    if Blank(space, a) {
      StripLeftOfBlank(space, a);
    } else {
      StripRightGrows(space, StripLeft(space, a), b);
    }
  }
}
