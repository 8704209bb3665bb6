/** What the text operations do, said on the characters: trimming, words, decimal numbers. */
module TextLaws {
  import opened Strings

  predicate White(s: string) {
    forall i :: 0 <= i < |s| ==> IsWhitespace(s[i])
  }

  predicate Solid(s: string) {
    forall i :: 0 <= i < |s| ==> !IsWhitespace(s[i])
  }

  // ---------------------------------------------------------------- trimming

  lemma {:induction false} StartTrimmed(s: string)
    ensures White(s[..|s| - |TrimStart(s)|])
  {
    hide IsWhitespace;
    if s != [] && IsWhitespace(s[0]) {
      StartTrimmed(s[1..]);
      var n := |s| - |TrimStart(s)|;
      assert s[..n] == [s[0]] + s[1..][..n - 1];
    }
  }

  lemma {:induction false} EndTrimmed(s: string)
    ensures White(s[|TrimEnd(s)|..])
  {
    hide IsWhitespace;
    if s != [] && IsWhitespace(s[|s| - 1]) {
      var init := s[..|s| - 1];
      EndTrimmed(init);
      assert s[|TrimEnd(s)|..] == init[|TrimEnd(s)|..] + [s[|s| - 1]];
    }
  }

  /** Trimming takes whitespace off both ends, all of it and nothing else. */
  lemma TrimIs(s: string) returns (before: string, after: string)
    ensures s == before + Trim(s) + after && White(before) && White(after)
    ensures Trim(s) != "" ==> !IsWhitespace(Trim(s)[0]) && !IsWhitespace(Trim(s)[|Trim(s)| - 1])
  {
    hide IsWhitespace, TrimStart, TrimEnd;
    var t := TrimStart(s);
    StartTrimmed(s);
    EndTrimmed(t);
    before, after := s[..|s| - |t|], t[|Trim(s)|..];
    assert s == before + t && t == Trim(s) + after;
  }

  // ---------------------------------------------------------------- words

  lemma {:induction false} WhiteIff(a: string)
    ensures White(a) <==> TrimStart(a) == ""
  {
    hide IsWhitespace;
    if a != "" && IsWhitespace(a[0]) {
      WhiteIff(a[1..]);
      assert forall i :: 1 <= i < |a| ==> a[i] == a[1..][i - 1];
    }
  }

  lemma TrimStartStep(s: string, rest: string)
    requires s != ""
    ensures TrimStart(s + rest) == if IsWhitespace(s[0]) then TrimStart(s[1..] + rest) else s + rest
    ensures TrimStart(s) == if IsWhitespace(s[0]) then TrimStart(s[1..]) else s
  {
    hide IsWhitespace;
    assert (s + rest)[0] == s[0] && (s + rest)[1..] == s[1..] + rest;
  }

  lemma {:induction false} TrimStartOf(a: string, b: string)
    ensures TrimStart(a + b) == if TrimStart(a) == "" then TrimStart(b) else TrimStart(a) + b
  {
    hide IsWhitespace, TrimStart;
    if a == "" {
      assert a + b == b && TrimStart("") == "";
    } else {
      TrimStartStep(a, b);
      if IsWhitespace(a[0]) {
        TrimStartOf(a[1..], b);
      }
    }
  }

  lemma TrimStartFixed(t: string, rest: string)
    requires t != "" && TrimStart(t) == t
    ensures TrimStart(t + rest) == t + rest
  {
    assert (t + rest)[0] == t[0];
    hide IsWhitespace;
  }

  lemma {:induction false} WordEnds(s: string, rest: string)
    requires rest == "" || IsWhitespace(rest[0])
    ensures WordLength(s + rest) == WordLength(s)
  {
    hide IsWhitespace;
    if s == "" {
      assert s + rest == rest;
    } else if !IsWhitespace(s[0]) {
      assert (s + rest)[1..] == s[1..] + rest;
      WordEnds(s[1..], rest);
    }
  }

  /** The first word of a text ends before the whitespace that follows the text. */
  lemma FirstWord(a: string, tail: string)
    requires TrimStart(a) != "" && (tail == "" || IsWhitespace(tail[0]))
    ensures var t := TrimStart(a);
      var n := WordLength(t);
      && 0 < n <= |t| <= |a|
      && Words(a) == [t[..n]] + Words(t[n..]) && Words(a + tail) == [t[..n]] + Words(t[n..] + tail)
  {
    hide IsWhitespace, TrimStart, WordLength, Words;
    var t := TrimStart(a);
    TrimmedStart(a);
    FirstSolid(t);
    WordsStep(t);
    SameWords(a, t);
    FirstWordBefore(t, tail);
    TrimStartOf(a, tail);
    TrimStartFixed(t, tail);
    SameWords(a + tail, t + tail);
  }

  lemma CutOf(t: string, tail: string, n: nat)
    requires n <= |t|
    ensures (t + tail)[..n] == t[..n] && (t + tail)[n..] == t[n..] + tail
  {
  }

  lemma FirstWordBefore(t: string, tail: string)
    requires t != "" && TrimStart(t) == t && (tail == "" || IsWhitespace(tail[0]))
    ensures var n := WordLength(t);
      0 < n <= |t| && Words(t + tail) == [t[..n]] + Words(t[n..] + tail)
  {
    hide IsWhitespace, TrimStart, WordLength, Words;
    var n := WordLength(t);
    FirstSolid(t);
    TrimStartFixed(t, tail);
    WordEnds(t, tail);
    WordsStep(t + tail);
    CutOf(t, tail, n);
  }

  /**
   Whitespace separates: the words of two texts with whitespace between them are those of the one, then those of
   the other.
   */
  lemma {:induction false} WordsSplit(a: string, gap: string, b: string)
    requires gap != "" && White(gap)
    ensures Words(a + gap + b) == Words(a) + Words(b)
    decreases |a|
  {
    hide IsWhitespace, TrimStart, WordLength, White, Words;
    var t := TrimStart(a);
    FirstOf(gap);
    assert a + gap + b == a + (gap + b);
    if t == "" {
      WhiteIff(a);
      WhiteIff(gap);
      TrimStartOf(a, gap + b);
      TrimStartOf(gap, b);
      SameWords(a + gap + b, b);
      OneWord(a);
      assert [] + Words(b) == Words(b);
    } else {
      var rest := t[WordLength(t)..];
      FirstWord(a, gap + b);
      assert rest + (gap + b) == rest + gap + b;
      WordsSplit(rest, gap, b);
    }
  }

  lemma FirstOf(gap: string)
    requires gap != "" && White(gap)
    ensures IsWhitespace(gap[0])
  {
  }

  lemma FirstSolid(t: string)
    requires t != "" && TrimStart(t) == t
    ensures 0 < WordLength(t) <= |t|
  {
  }

  lemma WordsStep(t: string)
    requires t != "" && TrimStart(t) == t
    ensures 0 < WordLength(t) <= |t| && Words(t) == [t[..WordLength(t)]] + Words(t[WordLength(t)..])
  {
  }

  lemma SameWords(a: string, b: string)
    requires TrimStart(a) == TrimStart(b)
    ensures Words(a) == Words(b)
  {
  }

  /** A text without whitespace is one word, one of whitespace has none. */
  lemma OneWord(s: string)
    ensures White(s) ==> Words(s) == []
    ensures s != "" && Solid(s) ==> Words(s) == [s]
  {
    hide IsWhitespace;
    WhiteIff(s);
    if s != "" && Solid(s) {
      SolidLength(s);
      assert s[..|s|] == s && s[|s|..] == "";
    }
  }

  lemma {:induction false} SolidLength(s: string)
    requires Solid(s)
    ensures WordLength(s) == |s|
  {
    hide IsWhitespace;
    if s != "" {
      SolidLength(s[1..]);
    }
  }

  /** Collapsing leaves the words in order, with one space between two. */
  lemma CollapsedIs(word: string, gap: string, rest: string)
    requires word != "" && Solid(word) && gap != "" && White(gap)
    ensures CollapseWhitespace(word) == word && CollapseWhitespace(gap) == ""
    ensures CollapseWhitespace(gap + rest) == CollapseWhitespace(rest)
    ensures CollapseWhitespace(word + gap + rest) ==
            if CollapseWhitespace(rest) == "" then word else word + " " + CollapseWhitespace(rest)
  {
    hide Words, IsWhitespace, Solid, White;
    OneWord(word);
    OneWord(gap);
    WordsSplit(word, gap, rest);
    WordsSplit("", gap, rest);
    OneWord("");
    assert White("") by { NoneWhite(); }
    assert "" + gap + rest == gap + rest && [] + Words(rest) == Words(rest);
    WordsSolid(rest);
    if Words(rest) != [] {
      assert ([word] + Words(rest))[1..] == Words(rest);
      assert Words(rest)[0] != "";
      JoinNonEmpty(Words(rest));
    } else {
      assert [word] + Words(rest) == [word];
    }
  }

  lemma NoneWhite()
    ensures White("")
  {
  }

  lemma JoinNonEmpty(parts: seq<string>)
    requires parts != [] && parts[0] != ""
    ensures Join(parts, " ") != ""
  {
  }

  lemma {:induction false} WordsSolid(s: string)
    ensures forall i :: 0 <= i < |Words(s)| ==> Words(s)[i] != ""
    decreases |s|
  {
    hide IsWhitespace, WordLength, Words, TrimStart;
    var t := TrimStart(s);
    TrimmedStart(s);
    if t != "" {
      WordsStep(t);
      WordsSolid(t[WordLength(t)..]);
      SameWords(s, t);
    } else {
      WhiteIff(s);
      OneWord(s);
    }
  }

  lemma TrimmedStart(s: string)
    ensures TrimStart(TrimStart(s)) == TrimStart(s)
  {
  }

  // ---------------------------------------------------------------- decimal numbers

  /** The value of a sequence of digits. */
  function Value(digits: string): int {
    if digits == "" then 0 else 10 * Value(digits[..|digits| - 1]) + (digits[|digits| - 1] as int - '0' as int)
  }

  lemma ValueOf(digits: string)
    requires digits != ""
    ensures Value(digits) == 10 * Value(digits[..|digits| - 1]) + (digits[|digits| - 1] as int - '0' as int)
    ensures Value("") == 0
  {
  }

  /** A number is written with its digits and no leading zero. */
  lemma {:induction false} DecimalIs(n: nat)
    ensures (forall i :: 0 <= i < |Decimal(n)| ==> '0' <= Decimal(n)[i] <= '9')
    ensures Value(Decimal(n)) == n && (Decimal(n)[0] == '0' <==> n == 0)
  {
    var d := Decimal(n);
    if n < 10 {
      assert d[..0] == "";
    } else {
      DecimalIs(n / 10);
      hide Value;
      assert d[..|d| - 1] == Decimal(n / 10) && d[0] == Decimal(n / 10)[0];
    }
    ValueOf(d);
  }
}
