/** Text handling of the category suggestion service: `normalize_text`
    (lower-case, trim, punctuation to spaces, runs of white space to one
    space) and `extract_keywords` (split, drop short words and the nine
    stop words). Character classes are ASCII: `\w` is a letter, a digit or
    `_`, `\s` and `strip()` use Python's white space. */
module SuggestionText {
  import opened Common

  predicate WordChar(c: char)
  {
    ('a' <= c <= 'z') || ('A' <= c <= 'Z') || ('0' <= c <= '9') || c == '_'
  }

  /** str.strip(): white space removed from both ends. */
  function Strip(s: string): (r: string)
    ensures |r| <= |s|
    decreases |s|
  {
    if s == [] then []
    else if PySpace(s[0]) then Strip(s[1..])
    else if PySpace(s[|s| - 1]) then Strip(s[..|s| - 1])
    else s
  }

  /** re.sub(r'[^\w\s]', ' ', s) */
  function ReplacePunctuation(s: string): (r: string)
    ensures |r| == |s|
    ensures forall i :: 0 <= i < |s| ==> r[i] == (if WordChar(s[i]) || PySpace(s[i]) then s[i] else ' ')
  {
    seq(|s|, i requires 0 <= i < |s| => if WordChar(s[i]) || PySpace(s[i]) then s[i] else ' ')
  }

  /** Leading white space removed. */
  function DropSpaces(s: string): (r: string)
    ensures |r| <= |s|
    ensures r == [] || !PySpace(r[0])
    ensures forall i :: 0 <= i < |r| ==> r[i] in s
  {
    if s != [] && PySpace(s[0]) then DropSpaces(s[1..]) else s
  }

  /** re.sub(r'\s+', ' ', s) */
  function CollapseSpaces(s: string): (r: string)
    decreases |s|
  {
    if s == [] then []
    else if PySpace(s[0]) then [' '] + CollapseSpaces(DropSpaces(s[1..]))
    else [s[0]] + CollapseSpaces(s[1..])
  }

  /** normalize_text */
  function Normalize(text: string): string
  {
    if text == "" then "" else CollapseSpaces(ReplacePunctuation(Strip(Lower(text))))
  }

  predicate Blank(s: string)
  {
    forall i :: 0 <= i < |s| ==> PySpace(s[i])
  }

  /** The normal form: lower case, only word characters and spaces, and
      never two white space characters next to each other. */
  predicate NormalForm(s: string)
  {
    (forall i :: 0 <= i < |s| ==> (WordChar(s[i]) && !('A' <= s[i] <= 'Z')) || s[i] == ' ')
    && (forall i :: 0 <= i < |s| - 1 ==> !(s[i] == ' ' && s[i + 1] == ' '))
  }

  lemma {:induction false} CollapseShape(s: string)
    requires forall i :: 0 <= i < |s| ==> (WordChar(s[i]) && !('A' <= s[i] <= 'Z')) || PySpace(s[i])
    ensures NormalForm(CollapseSpaces(s))
    ensures |CollapseSpaces(s)| > 0 <==> |s| > 0
    ensures |CollapseSpaces(s)| > 0 && s[0] != ' ' && !PySpace(s[0]) ==> CollapseSpaces(s)[0] == s[0]
    ensures |CollapseSpaces(s)| > 0 && PySpace(s[0]) ==> CollapseSpaces(s)[0] == ' '
    decreases |s|
  {
    if s != [] {
      if PySpace(s[0]) {
        var t := DropSpaces(s[1..]);
        CollapseShape(t);
        var r := CollapseSpaces(t);
        assert t != [] ==> !PySpace(t[0]);
        assert [' '] + r == CollapseSpaces(s);
      } else {
        CollapseShape(s[1..]);
        var r := CollapseSpaces(s[1..]);
        assert [s[0]] + r == CollapseSpaces(s);
      }
    }
  }

  lemma {:induction false} StripBlank(s: string)
    ensures Strip(s) == [] <==> Blank(s)
    ensures Strip(s) != [] ==> !PySpace(Strip(s)[0]) && !PySpace(Strip(s)[|Strip(s)| - 1])
    ensures forall i :: 0 <= i < |Strip(s)| ==> Strip(s)[i] in s
    decreases |s|
  {
    if s == [] {
    } else if PySpace(s[0]) {
      StripBlank(s[1..]);
      if Blank(s[1..]) {
        assert Blank(s) by {
          forall i | 0 <= i < |s| ensures PySpace(s[i]) {
            if i > 0 { assert s[i] == s[1..][i - 1]; }
          }
        }
      } else {
        var k :| 0 <= k < |s[1..]| && !PySpace(s[1..][k]);
        assert !PySpace(s[k + 1]);
      }
    } else if PySpace(s[|s| - 1]) {
      StripBlank(s[..|s| - 1]);
      assert !Blank(s[..|s| - 1]) by { assert !PySpace(s[..|s| - 1][0]); }
    }
  }

  /** Normalized text is in normal form. */
  lemma NormalizeShape(text: string)
    ensures NormalForm(Normalize(text))
  {
    if text != "" {
      var t := ReplacePunctuation(Strip(Lower(text)));
      StripBlank(Lower(text));
      CollapseShape(t);
    }
  }

  /** The result is empty exactly when the note is empty or all white space. */
  lemma NormalizeEmpty(text: string)
    ensures Normalize(text) == "" <==> Blank(text)
  {
    if text != "" {
      var l := Lower(text);
      var t := ReplacePunctuation(Strip(l));
      StripBlank(l);
      CollapseShape(t);
      assert Blank(l) <==> Blank(text) by {
        assert forall i :: 0 <= i < |text| ==> (PySpace(l[i]) <==> PySpace(text[i]));
      }
    }
  }

  /** Trimming comes before punctuation is replaced, so punctuation at the
      end leaves a space behind, and normalizing twice trims it. */
  lemma NormalizeTrailingPunctuation()
    ensures Normalize("Coffee!") == "coffee "
    ensures Normalize(Normalize("Coffee!")) == "coffee"
  {
    NormalizeCoffee();
    NormalizeCoffeeSpace();
  }

  lemma NormalizeCoffee()
    ensures Normalize("Coffee!") == "coffee "
  {
    assert Lower("Coffee!") == "coffee!";
    assert Strip("coffee!") == "coffee!";
    assert ReplacePunctuation("coffee!") == "coffee ";
    CollapseWord("coffee", " ");
    assert "coffee" + " " == "coffee ";
    assert CollapseSpaces(" ") == " " by { assert DropSpaces("") == ""; }
  }

  lemma NormalizeCoffeeSpace()
    ensures Normalize("coffee ") == "coffee"
  {
    assert Lower("coffee ") == "coffee ";
    assert Strip("coffee ") == "coffee";
    assert ReplacePunctuation("coffee") == "coffee";
    CollapseWord("coffee", "");
    assert "coffee" + "" == "coffee";
  }

  /** A run without white space passes through unchanged. */
  lemma {:induction false} CollapseWord(w: string, rest: string)
    requires forall i :: 0 <= i < |w| ==> !PySpace(w[i])
    ensures CollapseSpaces(w + rest) == w + CollapseSpaces(rest)
  {
    if w != [] {
      assert (w + rest)[1..] == w[1..] + rest;
      CollapseWord(w[1..], rest);
    } else {
      assert w + rest == rest;
    }
  }

  /** A note of punctuation alone normalizes to one space; one of spaces
      alone to nothing. */
  lemma NormalizePunctuationOnly()
    ensures Normalize("!!!") == " "
    ensures Normalize("  ") == ""
  {
    assert Lower("!!!") == "!!!";
    assert Strip("!!!") == "!!!";
    assert ReplacePunctuation("!!!") == "   ";
    assert DropSpaces("  ") == "";
    assert CollapseSpaces("   ") == " ";
    assert Lower("  ") == "  ";
    assert Strip("  ") == "";
  }

  // ---------------------------------------------------------------------
  // extract_keywords

  /** Length of the leading run of non-white-space characters. */
  function WordLength(s: string): (n: nat)
    ensures n <= |s|
    ensures forall i :: 0 <= i < n ==> !PySpace(s[i])
    ensures n < |s| ==> PySpace(s[n])
  {
    if s == [] || PySpace(s[0]) then 0 else 1 + WordLength(s[1..])
  }

  /** str.split(): the maximal runs of non-white-space characters. */
  function Words(s: string): (ws: seq<string>)
    decreases |s|
  {
    if s == [] then []
    else if PySpace(s[0]) then Words(s[1..])
    else [s[..WordLength(s)]] + Words(s[WordLength(s)..])
  }

  lemma {:induction false} WordsAreWords(s: string)
    ensures forall k :: 0 <= k < |Words(s)| ==> |Words(s)[k]| > 0 && Contains(s, Words(s)[k])
    ensures forall k, i :: 0 <= k < |Words(s)| && 0 <= i < |Words(s)[k]| ==> !PySpace(Words(s)[k][i])
    decreases |s|
  {
    if s != [] {
      if PySpace(s[0]) {
        WordsAreWords(s[1..]);
        forall k | 0 <= k < |Words(s)| ensures Contains(s, Words(s)[k]) {
          ContainsInSuffix(s, 1, Words(s)[k]);
        }
      } else {
        var n := WordLength(s);
        WordsAreWords(s[n..]);
        assert OccursAt(s, s[..n], 0);
        forall k | 1 <= k < |Words(s)| ensures Contains(s, Words(s)[k]) {
          assert Words(s)[k] == Words(s[n..])[k - 1];
          ContainsInSuffix(s, n, Words(s)[k]);
        }
      }
    }
  }

  lemma WordLengthStops(a: string, b: string)
    ensures WordLength(a + [' '] + b) == WordLength(a)
    decreases |a|
  {
    if a != [] && !PySpace(a[0]) {
      assert (a + [' '] + b)[1..] == a[1..] + [' '] + b;
      WordLengthStops(a[1..], b);
    }
  }

  /** Splitting at a space splits the word list. */
  lemma {:induction false} WordsSplit(a: string, b: string)
    ensures Words(a + [' '] + b) == Words(a) + Words(b)
    decreases |a|
  {
    var s := a + [' '] + b;
    if a == [] {
      assert s[1..] == b;
    } else if PySpace(a[0]) {
      assert s[1..] == a[1..] + [' '] + b;
      WordsSplit(a[1..], b);
    } else {
      var n := WordLength(a);
      WordLengthStops(a, b);
      assert s[..n] == a[..n];
      assert s[n..] == a[n..] + [' '] + b;
      WordsSplit(a[n..], b);
    }
  }

  const StopWords: set<string> := {"the", "and", "for", "with", "from", "this", "that", "was", "are"}

  predicate IsKeyword(w: string, minLength: int)
  {
    |w| >= minLength && w !in StopWords
  }

  /** extract_keywords */
  function Keywords(text: string, minLength: int): seq<string>
  {
    Filter(Words(Normalize(text)), w => IsKeyword(w, minLength))
  }

  /** A keyword is a word of the normalized note that is long enough and
      not a stop word, and every such word is a keyword. */
  lemma KeywordsExact(text: string, minLength: int, w: string)
    ensures w in Keywords(text, minLength) <==> w in Words(Normalize(text)) && IsKeyword(w, minLength)
  {
    if w in Words(Normalize(text)) && IsKeyword(w, minLength) {
      FilterKeeps(Words(Normalize(text)), w => IsKeyword(w, minLength), w);
    }
  }

  /** Every keyword occurs in the normalized note, so the pattern stored for
      that note matches it in the keyword stage. */
  lemma KeywordsOccur(text: string, minLength: int, w: string)
    requires w in Keywords(text, minLength)
    ensures |w| > 0 && Contains(Normalize(text), w)
  {
    WordsAreWords(Normalize(text));
  }
}
