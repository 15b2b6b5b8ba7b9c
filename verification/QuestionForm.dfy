/** The normal form two askings of one question share. */
module QuestionForm {
  import opened CacheLibrary

  function Strip(s: string): string {
    if s == [] then []
    else if IsSpace(s[0]) then Strip(s[1..])
    else if IsSpace(s[|s| - 1]) then Strip(s[..|s| - 1])
    else s
  }

  /** Every run of white space becomes one space. */
  function Collapse(s: string): string {
    if s == [] then []
    else if !IsSpace(s[0]) then [s[0]] + Collapse(s[1..])
    else if |s| > 1 && IsSpace(s[1]) then Collapse(s[1..])
    else [' '] + Collapse(s[1..])
  }

  function Normalise(lib: Library, question: string): string {
    Collapse(lib.lower(Strip(question)))
  }

  function QuestionHash(lib: Library, question: string): string {
    lib.digest(Normalise(lib, question))
  }

  /** The words of a text: its maximal runs without white space. `word` is the word being read. */
  function WordsFrom(word: string, s: string): seq<string>
    decreases |s|
  {
    if s == [] then (if word == [] then [] else [word])
    else if IsSpace(s[0]) then (if word == [] then [] else [word]) + WordsFrom([], s[1..])
    else WordsFrom(word + [s[0]], s[1..])
  }

  function Words(s: string): seq<string> { WordsFrom([], s) }

  function LowerWords(lib: Library, words: seq<string>): seq<string> {
    if words == [] then [] else [lib.lower(words[0])] + LowerWords(lib, words[1..])
  }

  /** Words joined by single spaces. */
  function Spaced(words: seq<string>): string {
    if words == [] then []
    else if |words| == 1 then words[0]
    else words[0] + [' '] + Spaced(words[1..])
  }

  lemma {:induction false} LowerWordsAppend(lib: Library, a: seq<string>, b: seq<string>)
    ensures LowerWords(lib, a + b) == LowerWords(lib, a) + LowerWords(lib, b)
    decreases |a|
  {
    if a == [] {
      assert a + b == b;
    } else {
      assert (a + b)[1..] == a[1..] + b;
      LowerWordsAppend(lib, a[1..], b);
    }
  }

  function OneWord(w: string): seq<string> { if w == [] then [] else [w] }

  lemma {:induction false} SolidIsOneWord(word: string, s: string)
    requires Solid(s)
    ensures WordsFrom(word, s) == OneWord(word + s)
    decreases |s|
  {
    hide IsSpace;
    if s == [] {
      assert word + s == word;
    } else {
      SolidIsOneWord(word + [s[0]], s[1..]);
      assert word + [s[0]] + s[1..] == word + s;
    }
  }

  lemma {:induction false} FirstWord(word: string, a: string, c: char, b: string)
    requires Solid(a) && IsSpace(c)
    ensures WordsFrom(word, a + [c] + b) == OneWord(word + a) + WordsFrom([], b)
    decreases |a|
  {
    hide IsSpace;
    var s := a + [c] + b;
    if a == [] {
      assert s[0] == c && s[1..] == b && word + a == word;
    } else {
      assert s[0] == a[0] && s[1..] == a[1..] + [c] + b && a[0] in a;
      FirstWord(word + [a[0]], a[1..], c, b);
      assert word + [a[0]] + a[1..] == word + a;
    }
  }

  /** A text is solid, or a solid part followed by white space and the rest. */
  lemma {:induction false} AtFirstSpace(s: string) returns (a: string, b: string)
    requires !Solid(s)
    ensures |a| < |s| && IsSpace(s[|a|]) && Solid(a) && s == a + [s[|a|]] + b && |b| < |s|
    decreases |s|
  {
    hide IsSpace;
    if IsSpace(s[0]) {
      a, b := [], s[1..];
    } else {
      assert exists c :: c in s[1..] && IsSpace(c) by {
        var c :| c in s && IsSpace(c);
        assert s == [s[0]] + s[1..];
      }
      a, b := AtFirstSpace(s[1..]);
      assert s == [s[0]] + s[1..];
      a := [s[0]] + a;
    }
  }

  /** Lower-casing a text lower-cases its words. */
  lemma {:induction false} WordsOfLower(lib: Library, s: string)
    requires Lowers(lib)
    ensures Words(lib.lower(s)) == LowerWords(lib, Words(s))
    decreases |s|
  {
    hide IsSpace;
    if Solid(s) {
      SolidIsOneWord([], s);
      SolidIsOneWord([], lib.lower(s));
      assert [] + s == s && [] + lib.lower(s) == lib.lower(s);
    } else {
      var a, b := AtFirstSpace(s);
      var c := s[|a|];
      FirstWord([], a, c, b);
      FirstWord([], lib.lower(a), c, lib.lower(b));
      assert [] + a == a && [] + lib.lower(a) == lib.lower(a);
      WordsOfLower(lib, b);
      LowerWordsAppend(lib, OneWord(a), Words(b));
    }
  }

  lemma {:induction false} TrailingSpaceAddsNoWord(word: string, s: string, c: char)
    requires IsSpace(c)
    ensures WordsFrom(word, s + [c]) == WordsFrom(word, s)
    decreases |s|
  {
    hide IsSpace;
    if s == [] {
      assert s + [c] == [c] && [c][1..] == [];
    } else {
      assert (s + [c])[0] == s[0] && (s + [c])[1..] == s[1..] + [c];
      TrailingSpaceAddsNoWord(if IsSpace(s[0]) then [] else word + [s[0]], s[1..], c);
    }
  }

  lemma {:induction false} WordsOfStrip(s: string)
    ensures Words(Strip(s)) == Words(s)
    decreases |s|
  {
    hide IsSpace;
    if s != [] {
      if IsSpace(s[0]) {
        WordsOfStrip(s[1..]);
      } else if IsSpace(s[|s| - 1]) {
        WordsOfStrip(s[..|s| - 1]);
        TrailingSpaceAddsNoWord([], s[..|s| - 1], s[|s| - 1]);
        assert s == s[..|s| - 1] + [s[|s| - 1]];
      }
    }
  }

  lemma {:induction false} SecondSpaceAddsNoWord(word: string, s: string)
    requires |s| > 1 && IsSpace(s[0]) && IsSpace(s[1])
    ensures WordsFrom(word, s) == WordsFrom(word, s[1..])
  {
    hide IsSpace;
    var rest := s[1..];
    assert rest[0] == s[1];
    assert WordsFrom([], rest) == WordsFrom([], rest[1..]);
  }

  lemma {:induction false} WordsOfCollapse(word: string, s: string)
    ensures WordsFrom(word, Collapse(s)) == WordsFrom(word, s)
    decreases |s|
  {
    assert IsSpace(' ');
    hide IsSpace;
    if s != [] {
      var c, rest := Collapse(s), s[1..];
      if !IsSpace(s[0]) {
        assert c[0] == s[0] && c[1..] == Collapse(rest);
        WordsOfCollapse(word + [s[0]], rest);
      } else if |s| > 1 && IsSpace(s[1]) {
        WordsOfCollapse(word, rest);
        SecondSpaceAddsNoWord(word, s);
      } else {
        assert c[0] == ' ' && c[1..] == Collapse(rest);
        WordsOfCollapse([], rest);
      }
    }
  }

  predicate Trimmed(s: string) {
    s == [] || (!IsSpace(s[0]) && !IsSpace(s[|s| - 1]))
  }

  lemma {:induction false} StripIsTrimmed(s: string)
    ensures Trimmed(Strip(s))
    decreases |s|
  {
    hide IsSpace;
    if s != [] {
      if IsSpace(s[0]) {
        StripIsTrimmed(s[1..]);
      } else if IsSpace(s[|s| - 1]) {
        StripIsTrimmed(s[..|s| - 1]);
      }
    }
  }

  lemma {:induction false} LowerStartsSolid(lib: Library, s: string)
    requires Lowers(lib) && s != [] && !IsSpace(s[0])
    ensures lib.lower(s) != [] && !IsSpace(lib.lower(s)[0])
  {
    hide IsSpace;
    var low := lib.lower(s);
    if Solid(s) {
      assert low != [] && low[0] in low;
    } else {
      var a, b := AtFirstSpace(s);
      var word := lib.lower(a);
      assert low == word + [s[|a|]] + lib.lower(b);
      assert word != [] && word[0] in word;
    }
  }

  lemma {:induction false} LowerEndsSolid(lib: Library, s: string)
    requires Lowers(lib) && s != [] && !IsSpace(s[|s| - 1])
    ensures lib.lower(s) != [] && !IsSpace(lib.lower(s)[|lib.lower(s)| - 1])
    decreases |s|
  {
    hide IsSpace;
    var low := lib.lower(s);
    if Solid(s) {
      assert low != [] && low[|low| - 1] in low;
    } else {
      var a, b := AtFirstSpace(s);
      assert b[|b| - 1] == s[|s| - 1];
      LowerEndsSolid(lib, b);
      assert low == lib.lower(a) + [s[|a|]] + lib.lower(b);
    }
  }

  lemma {:induction false} LowerIsTrimmed(lib: Library, s: string)
    requires Lowers(lib) && Trimmed(s)
    ensures Trimmed(lib.lower(s))
  {
    if s != [] {
      LowerStartsSolid(lib, s);
      LowerEndsSolid(lib, s);
    }
  }

  /** A text that ends in no white space collapses to its words joined by single spaces. */
  lemma {:induction false} CollapseJoins(word: string, s: string)
    requires s == [] || !IsSpace(s[|s| - 1])
    requires word == [] && s != [] ==> !IsSpace(s[0])
    ensures word + Collapse(s) == Spaced(WordsFrom(word, s))
    decreases |s|
  {
    hide IsSpace;
    if s == [] {
      assert word + [] == word;
    } else if !IsSpace(s[0]) {
      var longer, rest := word + [s[0]], s[1..];
      assert rest != [] ==> rest[|rest| - 1] == s[|s| - 1];
      CollapseJoins(longer, rest);
      calc {
        word + Collapse(s);
        word + ([s[0]] + Collapse(rest));
        longer + Collapse(rest);
        Spaced(WordsFrom(longer, rest));
      }
    } else {
      SkipSpaces(word, s);
    }
  }

  lemma {:induction false} SkipSpaces(word: string, s: string)
    requires word != [] && s != [] && IsSpace(s[0]) && !IsSpace(s[|s| - 1])
    ensures word + Collapse(s) == Spaced(WordsFrom(word, s))
    decreases |s|, 0
  {
    hide IsSpace;
    assert |s| > 1 && s[1..][0] == s[1] && s[1..][|s| - 2] == s[|s| - 1];
    if IsSpace(s[1]) {
      SkipSpaces(word, s[1..]);
      SecondSpaceAddsNoWord(word, s);
    } else {
      CollapseJoins([], s[1..]);
      var rest := WordsFrom([], s[1..]);
      assert [] + Collapse(s[1..]) == Collapse(s[1..]);
      WordFollows([s[1]], s[2..]);
      assert s[1..][1..] == s[2..];
      assert ([word] + rest)[1..] == rest;
      assert word + Collapse(s) == word + [' '] + Spaced(rest);
    }
  }

  lemma {:induction false} WordFollows(word: string, s: string)
    requires word != []
    ensures WordsFrom(word, s) != []
    decreases |s|
  {
    if s != [] && !IsSpace(s[0]) {
      WordFollows(word + [s[0]], s[1..]);
    }
  }

  /** What the normal form is: the lower-cased words of the question, one space between them. */
  lemma {:induction false} NormaliseJoinsLowerWords(lib: Library, question: string)
    requires Lowers(lib)
    ensures Normalise(lib, question) == Spaced(LowerWords(lib, Words(question)))
    ensures Words(Normalise(lib, question)) == LowerWords(lib, Words(question))
  {
    var t := lib.lower(Strip(question));
    StripIsTrimmed(question);
    LowerIsTrimmed(lib, Strip(question));
    CollapseJoins([], t);
    assert [] + Collapse(t) == Collapse(t);
    WordsOfCollapse([], t);
    WordsOfLower(lib, Strip(question));
    WordsOfStrip(question);
  }

  /** Exactly case and white space are folded: two questions share a normal form iff they have the same
      words, in the same order, up to case. */
  lemma {:induction false} SameNormalFormIffSameWords(lib: Library, a: string, b: string)
    requires Lowers(lib)
    ensures Normalise(lib, a) == Normalise(lib, b) <==> LowerWords(lib, Words(a)) == LowerWords(lib, Words(b))
  {
    NormaliseJoinsLowerWords(lib, a);
    NormaliseJoinsLowerWords(lib, b);
  }

  lemma {:induction false} WordsAreSolid(word: string, s: string)
    requires Solid(word)
    ensures forall w :: w in WordsFrom(word, s) ==> Solid(w)
    decreases |s|
  {
    hide IsSpace;
    if s != [] {
      WordsAreSolid(if IsSpace(s[0]) then [] else word + [s[0]], s[1..]);
    }
  }

  lemma {:induction false} LowerWordsTwice(lib: Library, words: seq<string>)
    requires Lowers(lib) && forall w :: w in words ==> Solid(w)
    ensures LowerWords(lib, LowerWords(lib, words)) == LowerWords(lib, words)
    decreases |words|
  {
    if words != [] {
      assert words[0] in words;
      LowerWordsTwice(lib, words[1..]);
      assert LowerWords(lib, words)[1..] == LowerWords(lib, words[1..]);
    }
  }

  lemma {:induction false} NormaliseIsIdempotent(lib: Library, question: string)
    requires Lowers(lib)
    ensures Normalise(lib, Normalise(lib, question)) == Normalise(lib, question)
  {
    NormaliseJoinsLowerWords(lib, question);
    NormaliseJoinsLowerWords(lib, Normalise(lib, question));
    WordsAreSolid([], question);
    LowerWordsTwice(lib, Words(question));
  }
}
