/** The words of a text: what is left of it when only its white space may change. */
module WordSplit {
  import opened Text

  /** One more character: a blank ends the last word, anything else continues it or starts a new one. */
  function Grow(words: seq<string>, between: bool, c: char): (grown: seq<string>) {
    if IsSpace(c) then words
    else if between || words == [] then words + [[c]]
    else Front(words) + [Last(words) + [c]]
  }

  predicate Between(s: string) {
    s == "" || IsSpace(Last(s))
  }

  /** The parts between white space, `split(/\s+/)` without its empty ones. */
  function Words(s: string): (words: seq<string>)
    ensures !Between(s) ==> words != []
  {
    if s == "" then [] else Grow(Words(Front(s)), Between(Front(s)), Last(s))
  }

  lemma GrowAfter(a: seq<string>, w: seq<string>, between: bool, c: char)
    requires between || w != []
    ensures Grow(a + w, between, c) == a + Grow(w, between, c)
  {
  }

  /** Where white space or a text's edge separates two texts, no word runs on from one into the other. */
  lemma {:induction false} WordsConcat(a: string, b: string)
    requires Between(a) || b == "" || IsSpace(b[0])
    ensures Words(a + b) == Words(a) + Words(b)
    decreases |b|
  {
    if b == "" {
      assert a + b == a;
    } else {
      assert Front(a + b) == a + Front(b) && Last(a + b) == Last(b);
      WordsConcat(a, Front(b));
      if |b| == 1 {
        assert a + Front(b) == a;
      } else {
        assert Last(a + Front(b)) == Last(Front(b));
        assert Between(a + Front(b)) == Between(Front(b));
      }
      if !IsSpace(Last(b)) {
        GrowAfter(Words(a), Words(Front(b)), Between(Front(b)), Last(b));
      }
    }
  }

  lemma WordsAround(a: string, b: string)
    ensures Words(a + " " + b) == Words(a) + Words(b)
  {
    WordsConcat(a, " ");
    WordsConcat(a + " ", b);
    assert Words(" ") == Words("") == [];
    assert Last(a + " ") == ' ';
  }

  predicate IsWord(s: string) {
    s != "" && NoSpace(s)
  }

  lemma {:induction false} WordsOfWord(w: string)
    requires IsWord(w)
    ensures Words(w) == [w]
  {
    if |w| > 1 {
      WordsOfWord(Front(w));
      assert Front(w) + [Last(w)] == w;
      assert Last(Front(w)) == w[|w| - 2];
    } else {
      assert [w[0]] == w;
      assert Words("") == [];
    }
  }
}
