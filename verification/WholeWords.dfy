/** The whole-word search for agentic terms (storage/governance_policy.py): a pattern between word
    boundaries, over texts joined by spaces. Which characters are word characters is a parameter. */
module WholeWords {

  type Alphabet = char -> bool

  /** Letters are word characters and a space is not. */
  ghost predicate IsAlphabet(word: Alphabet) {
    (forall c | 'a' <= c <= 'z' :: word(c)) && !word(' ')
  }

  const TERMS: set<string> := {"agent", "agents", "agentic", "tool", "tools"}

  const STEM := "orchestrat"

  /** What the pattern between the boundaries matches. */
  predicate IsTerm(w: string, word: Alphabet) {
    w in TERMS || (|w| > |STEM| && w[..|STEM|] == STEM && forall i :: |STEM| <= i < |w| ==> word(w[i]))
  }

  /** A word boundary: a word character on exactly one side. */
  predicate Boundary(text: string, i: nat, word: Alphabet)
    requires i <= |text|
  {
    (i > 0 && word(text[i - 1])) != (i < |text| && word(text[i]))
  }

  predicate MatchesAt(text: string, i: nat, j: nat, word: Alphabet) {
    i <= j <= |text| && IsTerm(text[i..j], word) && Boundary(text, i, word) && Boundary(text, j, word)
  }

  predicate Found(text: string, word: Alphabet) {
    exists i: nat, j: nat | i <= j <= |text| :: MatchesAt(text, i, j, word)
  }

  lemma TermIsWordy(w: string, word: Alphabet)
    requires IsAlphabet(word) && IsTerm(w, word)
    ensures w != "" && forall i :: 0 <= i < |w| ==> word(w[i])
  {
    if w !in TERMS {
      forall i | 0 <= i < |w|
        ensures word(w[i])
      {
        if i < |STEM| { assert w[i] == w[..|STEM|][i] == STEM[i]; }
      }
    }
  }

  lemma MatchInLeft(a: string, b: string, i: nat, j: nat, word: Alphabet)
    requires IsAlphabet(word) && i <= j <= |a|
    ensures MatchesAt(a, i, j, word) <==> MatchesAt(a + " " + b, i, j, word)
  {
    var text := a + " " + b;
    assert text[i..j] == a[i..j];
    assert text[|a|] == ' ';
    assert forall k :: 0 <= k < |a| ==> text[k] == a[k];
  }

  lemma BoundaryInRight(a: string, b: string, i: nat, word: Alphabet)
    requires IsAlphabet(word) && i <= |b|
    ensures Boundary(b, i, word) == Boundary(a + " " + b, |a| + 1 + i, word)
  {
    var text, n := a + " " + b, |a| + 1;
    assert text[|a|] == ' ';
    if i < |b| { assert text[n + i] == b[i]; }
    if i > 0 { assert text[n + i - 1] == b[i - 1]; }
  }

  lemma MatchInRight(a: string, b: string, i: nat, j: nat, word: Alphabet)
    requires IsAlphabet(word) && i <= j <= |b|
    ensures MatchesAt(b, i, j, word) <==> MatchesAt(a + " " + b, |a| + 1 + i, |a| + 1 + j, word)
  {
    hide IsTerm, Boundary, IsAlphabet;
    var text, n := a + " " + b, |a| + 1;
    assert text[n..] == b;
    assert text[n + i..n + j] == text[n..][i..j];
    BoundaryInRight(a, b, i, word);
    BoundaryInRight(a, b, j, word);
  }

  /** A term cannot straddle the space: joining two texts finds exactly what either holds. */
  lemma FoundInJoin(a: string, b: string, word: Alphabet)
    requires IsAlphabet(word)
    ensures Found(a + " " + b, word) <==> Found(a, word) || Found(b, word)
  {
    hide MatchesAt;
    var text := a + " " + b;
    if i: nat, j: nat :| MatchesAt(text, i, j, word) {
      MatchMissesSpace(a, b, i, j, word);
      if j <= |a| {
        MatchInLeft(a, b, i, j, word);
      } else {
        MatchInRight(a, b, i - |a| - 1, j - |a| - 1, word);
      }
    }
    if i: nat, j: nat :| MatchesAt(a, i, j, word) {
      MatchIsInside(a, i, j, word);
      MatchInLeft(a, b, i, j, word);
    }
    if i: nat, j: nat :| MatchesAt(b, i, j, word) {
      MatchIsInside(b, i, j, word);
      MatchInRight(a, b, i, j, word);
    }
  }

  lemma MatchIsInside(text: string, i: nat, j: nat, word: Alphabet)
    requires MatchesAt(text, i, j, word)
    ensures i <= j <= |text|
  {
  }

  lemma MatchMissesSpace(a: string, b: string, i: nat, j: nat, word: Alphabet)
    requires IsAlphabet(word) && MatchesAt(a + " " + b, i, j, word)
    ensures i <= j <= |a| + 1 + |b| && (j <= |a| || i > |a|)
  {
    var text := a + " " + b;
    TermIsWordy(text[i..j], word);
    assert text[|a|] == ' ';
    assert forall k :: i <= k < j ==> text[k] == text[i..j][k - i];
  }

  /** Python's `" ".join`. */
  function Join(texts: seq<string>): string {
    if texts == [] then ""
    else if |texts| == 1 then texts[0]
    else texts[0] + " " + Join(texts[1..])
  }

  lemma NothingInNothing(word: Alphabet)
    requires IsAlphabet(word)
    ensures !Found("", word)
  {
    assert !IsTerm("", word);
    assert forall i: nat, j: nat :: i <= j <= |""| ==> ""[i..j] == "";
  }

  /** So a search over joined texts depends only on which texts there are: order, repetition and empty
      texts do not matter. */
  lemma {:induction false} FoundInJoined(texts: seq<string>, word: Alphabet)
    requires IsAlphabet(word)
    ensures Found(Join(texts), word) <==> exists t <- texts :: Found(t, word)
  {
    hide Found;
    if texts == [] {
      NothingInNothing(word);
    } else if |texts| == 1 {
      assert texts == [texts[0]];
    } else {
      FoundInJoin(texts[0], Join(texts[1..]), word);
      FoundInJoined(texts[1..], word);
      assert texts == [texts[0]] + texts[1..];
    }
  }

  lemma SameTextsSameFinding(a: seq<string>, b: seq<string>, word: Alphabet)
    requires IsAlphabet(word) && forall t :: t != "" ==> (t in a <==> t in b)
    ensures Found(Join(a), word) <==> Found(Join(b), word)
  {
    hide Found, Join;
    FoundInJoined(a, word);
    FoundInJoined(b, word);
    NothingInNothing(word);
  }

  // ----- lower case -----

  function Lower(text: string, lower: char -> char): (r: string)
    ensures |r| == |text| && forall i :: 0 <= i < |text| ==> r[i] == lower(text[i])
  {
    seq(|text|, i requires 0 <= i < |text| => lower(text[i]))
  }

  function LowerAll(texts: seq<string>, lower: char -> char): (r: seq<string>)
    ensures |r| == |texts| && forall i :: 0 <= i < |texts| ==> r[i] == Lower(texts[i], lower)
  {
    seq(|texts|, i requires 0 <= i < |texts| => Lower(texts[i], lower))
  }

  lemma {:induction false} LowerOfJoin(texts: seq<string>, lower: char -> char)
    requires lower(' ') == ' '
    ensures Lower(Join(texts), lower) == Join(LowerAll(texts, lower))
  {
    if |texts| >= 2 {
      LowerOfJoin(texts[1..], lower);
      assert LowerAll(texts, lower)[1..] == LowerAll(texts[1..], lower);
      assert Lower(texts[0] + " " + Join(texts[1..]), lower)
             == Lower(texts[0], lower) + " " + Lower(Join(texts[1..]), lower);
    }
  }

  /** Lower-casing character by character commutes with joining, so the finding still depends only on
      which texts there are. */
  lemma SameTextsSameFindingInLowerCase(a: seq<string>, b: seq<string>, lower: char -> char, word: Alphabet)
    requires IsAlphabet(word) && lower(' ') == ' ' && forall t :: t != "" ==> (t in a <==> t in b)
    ensures Found(Lower(Join(a), lower), word) <==> Found(Lower(Join(b), lower), word)
  {
    LowerOfJoin(a, lower);
    LowerOfJoin(b, lower);
    var p, q := LowerAll(a, lower), LowerAll(b, lower);
    forall t | t != ""
      ensures t in p <==> t in q
    {
      LoweredMembers(a, b, t, lower);
      LoweredMembers(b, a, t, lower);
    }
    SameTextsSameFinding(p, q, word);
  }

  lemma LoweredMembers(a: seq<string>, b: seq<string>, t: string, lower: char -> char)
    requires t != "" && forall u :: u != "" && u in a ==> u in b
    ensures t in LowerAll(a, lower) ==> t in LowerAll(b, lower)
  {
    if t in LowerAll(a, lower) {
      var i :| 0 <= i < |a| && LowerAll(a, lower)[i] == t;
      assert a[i] != "" && a[i] in b;
      var j :| 0 <= j < |b| && b[j] == a[i];
      assert LowerAll(b, lower)[j] == t;
    }
  }

  lemma FoundInLowerJoined(texts: seq<string>, lower: char -> char, word: Alphabet)
    requires IsAlphabet(word) && lower(' ') == ' '
    ensures Found(Lower(Join(texts), lower), word) <==> exists t <- texts :: Found(Lower(t, lower), word)
  {
    hide Found, Join, Lower;
    LowerOfJoin(texts, lower);
    var lowered := LowerAll(texts, lower);
    FoundInJoined(lowered, word);
    if t :| t in lowered && Found(t, word) {
      var i :| 0 <= i < |lowered| && lowered[i] == t;
      assert texts[i] in texts;
    }
    if t :| t in texts && Found(Lower(t, lower), word) {
      var i :| 0 <= i < |texts| && texts[i] == t;
      assert lowered[i] in lowered;
    }
  }

  /** More texts add only their own matches. */
  lemma FoundInMoreTexts(a: seq<string>, b: seq<string>, lower: char -> char, word: Alphabet)
    requires IsAlphabet(word) && lower(' ') == ' '
    ensures Found(Lower(Join(a + b), lower), word)
            <==> Found(Lower(Join(a), lower), word) || exists t <- b :: Found(Lower(t, lower), word)
  {
    hide Found, Join, Lower;
    FoundInLowerJoined(a + b, lower, word);
    FoundInLowerJoined(a, lower, word);
  }
}
