/** When composed prose is silent: the words and joins the deterministic floor writes with. */
module Phrasing {
  import opened Gate
  import T = Templates

  /** The class of numeric characters covers the decimal digits and none of the letters and
      marks that prose is made of. */
  ghost predicate PlainLaw(law: Law) {
    && (forall c :: '0' <= c <= '9' ==> law.numeric(c))
    && (forall c :: T.Alpha(c) ==> !law.numeric(c))
    && !law.numeric(' ') && !law.numeric('.') && !law.numeric(':') && !law.numeric('!')
  }

  /** A word that spells no quantity. */
  predicate QuietWord(law: Law, w: string) {
    w != "" && (forall i :: 0 <= i < |w| ==> T.Alpha(w[i])) && Lower(w) !in law.lexicon
  }

  lemma LowerFixed(w: string)
    requires forall i :: 0 <= i < |w| ==> 'a' <= w[i] <= 'z'
    ensures Lower(w) == w
  {
  }

  lemma {:induction false} OneWord(w: string)
    requires w != "" && forall i :: 0 <= i < |w| ==> T.Alpha(w[i])
    ensures T.AlphaRun(w) == |w| && T.Words(w) == [w]
  {
    if |w| > 1 {
      OneWord(w[1..]);
    }
    assert w[|w|..] == [] && w[..|w|] == w;
  }

  lemma WordIsSilent(law: Law, w: string)
    requires PlainLaw(law) && QuietWord(law, w)
    ensures Silent(law, w)
  {
    OneWord(w);
  }

  lemma SilentMark(law: Law, c: char, s: string)
    requires !T.Alpha(c) && !law.numeric(c) && c != '{' && c != '}'
    ensures Silent(law, [c] + s) <==> Silent(law, s)
  {
    var all := [c] + s;
    assert all[1..] == s;
    assert T.Words(all) == T.Words(s);
    assert forall d :: d in all <==> d == c || d in s;
  }

  /** Across a break that starts with a non-letter, silence is silence on both sides. */
  lemma SilentSplit(law: Law, a: string, b: string)
    requires b != [] && !T.Alpha(b[0])
    ensures Silent(law, a + b) <==> Silent(law, a) && Silent(law, b)
  {
    T.WordsSplit(a, b);
    CharsSplit(law, a, b);
    SpellsSplit(law, a, b);
  }

  lemma CharsSplit(law: Law, a: string, b: string)
    ensures HasNumeric(law, a + b) <==> HasNumeric(law, a) || HasNumeric(law, b)
    ensures Unbraced(a + b) <==> Unbraced(a) && Unbraced(b)
  {
    assert forall d :: d in a + b <==> d in a || d in b;
  }

  lemma SpellsSplit(law: Law, a: string, b: string)
    requires T.Words(a + b) == T.Words(a) + T.Words(b)
    ensures SpellsNumber(law, a + b) <==> SpellsNumber(law, a) || SpellsNumber(law, b)
  {
    assert forall w :: w in T.Words(a + b) <==> w in T.Words(a) || w in T.Words(b);
  }

  /** Silent prose that can follow a word: it starts with a non-letter. */
  predicate Joint(law: Law, p: string) { p != "" && !T.Alpha(p[0]) && Silent(law, p) }

  /** Words a lexicon leaves free, in lower case. */
  predicate Free(law: Law, w: string) {
    w != "" && (forall i :: 0 <= i < |w| ==> 'a' <= w[i] <= 'z') && w !in law.lexicon
  }

  lemma FreeIsQuiet(law: Law, w: string)
    requires Free(law, w)
    ensures QuietWord(law, w)
  {
    LowerFixed(w);
  }

  lemma JointWord(law: Law, w: string)
    requires PlainLaw(law) && Free(law, w)
    ensures Joint(law, " " + w)
  {
    FreeIsQuiet(law, w);
    WordIsSilent(law, w);
    SilentMark(law, ' ', w);
  }

  lemma JointConcat(law: Law, p: string, q: string)
    requires Joint(law, p) && Joint(law, q)
    ensures Joint(law, p + q)
  {
    SilentSplit(law, p, q);
  }

  lemma JointWords2(law: Law, v: string, w: string)
    requires PlainLaw(law) && Free(law, v) && Free(law, w)
    ensures Joint(law, " " + v + (" " + w))
  {
    JointWord(law, v);
    JointWord(law, w);
    JointConcat(law, " " + v, " " + w);
  }

  lemma JointWords3(law: Law, u: string, v: string, w: string)
    requires PlainLaw(law) && Free(law, u) && Free(law, v) && Free(law, w)
    ensures Joint(law, " " + u + (" " + v + (" " + w)))
  {
    JointWord(law, u);
    JointWords2(law, v, w);
    JointConcat(law, " " + u, " " + v + (" " + w));
  }

  lemma JointStops(law: Law)
    requires PlainLaw(law)
    ensures Silent(law, "") && Joint(law, " ") && Joint(law, ".") && Joint(law, ": ")
  {
    assert Silent(law, "");
    SilentMark(law, '.', "");
    SilentMark(law, ' ', "");
    SilentMark(law, ':', " ");
    assert ['.'] + "" == "." && [' '] + "" == " " && [':'] + " " == ": ";
  }

  /** A noun between a space and what follows is all that decides. */
  lemma NounThen(law: Law, noun: string, end: string)
    requires PlainLaw(law) && Joint(law, end)
    ensures Silent(law, " " + (noun + end)) <==> Silent(law, noun)
  {
    SilentSplit(law, noun, end);
    SilentMark(law, ' ', noun + end);
  }

  /** "No", "The" and the like in front of a noun. */
  lemma WordThenNoun(law: Law, w: string, noun: string, end: string)
    requires PlainLaw(law) && QuietWord(law, w) && Joint(law, end)
    ensures Silent(law, w + (" " + (noun + end))) <==> Silent(law, noun)
  {
    NounThen(law, noun, end);
    WordIsSilent(law, w);
    SilentSplit(law, w, " " + (noun + end));
  }

  /** A capitalised word in front of silent prose. */
  lemma WordThen(law: Law, w: string, end: string)
    requires PlainLaw(law) && QuietWord(law, w) && Joint(law, end)
    ensures Silent(law, w + end)
  {
    WordIsSilent(law, w);
    SilentSplit(law, w, end);
  }
}
