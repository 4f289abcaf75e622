/**
 The text a listing shows is the line it came from up to letter case, and
 tokenising it again gives the same bytes.
 */
module BasicCanon {
  import opened BasicText
  import opened Decimals
  import opened BasicTokens

  lemma UpperConcat(a: string, b: string)
    ensures Upper(a + b) == Upper(a) + Upper(b)
  {
  }

  lemma UpperSlice(a: string, i: nat, j: nat)
    requires i <= j <= |a|
    ensures Upper(a[i..j]) == Upper(a)[i..j]
  {
  }

  lemma UpperTwice(a: string)
    ensures Upper(Upper(a)) == Upper(a)
  {
  }

  // Case does not matter to what a character is.
  lemma SameClass(a: string, b: string, p: nat)
    requires Upper(a) == Upper(b) && p < |a|
    ensures |a| == |b| && Alnum(a[p]) == Alnum(b[p]) && Digit(a[p]) == Digit(b[p])
    ensures !Letter(a[p]) ==> a[p] == b[p]
  {
    assert Upper(a)[p] == UpperOf(a[p]) && Upper(b)[p] == UpperOf(b[p]);
  }

  lemma SpellingSame(a: string, b: string, i: nat, k: nat)
    requires Upper(a) == Upper(b) && k < COUNT
    ensures SpeltAt(a, i, k) == SpeltAt(b, i, k)
  {
    var n := |Keywords(k).name|;
    assert |Upper(a)| == |Upper(b)|;
    if i + n <= |a| {
      UpperSlice(a, i, i + n);
      UpperSlice(b, i, i + n);
      if i > 0 {
        SameClass(a, b, i - 1);
      }
      if i + n < |a| {
        SameClass(a, b, i + n);
      }
    }
  }

  lemma KeywordSame(a: string, b: string, i: nat)
    requires Upper(a) == Upper(b)
    ensures KeywordAt(a, i) == KeywordAt(b, i)
  {
    forall k | 0 <= k < COUNT ensures SpeltHere(a, i)[k] == SpeltHere(b, i)[k] {
      SpellingSame(a, b, i, k);
    }
    assert SpeltHere(a, i) == SpeltHere(b, i);
  }

  lemma {:induction false} NumEndSame(a: string, b: string, i: nat)
    requires Upper(a) == Upper(b) && i <= |a|
    ensures |a| == |b| && NumEnd(a, i) == NumEnd(b, i)
    decreases |a| - i
  {
    assert |Upper(a)| == |Upper(b)|;
    if i < |a| {
      SameClass(a, b, i);
      NumEndSame(a, b, i + 1);
    }
  }

  lemma KindSame(a: string, b: string, s: Spot)
    requires Upper(a) == Upper(b) && s.at < |a|
    ensures |a| == |b| && KindAt(a, s) == KindAt(b, s) && Next(a, s) == Next(b, s)
  {
    SameClass(a, b, s.at);
    KeywordSame(a, b, s.at);
    NumEndSame(a, b, s.at);
    assert KindAt(a, s) == KindAt(b, s);
  }

  // A piece is shown up to letter case, and changed for a keyword only.
  lemma ShownLetters(text: string, s: Spot)
    requires s.at < |text|
    ensures Upper(PieceText(text, s)) == Upper(text[s.at..Next(text, s).at])
    ensures !KindAt(text, s).Word? ==> PieceText(text, s) == text[s.at..Next(text, s).at]
  {
    match KindAt(text, s)
    case Word(name, _) => UpperTwice(text[s.at..s.at + |name|]);
    case _ =>
  }

  lemma LettersJoin(text: string, i: nat, j: nat, a: string, b: string)
    requires i <= j <= |text| && Upper(a) == Upper(text[i..j]) && Upper(b) == Upper(text[j..])
    ensures Upper(a + b) == Upper(text[i..])
  {
    UpperConcat(a, b);
    UpperConcat(text[i..j], text[j..]);
    assert text[i..j] + text[j..] == text[i..];
  }

  // The listed text differs from the line in letter case only.
  lemma {:induction false} CanonKeepsLetters(text: string, s: Spot)
    requires s.at <= |text|
    ensures Upper(CanonFrom(text, s)) == Upper(text[s.at..])
    decreases |text| - s.at
  {
    if s.at < |text| {
      var t := Next(text, s);
      ShownLetters(text, s);
      CanonKeepsLetters(text, t);
      LettersJoin(text, s.at, t.at, PieceText(text, s), CanonFrom(text, t));
    }
  }

  // Reading a piece out of the listed text gives the piece's bytes again.
  lemma PieceSame(host: HostFloat, text: string, u: string, s: Spot)
    requires Upper(text) == Upper(u) && s.at < |text| == |u|
    requires u[s.at..Next(text, s).at] == PieceText(text, s)
    ensures Piece(host, u, s) == Piece(host, text, s) && PieceText(u, s) == PieceText(text, s)
  {
    KindSame(text, u, s);
    ShownLetters(text, s);
    match KindAt(text, s)
    case Copy =>
      assert u[s.at] == u[s.at..s.at + 1][0] == text[s.at..s.at + 1][0];
    case _ =>
  }

  lemma ListedSplits(text: string, u: string, s: Spot)
    requires Upper(text) == Upper(u) && s.at < |text| == |u| && u[s.at..] == CanonFrom(text, s)
    ensures var t := Next(text, s); u[s.at..t.at] == PieceText(text, s) && u[t.at..] == CanonFrom(text, t)
  {
    var t := Next(text, s);
    ShownLetters(text, s);
    var front, back := PieceText(text, s), CanonFrom(text, t);
    assert |front| == |Upper(front)| == t.at - s.at;
    Halves(u, s.at, front, back);
  }

  lemma Halves(u: string, i: nat, front: string, back: string)
    requires i <= |u| && u[i..] == front + back
    ensures i + |front| <= |u| && u[i..i + |front|] == front && u[i + |front|..] == back
  {
    assert u[i..i + |front|] == u[i..][..|front|];
    assert u[i + |front|..] == u[i..][|front|..];
  }

  lemma {:induction false} ListedTextAgain(host: HostFloat, text: string, u: string, s: Spot)
    requires Upper(text) == Upper(u) && s.at <= |text| == |u| && u[s.at..] == CanonFrom(text, s)
    ensures TokFrom(host, u, s) == TokFrom(host, text, s)
    ensures CanonFrom(u, s) == CanonFrom(text, s)
    decreases |text| - s.at
  {
    if s.at < |text| {
      ListedSplits(text, u, s);
      KindSame(text, u, s);
      PieceSame(host, text, u, s);
      ListedTextAgain(host, text, u, Next(text, s));
    }
  }

  /** Tokenising the listed text gives the bytes the line itself gave; listing
      changes letter case only, and listing twice changes nothing more. */
  lemma TokOfCanon(host: HostFloat, text: string)
    ensures Upper(Canon(text)) == Upper(text)
    ensures Tok(host, Canon(text)) == Tok(host, text)
    ensures Canon(Canon(text)) == Canon(text)
  {
    var u := Canon(text);
    CanonKeepsLetters(text, START);
    assert text[0..] == text && u[0..] == u;
    assert |Upper(u)| == |Upper(text)|;
    ListedTextAgain(host, text, u, START);
  }
}
