/** Answer normalisation and extraction: `\frac` arguments get braces, and the contents of
    `boxed{...}` are cut out by counting braces. */
module AnswerExtraction {
  import opened Base
  import opened Splitting

  const FRAC := "\\frac"
  const BOXED := "boxed{"

  lemma SeparatorsBorderFree()
    ensures BorderFree(FRAC) && BorderFree(BOXED)
  {
    FirstCharOnce(FRAC);
    FirstCharOnce(BOXED);
  }

  // ----- fractions -----

  /** What follows one `\frac`, with braces around its arguments; None when it is too short. */
  function FixPiece(piece: string): Option<string> {
    if |piece| > 0 && piece[0] == '{' then Some(piece)
    else if |piece| < 2 then None
    else if piece[1] != '{' then Some("{" + [piece[0]] + "}{" + [piece[1]] + "}" + piece[2..])
    else Some("{" + [piece[0]] + "}" + [piece[1]] + piece[2..])
  }

  ghost predicate Fixable(pieces: seq<string>) {
    forall i :: 0 <= i < |pieces| ==> FixPiece(pieces[i]).Some?
  }

  ghost function FixPieces(pieces: seq<string>): seq<string>
    requires Fixable(pieces)
  {
    seq(|pieces|, i requires 0 <= i < |pieces| => FixPiece(pieces[i]).value)
  }

  /** The whole text is returned unchanged when one `\frac` cannot be completed. */
  ghost function FixFracs(s: string): string {
    var pieces := Split(s, FRAC);
    if Fixable(pieces[1..]) then Join([pieces[0]] + FixPieces(pieces[1..]), FRAC) else s
  }

  lemma {:induction false} JoinExtended(pieces: seq<string>, piece: string, sep: string)
    requires pieces != []
    ensures Join(pieces + [piece], sep) == Join(pieces, sep) + sep + piece
  {
    if |pieces| > 1 {
      JoinExtended(pieces[1..], piece, sep);
      assert (pieces + [piece])[1..] == pieces[1..] + [piece];
    } else {
      assert (pieces + [piece])[1..] == [piece];
    }
  }

  lemma FixPiecesStep(pieces: seq<string>, i: nat)
    requires i < |pieces| && Fixable(pieces[..i]) && FixPiece(pieces[i]).Some?
    ensures Fixable(pieces[..i + 1])
    ensures FixPieces(pieces[..i + 1]) == FixPieces(pieces[..i]) + [FixPiece(pieces[i]).value]
  {
    assert pieces[..i + 1] == pieces[..i] + [pieces[i]];
  }

  lemma NotFixable(pieces: seq<string>, i: nat)
    requires i < |pieces| && FixPiece(pieces[i]).None?
    ensures !Fixable(pieces)
  {
  }

  /** The loop over the pieces after the first; the text so far ends in the fixed pieces. */
  method FixAll(first: string, pieces: seq<string>) returns (r: Option<string>)
    ensures r.Some? <==> Fixable(pieces)
    ensures r.Some? ==> r.value == Join([first] + FixPieces(pieces), FRAC)
  {
    var text := first;
    assert [first] + FixPieces(pieces[..0]) == [first];
    for i := 0 to |pieces|
      invariant Fixable(pieces[..i])
      invariant text == Join([first] + FixPieces(pieces[..i]), FRAC)
    {
      var f := FixPiece(pieces[i]);
      if f.None? {
        NotFixable(pieces, i);
        return None;
      }
      FixPiecesStep(pieces, i);
      ghost var done := [first] + FixPieces(pieces[..i]);
      JoinExtended(done, f.value, FRAC);
      assert [first] + FixPieces(pieces[..i + 1]) == done + [f.value];
      text := text + FRAC + f.value;
    }
    assert pieces[..|pieces|] == pieces;
    return Some(text);
  }

  method FixFracsLoop(s: string) returns (r: string)
    ensures r == FixFracs(s)
  {
    var pieces := Split(s, FRAC);
    var fixed := FixAll(pieces[0], pieces[1..]);
    if fixed.None? {
      return s;
    }
    return fixed.value;
  }

  lemma FixedPieceFree(piece: string)
    requires !Contains(piece, FRAC) && FixPiece(piece).Some?
    ensures !Contains(FixPiece(piece).value, FRAC)
    ensures FixPiece(FixPiece(piece).value) == FixPiece(piece)
  {
    if |piece| > 0 && piece[0] == '{' {
    } else {
      SuffixFree(piece, FRAC, 2);
      var (a, rest) := ([piece[0]], piece[2..]);
      ShortFree("", FRAC);
      ShortFree(a, FRAC);
      ShortFree([piece[1]], FRAC);
      var tail := if piece[1] == '{' then rest else [piece[1]] + "}" + rest;
      if piece[1] != '{' {
        Shielded([piece[1]], '}', rest, FRAC);
      }
      Shielded("", '{', tail, FRAC);
      assert "" + ['{'] + tail == "{" + tail;
      Shielded(a, '}', "{" + tail, FRAC);
      Shielded("", '{', a + "}" + ("{" + tail), FRAC);
      assert FixPiece(piece).value == "" + "{" + (a + "}" + ("{" + tail));
    }
  }

  /** The pieces of a normalised text are the fixed pieces. */
  lemma FixedSplit(s: string)
    requires Fixable(Split(s, FRAC)[1..])
    ensures Split(FixFracs(s), FRAC) == [Split(s, FRAC)[0]] + FixPieces(Split(s, FRAC)[1..])
  {
    var pieces := Split(s, FRAC);
    var fixed := [pieces[0]] + FixPieces(pieces[1..]);
    forall i | 0 <= i < |fixed|
      ensures !Contains(fixed[i], FRAC)
    {
      SplitPieces(s, FRAC, i);
      if i > 0 {
        assert pieces[1..][i - 1] == pieces[i];
        FixedPieceFree(pieces[i]);
      }
    }
    SeparatorsBorderFree();
    SplitJoin(fixed, FRAC);
  }

  /** A fraction that cannot be completed: no brace follows it, and fewer than two characters. */
  predicate Incomplete(piece: string) {
    |piece| == 0 || (|piece| == 1 && piece[0] != '{')
  }

  /** What follows a fraction in the result, given what follows it in the text: both arguments in
      braces, each exactly the character it was, unless it already has its braces. */
  ghost predicate Argued(piece: string, fixed: string) {
    if |piece| > 0 && piece[0] == '{' then fixed == piece
    else
      && |piece| >= 2 && |fixed| >= 3 && fixed[..3] == ['{', piece[0], '}']
      && if piece[1] == '{' then fixed[3..] == piece[1..]
         else fixed[3..] == ['{', piece[1], '}'] + piece[2..]
  }

  lemma PieceArgued(piece: string)
    ensures FixPiece(piece).None? <==> Incomplete(piece)
    ensures FixPiece(piece).Some? ==> Argued(piece, FixPiece(piece).value)
  {
  }

  /** Every fraction of the text can be completed; the first piece precedes the first fraction. */
  ghost predicate Complete(pieces: seq<string>) {
    forall k :: 1 <= k < |pieces| ==> !Incomplete(pieces[k])
  }

  lemma CompleteIffFixable(pieces: seq<string>)
    requires pieces != []
    ensures Complete(pieces) <==> Fixable(pieces[1..])
  {
    var rest := pieces[1..];
    forall i | 0 <= i < |rest|
      ensures FixPiece(rest[i]).None? <==> Incomplete(rest[i])
    {
      PieceArgued(rest[i]);
    }
    if Complete(pieces) {
      forall i | 0 <= i < |rest|
        ensures FixPiece(rest[i]).Some?
      {
        assert rest[i] == pieces[i + 1];
      }
    } else {
      var k :| 1 <= k < |pieces| && Incomplete(pieces[k]);
      assert rest[k - 1] == pieces[k];
    }
  }

  lemma FixedArgued(pieces: seq<string>, fixed: seq<string>, i: nat)
    requires 0 < i < |pieces| && Fixable(pieces[1..]) && fixed == [pieces[0]] + FixPieces(pieces[1..])
    ensures i < |fixed| && Argued(pieces[i], fixed[i])
  {
    assert pieces[1..][i - 1] == pieces[i];
    PieceArgued(pieces[i]);
  }

  /** On every text: if some fraction cannot be completed the text is returned as it came, and
      otherwise the fractions of the result are those of the text, with their arguments in
      braces. */
  lemma FixFracsExact(s: string, i: nat)
    requires i < |Split(s, FRAC)|
    ensures !Complete(Split(s, FRAC)) ==> FixFracs(s) == s
    ensures Complete(Split(s, FRAC)) ==>
              && |Split(FixFracs(s), FRAC)| == |Split(s, FRAC)|
              && Split(FixFracs(s), FRAC)[0] == Split(s, FRAC)[0]
              && (i > 0 ==> Argued(Split(s, FRAC)[i], Split(FixFracs(s), FRAC)[i]))
  {
    var pieces := Split(s, FRAC);
    CompleteIffFixable(pieces);
    if Fixable(pieces[1..]) {
      FixedSplit(s);
      if i > 0 {
        FixedArgued(pieces, Split(FixFracs(s), FRAC), i);
      }
    }
  }

  lemma FixPiecesAgain(pieces: seq<string>)
    requires Fixable(pieces) && forall i :: 0 <= i < |pieces| ==> !Contains(pieces[i], FRAC)
    ensures Fixable(FixPieces(pieces)) && FixPieces(FixPieces(pieces)) == FixPieces(pieces)
  {
    forall i | 0 <= i < |pieces|
      ensures FixPiece(FixPieces(pieces)[i]) == Some(FixPieces(pieces)[i])
    {
      FixedPieceFree(pieces[i]);
    }
  }

  lemma FixFracsOf(s: string, first: string, pieces: seq<string>)
    requires Split(s, FRAC) == [first] + pieces && Fixable(pieces)
    ensures FixFracs(s) == Join([first] + FixPieces(pieces), FRAC)
  {
    assert Split(s, FRAC)[1..] == pieces;
  }

  lemma FixedAgain(s: string, first: string, pieces: seq<string>)
    requires Split(s, FRAC) == [first] + pieces && Fixable(pieces)
    ensures FixFracs(FixFracs(s)) == FixFracs(s)
  {
    forall i | 0 <= i < |pieces|
      ensures !Contains(pieces[i], FRAC)
    {
      SplitPieces(s, FRAC, i + 1);
    }
    FixPiecesAgain(pieces);
    assert Split(s, FRAC)[1..] == pieces;
    FixedSplit(s);
    FixFracsOf(s, first, pieces);
    FixFracsOf(FixFracs(s), first, FixPieces(pieces));
  }

  /** Normalising twice is normalising once, on every text. */
  lemma FixFracsIdempotent(s: string)
    ensures FixFracs(FixFracs(s)) == FixFracs(s)
  {
    var pieces := Split(s, FRAC);
    if Fixable(pieces[1..]) {
      assert pieces == [pieces[0]] + pieces[1..];
      FixedAgain(s, pieces[0], pieces[1..]);
    }
  }

  lemma FixedStarts(piece: string)
    requires FixPiece(piece).Some?
    ensures "{" <= FixPiece(piece).value
  {
  }

  /** A normalised text has a brace after every `\frac`, unless it was returned as it came. */
  lemma FixFracsBraces(s: string, i: nat)
    requires Fixable(Split(s, FRAC)[1..]) && 0 < i < |Split(FixFracs(s), FRAC)|
    ensures "{" <= Split(FixFracs(s), FRAC)[i]
  {
    var pieces := Split(s, FRAC)[1..];
    FixedSplit(s);
    FixedStarts(pieces[i - 1]);
  }

  // ----- what normalising keeps -----

  function StripBraces(s: string): string {
    if s == "" then ""
    else
      var c := s[|s| - 1];
      StripBraces(s[..|s| - 1]) + if c == '{' || c == '}' then "" else [c]
  }

  /** Opening minus closing braces. */
  function Balance(s: string): int {
    if s == "" then 0
    else Balance(s[..|s| - 1]) + Step(s[|s| - 1])
  }

  function Step(c: char): int {
    if c == '{' then 1 else if c == '}' then -1 else 0
  }

  lemma {:induction false} StripConcat(a: string, b: string)
    ensures StripBraces(a + b) == StripBraces(a) + StripBraces(b)
  {
    if b == "" {
      assert a + b == a;
    } else {
      StripConcat(a, b[..|b| - 1]);
      assert (a + b)[..|a + b| - 1] == a + b[..|b| - 1];
    }
  }

  lemma {:induction false} BalanceConcat(a: string, b: string)
    ensures Balance(a + b) == Balance(a) + Balance(b)
  {
    if b == "" {
      assert a + b == a;
    } else {
      BalanceConcat(a, b[..|b| - 1]);
      assert (a + b)[..|a + b| - 1] == a + b[..|b| - 1];
    }
  }

  /** Same text apart from braces, same surplus of opening braces. */
  ghost predicate SameBut(a: string, b: string) {
    StripBraces(a) == StripBraces(b) && Balance(a) == Balance(b)
  }

  lemma SameButConcat(a: string, a': string, b: string, b': string)
    requires SameBut(a, a') && SameBut(b, b')
    ensures SameBut(a + b, a' + b')
  {
    StripConcat(a, b);
    StripConcat(a', b');
    BalanceConcat(a, b);
    BalanceConcat(a', b');
  }

  lemma BracedChar(c: char)
    ensures SameBut("{" + [c] + "}", [c])
  {
    StripConcat("{" + [c], "}");
    StripConcat("{", [c]);
    BalanceConcat("{" + [c], "}");
    BalanceConcat("{", [c]);
    assert StripBraces("{") == StripBraces("}") == "";
    assert Balance("{") == 1 && Balance("}") == -1;
  }

  lemma FixPieceKeeps(piece: string)
    requires FixPiece(piece).Some?
    ensures SameBut(FixPiece(piece).value, piece)
  {
    if |piece| > 0 && piece[0] == '{' {
    } else {
      var (a, b, rest) := (piece[0], piece[1], piece[2..]);
      var b' := if b != '{' then "{" + [b] + "}" else [b];
      BracedChar(a);
      BracedChar(b);
      SameButConcat(b', [b], rest, rest);
      SameButConcat("{" + [a] + "}", [a], b' + rest, [b] + rest);
      assert FixPiece(piece).value == "{" + [a] + "}" + (b' + rest);
      assert piece == [a] + ([b] + rest);
    }
  }

  lemma {:induction false} JoinKeeps(a: seq<string>, b: seq<string>, sep: string)
    requires |a| == |b| > 0 && forall i :: 0 <= i < |a| ==> SameBut(a[i], b[i])
    ensures SameBut(Join(a, sep), Join(b, sep))
  {
    if |a| > 1 {
      JoinKeeps(a[1..], b[1..], sep);
      SameButConcat(a[0], b[0], sep, sep);
      SameButConcat(a[0] + sep, b[0] + sep, Join(a[1..], sep), Join(b[1..], sep));
    }
  }

  /** a can be read off b by skipping characters. */
  ghost predicate Embeds(a: string, b: string) {
    a == "" || (b != "" &&
      var front := b[..|b| - 1];
      (a[|a| - 1] == b[|b| - 1] && Embeds(a[..|a| - 1], front)) || Embeds(a, front))
  }

  lemma {:induction false} EmbedsItself(a: string)
    ensures Embeds(a, a)
  {
    if a != "" {
      EmbedsItself(a[..|a| - 1]);
    }
  }

  lemma {:induction false} EmbedsConcat(a: string, b: string, c: string, d: string)
    requires Embeds(a, b) && Embeds(c, d)
    ensures Embeds(a + c, b + d)
    decreases |d|
  {
    if d == "" {
      assert a + c == a && b + d == b;
    } else {
      var front := d[..|d| - 1];
      assert (b + d)[..|b + d| - 1] == b + front;
      if c == "" {
        EmbedsConcat(a, b, "", front);
        assert a + c == a + "";
      } else if Embeds(c, front) {
        EmbedsConcat(a, b, c, front);
      } else {
        EmbedsConcat(a, b, c[..|c| - 1], front);
        assert (a + c)[..|a + c| - 1] == a + c[..|c| - 1];
      }
    }
  }

  lemma BracedEmbeds(c: char)
    ensures Embeds([c], "{" + [c] + "}")
  {
    var s := "{" + [c] + "}";
    assert s[..2] == "{" + [c];
    assert Embeds([c][..0], s[..2][..1]);
  }

  lemma FixPieceEmbeds(piece: string)
    requires FixPiece(piece).Some?
    ensures Embeds(piece, FixPiece(piece).value)
  {
    EmbedsItself(piece);
    if |piece| > 0 && piece[0] == '{' {
    } else {
      var (a, b, rest) := (piece[0], piece[1], piece[2..]);
      var b' := if b != '{' then "{" + [b] + "}" else [b];
      BracedEmbeds(a);
      BracedEmbeds(b);
      EmbedsItself([b]);
      EmbedsItself(rest);
      EmbedsConcat([b], b', rest, rest);
      EmbedsConcat([a], "{" + [a] + "}", [b] + rest, b' + rest);
      assert FixPiece(piece).value == "{" + [a] + "}" + (b' + rest);
      assert piece == [a] + ([b] + rest);
    }
  }

  lemma {:induction false} JoinEmbeds(a: seq<string>, b: seq<string>, sep: string)
    requires |a| == |b| > 0 && forall i :: 0 <= i < |a| ==> Embeds(a[i], b[i])
    ensures Embeds(Join(a, sep), Join(b, sep))
  {
    if |a| > 1 {
      JoinEmbeds(a[1..], b[1..], sep);
      EmbedsItself(sep);
      EmbedsConcat(a[0], b[0], sep, sep);
      EmbedsConcat(a[0] + sep, b[0] + sep, Join(a[1..], sep), Join(b[1..], sep));
    }
  }

  /** Normalising takes nothing away: the text can be read off the result. */
  lemma FixFracsAdds(s: string)
    ensures Embeds(s, FixFracs(s))
  {
    var pieces := Split(s, FRAC);
    EmbedsItself(s);
    if Fixable(pieces[1..]) {
      var fixed := [pieces[0]] + FixPieces(pieces[1..]);
      forall i | 0 <= i < |pieces|
        ensures Embeds(pieces[i], fixed[i])
      {
        if i > 0 {
          assert pieces[1..][i - 1] == pieces[i];
          FixPieceEmbeds(pieces[i]);
        } else {
          EmbedsItself(pieces[0]);
        }
      }
      JoinEmbeds(pieces, fixed, FRAC);
      JoinSplit(s, FRAC);
    }
  }

  /** Apart from braces the text stays, and so does the surplus of opening braces. */
  lemma FixFracsKeeps(s: string)
    ensures StripBraces(FixFracs(s)) == StripBraces(s)
    ensures Balance(FixFracs(s)) == Balance(s)
  {
    var pieces := Split(s, FRAC);
    if Fixable(pieces[1..]) {
      var fixed := [pieces[0]] + FixPieces(pieces[1..]);
      forall i | 0 <= i < |pieces|
        ensures SameBut(fixed[i], pieces[i])
      {
        if i > 0 {
          assert pieces[1..][i - 1] == pieces[i];
          FixPieceKeeps(pieces[i]);
        }
      }
      JoinKeeps(fixed, pieces, FRAC);
      JoinSplit(s, FRAC);
    }
  }

  // ----- boxed answers -----

  /** No prefix closes more braces than it opened. */
  ghost predicate NeverBelow(s: string) {
    forall i :: 0 <= i <= |s| ==> Balance(s[..i]) >= 0
  }

  ghost predicate Balanced(s: string) {
    NeverBelow(s) && Balance(s) == 0
  }

  /** The brace that closes the box: what is before it is balanced. */
  ghost predicate ClosesAt(piece: string, i: nat) {
    i < |piece| && piece[i] == '}' && Balanced(piece[..i])
  }

  lemma PrefixOfPrefix(s: string, i: nat, j: nat)
    requires i <= j <= |s|
    ensures s[..j][..i] == s[..i]
  {
  }

  lemma NoneCloses(piece: string, i: nat, j: nat)
    requires ClosesAt(piece, i) && i < j
    ensures !ClosesAt(piece, j)
  {
    if j < |piece| {
      PrefixOfPrefix(piece, i + 1, j);
      PrefixOfPrefix(piece, i, i + 1);
      assert Balance(piece[..i + 1]) == -1;
    }
  }

  /** There is at most one closing brace. */
  lemma ClosesOnce(piece: string, i: nat, j: nat)
    requires ClosesAt(piece, i) && ClosesAt(piece, j)
    ensures i == j
  {
    if i < j {
      NoneCloses(piece, i, j);
    } else if j < i {
      NoneCloses(piece, j, i);
    }
  }

  lemma NothingCloses(piece: string, i: nat)
    requires NeverBelow(piece)
    ensures !ClosesAt(piece, i)
  {
    if i < |piece| {
      PrefixOfPrefix(piece, i, i + 1);
      assert Balance(piece[..i + 1]) >= 0;
    }
  }

  /** A `%` after the closing brace keeps that brace in the answer. */
  function Cut(piece: string, i: nat): string
    requires i < |piece|
  {
    if i + 1 < |piece| && piece[i + 1] == '%' then piece[..i + 1] else piece[..i]
  }

  /** What one piece contributes: the text up to its closing brace, if it has one. */
  ghost function AnswerOf(piece: string): seq<string> {
    if exists i: nat :: ClosesAt(piece, i) then
      var i: nat :| ClosesAt(piece, i);
      [Cut(piece, i)]
    else
      []
  }

  lemma AnswerClosed(piece: string, i: nat)
    requires ClosesAt(piece, i)
    ensures AnswerOf(piece) == [Cut(piece, i)]
  {
    var j: nat :| ClosesAt(piece, j) && AnswerOf(piece) == [Cut(piece, j)];
    ClosesOnce(piece, i, j);
  }

  lemma AnswerUnclosed(piece: string)
    requires NeverBelow(piece)
    ensures AnswerOf(piece) == []
  {
    forall i: nat
      ensures !ClosesAt(piece, i)
    {
      NothingCloses(piece, i);
    }
  }

  lemma NextBalance(s: string, i: nat)
    requires i < |s|
    ensures Balance(s[..i + 1]) == Balance(s[..i]) + Step(s[i])
  {
    PrefixOfPrefix(s, i, i + 1);
  }

  lemma NeverBelowPrefix(s: string, i: nat)
    requires i <= |s| && forall k :: 0 <= k <= i ==> Balance(s[..k]) >= 0
    ensures NeverBelow(s[..i])
  {
    forall k | 0 <= k <= i
      ensures Balance(s[..i][..k]) >= 0
    {
      PrefixOfPrefix(s, k, i);
    }
  }

  /** The inner loop: scan one piece. */
  method ScanPiece(piece: string) returns (answers: seq<string>)
    ensures answers == AnswerOf(piece)
  {
    var n := 0;
    for i := 0 to |piece|
      invariant n == Balance(piece[..i])
      invariant forall k :: 0 <= k <= i ==> Balance(piece[..k]) >= 0
    {
      NextBalance(piece, i);
      if piece[i] == '{' {
        n := n + 1;
      } else if piece[i] == '}' {
        n := n - 1;
        if n < 0 {
          NeverBelowPrefix(piece, i);
          AnswerClosed(piece, i);
          if i + 1 < |piece| && piece[i + 1] == '%' {
            return [piece[..i + 1]];
          } else {
            return [piece[..i]];
          }
        }
      }
    }
    NeverBelowPrefix(piece, |piece|);
    assert piece[..|piece|] == piece;
    AnswerUnclosed(piece);
    return [];
  }

  ghost function AnswersOf(pieces: seq<string>): seq<string> {
    if pieces == [] then [] else AnswersOf(pieces[..|pieces| - 1]) + AnswerOf(pieces[|pieces| - 1])
  }

  /** The answers of a text: those of its pieces after the first, in order. */
  ghost function BoxedAnswers(text: string): seq<string> {
    AnswersOf(Split(text, BOXED)[1..])
  }

  method ExtractBoxedAnswers(text: string) returns (answers: seq<string>)
    ensures answers == BoxedAnswers(text)
  {
    answers := [];
    var pieces := Split(text, BOXED)[1..];
    for i := 0 to |pieces|
      invariant answers == AnswersOf(pieces[..i])
    {
      assert pieces[..i + 1][..i] == pieces[..i];
      var found := ScanPiece(pieces[i]);
      answers := answers + found;
    }
    assert pieces[..|pieces|] == pieces;
  }

  // ----- what a writer put in is what comes out -----

  /** A box: closed, followed by other text, or never closed. */
  datatype Box = Closed(content: string, after: string) | Unclosed(content: string)

  function Text(b: Box): string {
    match b
    case Closed(content, after) => content + "}" + after
    case Unclosed(content) => content
  }

  ghost predicate BoxOk(b: Box) {
    && !Contains(b.content, BOXED)
    && (b.Closed? ==> Balanced(b.content) && !Contains(b.after, BOXED))
    && (b.Unclosed? ==> NeverBelow(b.content))
  }

  /** A closed box yields its content, with the closing brace exactly when a `%` follows it. */
  function Expected(b: Box): seq<string> {
    match b
    case Closed(content, after) => [if "%" <= after then content + "}" else content]
    case Unclosed(_) => []
  }

  function Texts(boxes: seq<Box>): seq<string> {
    seq(|boxes|, i requires 0 <= i < |boxes| => Text(boxes[i]))
  }

  function ExpectedAll(boxes: seq<Box>): seq<string> {
    if boxes == [] then [] else ExpectedAll(boxes[..|boxes| - 1]) + Expected(boxes[|boxes| - 1])
  }

  lemma BoxGives(b: Box)
    requires BoxOk(b)
    ensures AnswerOf(Text(b)) == Expected(b)
    ensures !Contains(Text(b), BOXED)
  {
    if b.Closed? {
      var i := |b.content|;
      assert Text(b)[..i] == b.content;
      AnswerClosed(Text(b), i);
      assert Text(b)[..i + 1] == b.content + "}";
      assert b.after != "" ==> Text(b)[i + 1] == b.after[0];
      Shielded(b.content, '}', b.after, BOXED);
    } else {
      AnswerUnclosed(b.content);
    }
  }

  lemma {:induction false} BoxesGive(boxes: seq<Box>)
    requires forall i :: 0 <= i < |boxes| ==> BoxOk(boxes[i])
    ensures AnswersOf(Texts(boxes)) == ExpectedAll(boxes)
  {
    if boxes != [] {
      var n := |boxes| - 1;
      BoxesGive(boxes[..n]);
      BoxGives(boxes[n]);
      assert Texts(boxes)[..n] == Texts(boxes[..n]);
    }
  }

  lemma SplitBoxes(pre: string, boxes: seq<Box>)
    requires !Contains(pre, BOXED) && forall i :: 0 <= i < |boxes| ==> BoxOk(boxes[i])
    ensures Split(Join([pre] + Texts(boxes), BOXED), BOXED) == [pre] + Texts(boxes)
  {
    var pieces := [pre] + Texts(boxes);
    forall i | 0 <= i < |pieces|
      ensures !Contains(pieces[i], BOXED)
    {
      if i > 0 {
        BoxGives(boxes[i - 1]);
      }
    }
    SeparatorsBorderFree();
    SplitJoin(pieces, BOXED);
  }

  /** For any text in front and any sequence of boxes, closed or not, the extraction returns
      exactly the expected answers. */
  lemma BoxesRecovered(pre: string, boxes: seq<Box>)
    requires !Contains(pre, BOXED) && forall i :: 0 <= i < |boxes| ==> BoxOk(boxes[i])
    ensures BoxedAnswers(Join([pre] + Texts(boxes), BOXED)) == ExpectedAll(boxes)
  {
    SplitBoxes(pre, boxes);
    assert ([pre] + Texts(boxes))[1..] == Texts(boxes);
    BoxesGive(boxes);
  }

  lemma JoinTwo(a: string, b: string, sep: string)
    ensures Join([a] + [b], sep) == a + sep + b
  {
    assert ([a] + [b])[1..] == [b];
  }

  /** An answer is a prefix of a piece, so it never contains the separator. */
  lemma AnswerFree(piece: string)
    requires !Contains(piece, BOXED)
    ensures forall i :: 0 <= i < |AnswerOf(piece)| ==> !Contains(AnswerOf(piece)[i], BOXED)
  {
    if exists i: nat :: ClosesAt(piece, i) {
      var i: nat :| ClosesAt(piece, i);
      AnswerClosed(piece, i);
      PrefixFree(piece, BOXED, i);
      PrefixFree(piece, BOXED, i + 1);
    }
  }

  lemma {:induction false} AnswersFree(pieces: seq<string>)
    requires forall i :: 0 <= i < |pieces| ==> !Contains(pieces[i], BOXED)
    ensures forall i :: 0 <= i < |AnswersOf(pieces)| ==> !Contains(AnswersOf(pieces)[i], BOXED)
  {
    if pieces != [] {
      AnswersFree(pieces[..|pieces| - 1]);
      AnswerFree(pieces[|pieces| - 1]);
    }
  }

  lemma BoxedAnswersFree(text: string)
    ensures forall i :: 0 <= i < |BoxedAnswers(text)| ==> !Contains(BoxedAnswers(text)[i], BOXED)
  {
    var pieces := Split(text, BOXED)[1..];
    forall i | 0 <= i < |pieces|
      ensures !Contains(pieces[i], BOXED)
    {
      SplitPieces(text, BOXED, i + 1);
    }
    AnswersFree(pieces);
  }

  lemma OneBoxAnswers(pre: string, t: string, post: string)
    requires !Contains(pre, BOXED) && !Contains(t, BOXED) && !Contains(post, BOXED) && Balanced(t)
    ensures BoxedAnswers(pre + BOXED + (t + "}" + post)) == [if "%" <= post then t + "}" else t]
  {
    var box := Closed(t, post);
    JoinTwo(pre, t + "}" + post, BOXED);
    assert Texts([box]) == [t + "}" + post];
    BoxesRecovered(pre, [box]);
    assert [box][..0] == [];
    assert ExpectedAll([box][..0]) == [];
    assert ExpectedAll([box]) == Expected(box);
  }

  /** One box with balanced content: the content is the only answer if and only if it holds no
      box itself and no `%` follows it. */
  lemma BoxedRecovered(pre: string, t: string, post: string)
    requires !Contains(pre, BOXED) && !Contains(post, BOXED) && Balanced(t)
    ensures BoxedAnswers(pre + BOXED + (t + "}" + post)) == [t] <==> !Contains(t, BOXED) && !("%" <= post)
  {
    var answers := BoxedAnswers(pre + BOXED + (t + "}" + post));
    if Contains(t, BOXED) {
      BoxedAnswersFree(pre + BOXED + (t + "}" + post));
      assert answers == [t] ==> !Contains(answers[0], BOXED);
    } else {
      OneBoxAnswers(pre, t, post);
      assert |[t][0]| < |[t + "}"][0]|;
    }
  }

  lemma TwoBoxes(outer: string, last: string)
    ensures Join([""] + [outer, last], BOXED) == "" + BOXED + (outer + BOXED + last)
  {
    var pieces := [""] + [outer, last];
    assert pieces[1..] == [outer] + [last];
    JoinTwo(outer, last, BOXED);
    assert Join(pieces, BOXED) == "" + BOXED + Join([outer] + [last], BOXED);
  }

  lemma ExpectedTwo(outer: string, inner: string, post: string)
    requires !("%" <= post)
    ensures ExpectedAll([Unclosed(outer), Closed(inner, post)]) == [inner]
  {
    var boxes := [Unclosed(outer), Closed(inner, post)];
    assert boxes[..1] == [Unclosed(outer)] && boxes[..1][..0] == [];
    assert ExpectedAll([Unclosed(outer)]) == [];
    assert ExpectedAll(boxes) == ExpectedAll(boxes[..1]) + [inner];
  }

  /** A box inside a box hides the outer one: only the inner content is found. */
  lemma NestedBoxHidesOuter(outer: string, inner: string, post: string)
    requires !Contains(outer, BOXED) && !Contains(inner, BOXED) && !Contains(post, BOXED)
    requires NeverBelow(outer) && Balanced(inner) && !("%" <= post)
    ensures BoxedAnswers("" + BOXED + (outer + BOXED + (inner + "}" + post))) == [inner]
  {
    var boxes, last := [Unclosed(outer), Closed(inner, post)], inner + "}" + post;
    assert Texts(boxes) == [outer, last];
    TwoBoxes(outer, last);
    ExpectedTwo(outer, inner, post);
    ShortFree("", BOXED);
    BoxesRecovered("", boxes);
  }
}
