/** What the document splitter keeps: the round trip and the conservation of the input. */
module SplitterTheorems {
  import opened Splitter

  // ---------------------------------------------------------------- round trip

  /** Documents as they are stored: each followed by the separator and a newline, the last one, if not
      empty, unterminated. */
  function Print(docs: seq<string>, last: string): string {
    if docs == [] then last else docs[0] + (SEPARATOR + "\n" + Print(docs[1..], last))
  }

  function Parsed(docs: seq<string>, last: string): seq<string> {
    if last == [] then docs else docs + [last]
  }

  predicate EndsInBorder(d: string) {
    |d| >= 4 && d[|d| - 4] == '#' && d[|d| - 3] == '-' && d[|d| - 2] == '-' && d[|d| - 1] == '-'
  }

  /** A document that can be terminated: the separator neither occurs in it nor, overlapping itself, begins
      in its last four bytes. */
  ghost predicate Terminable(d: string) {
    !HasSep(d) && !EndsInBorder(d)
  }

  /** Where the first separator of a terminated document is found. */
  lemma {:induction false} FirstSepAfter(doc: string, rest: string)
    ensures var i := FindSep(doc + (SEPARATOR + rest), 0);
            i <= |doc| && (i == |doc| <==> Terminable(doc))
  {
    var d := doc + (SEPARATOR + rest);
    var n := |doc|;
    assert d[n] == '#' && d[n + 1] == '-' && d[n + 2] == '-' && d[n + 3] == '-' && d[n + 4] == '#';
    assert SepAt(d, n);
    forall k | 0 <= k < n ensures d[k] == doc[k] {}
    if Terminable(doc) {
      forall k | 0 <= k < n ensures !SepAt(d, k) {
        assert !SepAt(doc, k);
        if k == n - 1 || k == n - 2 || k == n - 3 {
          assert !SepAt(d, k);
        }
      }
      FindSepIs(d, 0, n);
    } else if HasSep(doc) {
      var k :| SepAt(doc, k);
      assert SepAt(d, k);
    } else {
      assert SepAt(d, n - 4);
    }
  }

  /** A separator with a newline somewhere behind it ends a token. */
  lemma {:induction false} SplitsAtSep(d: string, n: nat)
    requires FindSep(d, 0) < |d| && FindSep(d, 0) + 5 <= n < |d| && d[n] == '\n'
    ensures var i, s := FindSep(d, 0), SplitFunc(d, true);
            s.Token? && s.token == d[..i] && (n == i + 5 ==> s.advance == i + 6)
  {
    hide FindSep;
    var j := FindNewline(d, FindSep(d, 0) + 5);
    assert j <= n;
  }

  /** What the first token of a terminated document is. */
  lemma {:induction false} FirstOfTerminated(doc: string, rest: string)
    ensures var d := doc + (SEPARATOR + "\n" + rest);
            if Terminable(doc) then Tokens(d) == [doc] + Tokens(rest)
            else Tokens(d) != [] && |Tokens(d)[0]| < |doc|
  {
    hide FindSep, SplitFunc, Terminable;
    var d := doc + (SEPARATOR + ("\n" + rest));
    assert SEPARATOR + ("\n" + rest) == SEPARATOR + "\n" + rest;
    FirstSepAfter(doc, "\n" + rest);
    assert d[|doc| + 5] == '\n';
    SplitsAtSep(d, |doc| + 5);
    assert d[..|doc|] == doc && d[|doc| + 6..] == rest;
  }

  lemma {:induction false} LastDocument(last: string)
    ensures Tokens(last) == Parsed([], last) <==> !HasSep(last)
  {
    var i := FindSep(last, 0);
    if i < |last| {
      assert HasSep(last);
      assert Tokens(last) != [] ==> |Tokens(last)[0]| < |last|;
    } else {
      forall k ensures !SepAt(last, k) {}
      assert last != [] ==> last[|last|..] == [];
    }
  }

  ghost predicate Storable(docs: seq<string>, last: string) {
    (forall doc :: doc in docs ==> Terminable(doc)) && !HasSep(last)
  }

  /** Scanning what was printed gives back the documents exactly when no document contains the separator and
      no terminated one ends in its border. */
  lemma {:induction false} RoundTripIff(docs: seq<string>, last: string)
    ensures Tokens(Print(docs, last)) == Parsed(docs, last) <==> Storable(docs, last)
  {
    if docs == [] {
      LastDocument(last);
    } else {
      var rest := docs[1..];
      RoundTripIff(rest, last);
      FirstOfTerminated(docs[0], Print(rest, last));
      assert docs == [docs[0]] + rest;
      assert Parsed(docs, last) == [docs[0]] + Parsed(rest, last);
      if Tokens(Print(docs, last)) == Parsed(docs, last) {
        assert Tokens(Print(docs, last))[0] == docs[0];
        assert Tokens(Print(docs, last))[1..] == Parsed(docs, last)[1..];
      }
    }
  }

  // ---------------------------------------------------------------- conservation

  /** A token and what is skipped after it: nothing, or the separator and the rest of its line. */
  datatype Piece = Piece(token: string, skipped: string)

  function Pieces(d: string): seq<Piece>
    decreases |d|
  {
    match SplitFunc(d, true)
    case More => []
    case Token(advance, token) => [Piece(token, d[|token|..advance])] + Pieces(d[advance..])
  }

  /** What the scanner gives up on at the end of the input. */
  function Lost(d: string): string
    decreases |d|
  {
    match SplitFunc(d, true)
    case More => d
    case Token(advance, token) => Lost(d[advance..])
  }

  function Texts(pieces: seq<Piece>): seq<string> {
    if pieces == [] then [] else [pieces[0].token] + Texts(pieces[1..])
  }

  function Joined(pieces: seq<Piece>): string {
    if pieces == [] then [] else pieces[0].token + pieces[0].skipped + Joined(pieces[1..])
  }

  predicate SeparatorLine(s: string) {
    && |s| >= 6 && SepAt(s, 0) && s[|s| - 1] == '\n'
    && forall k :: 5 <= k < |s| - 1 ==> s[k] != '\n'
  }

  /** A token never contains the separator; only the last may lack its newline. */
  ghost predicate WellCut(p: Piece, isLast: bool) {
    && !HasSep(p.token)
    && (SeparatorLine(p.skipped) || (isLast && (p.skipped == SEPARATOR || (p.skipped == [] && p.token != []))))
  }

  lemma {:induction false} NoSepBefore(d: string)
    ensures !HasSep(d[..FindSep(d, 0)])
  {
    var i := FindSep(d, 0);
    forall k ensures !SepAt(d[..i], k) {
      assert SepAt(d[..i], k) ==> SepAt(d, k);
    }
  }

  lemma {:induction false} SeparatorLineAt(d: string, i: nat, j: nat)
    requires SepAt(d, i) && i + 5 <= j < |d| && d[j] == '\n'
    requires forall k :: i + 5 <= k < j ==> d[k] != '\n'
    ensures SeparatorLine(d[i..j + 1])
  {
    var line := d[i..j + 1];
    forall k | 0 <= k < |line| ensures line[k] == d[i + k] {}
  }

  lemma {:induction false} FirstPiece(d: string)
    requires SplitFunc(d, true).Token?
    ensures var s := SplitFunc(d, true);
            && s.token == d[..|s.token|]
            && WellCut(Piece(s.token, d[|s.token|..s.advance]), d[s.advance..] == [])
  {
    var s, i := SplitFunc(d, true), FindSep(d, 0);
    NoSepBefore(d);
    if i == |d| {
      assert d[..i] == d;
    } else if i + 5 == |d| {
      SepAtIsSlice(d, i);
    } else {
      SeparatorLineAt(d, i, FindNewline(d, i + 5));
    }
  }

  ghost predicate AllWellCut(pieces: seq<Piece>) {
    forall i :: 0 <= i < |pieces| ==> WellCut(pieces[i], i == |pieces| - 1)
  }

  lemma {:induction false} OneMoreCut(p: Piece, rest: seq<Piece>)
    requires AllWellCut(rest) && WellCut(p, rest == [])
    ensures AllWellCut([p] + rest)
  {
    var all := [p] + rest;
    forall i | 0 <= i < |all| ensures WellCut(all[i], i == |all| - 1) {
      if i > 0 {
        assert WellCut(rest[i - 1], i - 1 == |rest| - 1);
      }
    }
  }

  /** The tokens with what was skipped between them, and what was lost at the end, make up the input. */
  lemma {:induction false} Conserved(d: string)
    ensures Texts(Pieces(d)) == Tokens(d)
    ensures d == Joined(Pieces(d)) + Lost(d)
    ensures AllWellCut(Pieces(d))
    decreases |d|
  {
    hide *;
    CutOnce(d);
    var s := SplitFunc(d, true);
    if !s.Token? {
    } else {
      var rest := d[s.advance..];
      var p := Piece(s.token, d[|s.token|..s.advance]);
      Conserved(rest);
      CutOnce(rest);
      FirstPiece(d);
      WellCutSooner(p, rest == [], Pieces(rest) == []);
      OneMoreCut(p, Pieces(rest));
      CutAgain(p, Pieces(rest), Lost(rest));
      ThreeParts(d, |s.token|, s.advance);
    }
  }

  lemma {:induction false} CutOnce(d: string)
    ensures var s := SplitFunc(d, true);
            if s.More? then Pieces(d) == [] && Tokens(d) == [] && Lost(d) == d && Joined([]) == [] && Texts([]) == []
            else && Pieces(d) == [Piece(s.token, d[|s.token|..s.advance])] + Pieces(d[s.advance..])
                 && Tokens(d) == [s.token] + Tokens(d[s.advance..])
                 && Lost(d) == Lost(d[s.advance..])
    ensures d == [] ==> Pieces(d) == []
    ensures AllWellCut([])
  {}

  lemma {:induction false} ThreeParts(d: string, i: nat, j: nat)
    requires i <= j <= |d|
    ensures d == d[..i] + d[i..j] + d[j..]
  {}

  lemma {:induction false} WellCutSooner(p: Piece, last: bool, last': bool)
    requires WellCut(p, last) && (last ==> last')
    ensures WellCut(p, last')
  {}

  lemma {:induction false} CutAgain(p: Piece, rest: seq<Piece>, lost: string)
    ensures Texts([p] + rest) == [p.token] + Texts(rest)
    ensures Joined([p] + rest) + lost == p.token + p.skipped + (Joined(rest) + lost)
  {
    assert ([p] + rest)[1..] == rest;
  }

  // ---------------------------------------------------------------- what can be lost

  /** What follows the last newline. */
  function LastLine(d: string): (l: string)
    ensures |l| <= |d| && l == d[|d| - |l|..] && '\n' !in l
    ensures |l| < |d| ==> d[|d| - |l| - 1] == '\n'
  {
    if d == [] || d[|d| - 1] == '\n' then []
    else
      var l := LastLine(d[..|d| - 1]);
      assert l + [d[|d| - 1]] == d[|d| - 1 - |l|..];
      l + [d[|d| - 1]]
  }

  lemma {:induction false} LastLineIs(d: string, m: nat)
    requires m <= |d| && '\n' !in d[m..] && (m > 0 ==> d[m - 1] == '\n')
    ensures LastLine(d) == d[m..]
  {
    var l := LastLine(d);
    var m' := |d| - |l|;
    forall k | m <= k < |d| ensures d[k] != '\n' {
      assert d[k] == d[m..][k - m];
    }
    forall k | m' <= k < |d| ensures d[k] != '\n' {
      assert d[k] == l[k - m'];
    }
  }

  lemma {:induction false} LastLineOfRest(d: string, from: nat)
    requires 0 < from <= |d| && d[from - 1] == '\n'
    ensures LastLine(d[from..]) == LastLine(d)
  {
    var l := LastLine(d[from..]);
    var m := |d| - |l|;
    assert d[m..] == l;
    if m > from {
      assert d[m - 1] == d[from..][m - 1 - from];
    }
    LastLineIs(d, m);
  }

  /** The last line holds a separator, and its first is not at the end of the input. */
  predicate UnfinishedSeparator(d: string) {
    var line := LastLine(d);
    FindSep(line, 0) < |line| && FindSep(line, 0) + 5 < |line|
  }

  lemma {:induction false} LastNewlineBefore(d: string, i: nat, m: nat)
    requires SepAt(d, i) && FindNewline(d, i + 5) == |d| && m <= |d| && (m > 0 ==> d[m - 1] == '\n')
    ensures m <= i
  {
    forall k | i <= k < |d| ensures d[k] != '\n' {}
  }

  /** Separators do not cross lines: without a newline after the first separator, it is in the last line,
      and is the first there. */
  lemma {:induction false} FirstSepInLastLine(d: string)
    requires var i := FindSep(d, 0); i < |d| && FindNewline(d, i + 5) == |d|
    ensures UnfinishedSeparator(d) <==> FindSep(d, 0) + 5 < |d|
  {
    hide LastLine, FindSep, FindNewline;
    var i, line := FindSep(d, 0), LastLine(d);
    var m := |d| - |line|;
    LastNewlineBefore(d, i, m);
    hide SepAt;
    forall k | 0 <= k < i - m ensures !SepAt(line, k) {
      SepAtShift(d, m, k);
    }
    SepAtShift(d, m, i - m);
    FindSepIs(line, 0, i - m);
  }

  lemma {:induction false} SepAtShift(d: string, m: nat, k: nat)
    requires m <= |d|
    ensures SepAt(d[m..], k) == SepAt(d, m + k)
  {}

  lemma {:induction false} NoSepInLastLine(d: string)
    requires FindSep(d, 0) == |d|
    ensures !UnfinishedSeparator(d)
  {
    var line := LastLine(d);
    var m := |d| - |line|;
    forall k | 0 <= k < |line| ensures line[k] == d[m + k] {}
    var k := FindSep(line, 0);
    if k < |line| {
      assert SepAt(d, m + k);
    }
  }

  lemma {:induction false} UnfinishedInRest(d: string, from: nat)
    requires 0 < from <= |d| && d[from - 1] == '\n'
    ensures UnfinishedSeparator(d[from..]) == UnfinishedSeparator(d)
  {
    LastLineOfRest(d, from);
  }

  lemma {:induction false} LostFrom(d: string)
    ensures var i := FindSep(d, 0);
            && (i == |d| || i + 5 == |d| ==> Lost(d) == [])
            && (i + 5 < |d| ==>
                  var j := FindNewline(d, i + 5);
                  Lost(d) == if j == |d| then d else Lost(d[j + 1..]))
  {
    hide FindSep, FindNewline, SplitFunc;
    SplitCases(d);
    assert d[|d|..] == [];
    SplitCases([]);
  }

  lemma {:induction false} SplitCases(d: string)
    ensures var i, s := FindSep(d, 0), SplitFunc(d, true);
            if d == [] then s == More
            else if i == |d| || i + 5 == |d| then s.Token? && s.advance == |d|
            else
              var j := FindNewline(d, i + 5);
              if j == |d| then s == More else s.Token? && s.advance == j + 1
  {}

  /** Text is lost exactly when the last line has a separator and its first does not end the input. A later
      one there does not help: the scanner only looks at the first. */
  lemma {:induction false} LossIff(d: string)
    ensures Lost(d) != [] <==> UnfinishedSeparator(d)
    decreases |d|
  {
    hide *;
    var i := FindSep(d, 0);
    LostFrom(d);
    if i == |d| {
      NoSepInLastLine(d);
    } else if FindNewline(d, i + 5) == |d| {
      FirstSepInLastLine(d);
    } else {
      var from := FindNewline(d, i + 5) + 1;
      UnfinishedInRest(d, from);
      LossIff(d[from..]);
    }
  }

  /** So the tokens and what is skipped between them are the whole input exactly when no separator is left
      unfinished. */
  lemma {:induction false} ConservedIff(d: string)
    ensures Joined(Pieces(d)) == d <==> !UnfinishedSeparator(d)
  {
    Conserved(d);
    LossIff(d);
    if Lost(d) == [] {
      assert Joined(Pieces(d)) + [] == Joined(Pieces(d));
    } else {
      assert |Joined(Pieces(d))| < |d|;
    }
  }
}
