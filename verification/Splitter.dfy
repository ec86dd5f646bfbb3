/** Splitting a downloaded file into compose documents: `SplitFunc` and the scanner loop that drives it
    (utils/file/file.go, and Go's bufio.Scanner around it). A string here is a string of bytes. */
module Splitter {

  const SEPARATOR := "#---#"

  predicate SepAt(d: string, i: int) {
    0 <= i && i + 5 <= |d| && d[i] == '#' && d[i + 1] == '-' && d[i + 2] == '-' && d[i + 3] == '-' && d[i + 4] == '#'
  }

  lemma {:induction false} SepAtIsSlice(d: string, i: nat)
    requires i + 5 <= |d|
    ensures SepAt(d, i) <==> d[i..i + |SEPARATOR|] == SEPARATOR
  {
    var piece := d[i..i + 5];
    forall k | 0 <= k < 5 ensures piece[k] == d[i + k] {}
    if SepAt(d, i) {
      assert piece[0] == '#' && piece[1] == '-' && piece[2] == '-' && piece[3] == '-' && piece[4] == '#';
      assert piece == SEPARATOR;
    }
  }

  ghost predicate HasSep(d: string) {
    exists i :: SepAt(d, i)
  }

  /** The first separator at or after `from`, or the length of the data. */
  function FindSep(d: string, from: nat): (i: nat)
    requires from <= |d|
    ensures from <= i <= |d|
    ensures i < |d| ==> SepAt(d, i) && i + 5 <= |d|
    ensures forall k :: from <= k < i ==> !SepAt(d, k)
    decreases |d| - from
  {
    if from == |d| || SepAt(d, from) then from else FindSep(d, from + 1)
  }

  /** The first newline at or after `from`, or the length of the data. */
  function FindNewline(d: string, from: nat): (j: nat)
    requires from <= |d|
    ensures from <= j <= |d|
    ensures j < |d| ==> d[j] == '\n'
    ensures forall k :: from <= k < j ==> d[k] != '\n'
    decreases |d| - from
  {
    if from == |d| || d[from] == '\n' then from else FindNewline(d, from + 1)
  }

  /** What a split function tells the scanner: read more, or consume and return a token. */
  datatype Split = More | Token(advance: nat, token: string)

  function SplitFunc(data: string, atEOF: bool): (s: Split)
    ensures s.Token? ==> 0 < s.advance <= |data| && |s.token| <= s.advance
  {
    if atEOF && data == [] then More
    else
      var i := FindSep(data, 0);
      if i < |data| then
        var after := i + |SEPARATOR|;
        if after == |data| then
          if atEOF then Token(|data|, data[..|data| - |SEPARATOR|]) else More
        else
          var j := FindNewline(data, after);
          if j < |data| then Token(j + 1, data[..i]) else More
      else if atEOF then Token(|data|, data)
      else More
  }

  // ---------------------------------------------------------------- reading in chunks

  lemma {:induction false} FindSepIs(d: string, from: nat, i: nat)
    requires from <= i <= |d|
    requires i < |d| ==> SepAt(d, i)
    requires forall k :: from <= k < i ==> !SepAt(d, k)
    ensures FindSep(d, from) == i
  {}

  lemma {:induction false} FindNewlineIs(d: string, from: nat, j: nat)
    requires from <= j <= |d|
    requires j < |d| ==> d[j] == '\n'
    requires forall k :: from <= k < j ==> d[k] != '\n'
    ensures FindNewline(d, from) == j
  {}

  /** A token found before the end of the input stays what it is, however much follows and whether or not
      the end of the input has been seen. */
  lemma {:induction false} TokenUnchangedByMore(data: string, more: string, atEOF: bool)
    requires SplitFunc(data, false).Token?
    ensures SplitFunc(data + more, atEOF) == SplitFunc(data, false)
  {
    var d, i := data + more, FindSep(data, 0);
    var j := FindNewline(data, i + 5);
    forall k | 0 <= k < |data| ensures d[k] == data[k] {}
    forall k | 0 <= k < i ensures !SepAt(d, k) {
      assert !SepAt(data, k);
    }
    FindSepIs(d, 0, i);
    FindNewlineIs(d, i + 5, j);
    assert d[..i] == data[..i];
  }

  /** The split of a whole input. */
  function Tokens(d: string): seq<string>
    decreases |d|
  {
    match SplitFunc(d, true)
    case More => []
    case Token(advance, token) => [token] + Tokens(d[advance..])
  }

  function Concat(chunks: seq<string>): string {
    if chunks == [] then [] else chunks[0] + Concat(chunks[1..])
  }

  /** Go's scanner over a reader that hands out its input in arbitrary pieces, empty ones included, and
      may report the end together with the last piece. */
  class Scanner {
    var buffer: string
    var unread: seq<string>
    var atEOF: bool
    const eager: bool

    constructor (chunks: seq<string>, eager: bool)
      ensures Valid() && Rest() == Concat(chunks)
    {
      this.buffer, this.unread, this.atEOF, this.eager := [], chunks, false, eager;
      new;
      assert [] + Concat(chunks) == Concat(chunks);
    }

    ghost predicate Valid()
      reads this
    {
      atEOF ==> unread == []
    }

    /** The input not yet consumed. */
    ghost function Rest(): string
      reads this
    {
      buffer + Concat(unread)
    }

    method Read()
      requires Valid() && !atEOF
      modifies this
      ensures Valid() && Rest() == old(Rest())
      ensures atEOF || |unread| < old(|unread|)
    {
      if unread == [] {
        atEOF := true;
      } else {
        assert buffer + (unread[0] + Concat(unread[1..])) == (buffer + unread[0]) + Concat(unread[1..]);
        buffer, unread := buffer + unread[0], unread[1..];
        atEOF := eager && unread == [];
      }
    }

    /** `Scan`: the next token of the input, whatever the sizes of the reads. */
    method Scan() returns (ok: bool, token: string)
      requires Valid()
      modifies this
      ensures Valid()
      ensures ok ==> Tokens(old(Rest())) == [token] + Tokens(Rest()) && |Rest()| < |old(Rest())|
      ensures !ok ==> Tokens(old(Rest())) == []
    {
      ghost var rest := Rest();
      while true
        invariant Valid() && Rest() == rest
        decreases |unread|, !atEOF
      {
        if |buffer| > 0 || atEOF {
          var s := SplitFunc(buffer, atEOF);
          if s.Token? {
            FirstTokenOf(buffer, Concat(unread), atEOF);
            buffer := buffer[s.advance..];
            return true, s.token;
          }
        }
        if atEOF {
          assert rest == buffer;
          return false, "";
        }
        Read();
      }
    }
  }

  /** A token of the buffer is the first token of the whole input. */
  lemma {:induction false} FirstTokenOf(buffer: string, unread: string, atEOF: bool)
    requires SplitFunc(buffer, atEOF).Token? && (atEOF ==> unread == [])
    ensures var s := SplitFunc(buffer, atEOF);
            Tokens(buffer + unread) == [s.token] + Tokens(buffer[s.advance..] + unread)
  {
    var s, d := SplitFunc(buffer, atEOF), buffer + unread;
    if atEOF {
      assert d == buffer;
    } else {
      TokenUnchangedByMore(buffer, unread, true);
    }
    assert d[s.advance..] == buffer[s.advance..] + unread;
  }

  /** The scanner loop of `SplitYAML`: however the reads are cut, the tokens are those of the whole input. */
  method SplitAll(chunks: seq<string>, eager: bool) returns (tokens: seq<string>)
    ensures tokens == Tokens(Concat(chunks))
  {
    hide *;
    var scanner := new Scanner(chunks, eager);
    tokens := [];
    ghost var all := Tokens(Concat(chunks));
    while true
      invariant scanner.Valid() && fresh(scanner)
      invariant all == tokens + Tokens(scanner.Rest())
      decreases |scanner.Rest()|
    {
      ghost var left := Tokens(scanner.Rest());
      var ok, token := scanner.Scan();
      if !ok {
        assert tokens + [] == tokens;
        return;
      }
      assert tokens + ([token] + Tokens(scanner.Rest())) == (tokens + [token]) + Tokens(scanner.Rest());
      tokens := tokens + [token];
    }
  }
}
