/**
 The server-sent event scanner of common/pkg/sse and the relay built on it: the engine cuts the
 runtime's stream into tokens and prints each one again followed by a double newline.

 `Tokens` is the meaning of a whole stream; `Split` is the code's split function, which only sees the
 bytes read so far; `Scan` is the buffered driver loop that feeds it.
 */
module Sse {
  import opened Common

  newtype byte = x: int | 0 <= x < 256

  type bytes = seq<byte>

  const CR: byte := 13
  const LF: byte := 10

  const DELIMS: seq<bytes> := [[CR, CR], [LF, LF], [CR, LF, CR, LF], [LF, LF, LF, LF]]

  const DOUBLE_NEWLINE: bytes := [LF, LF]

  predicate At(data: bytes, p: int, d: bytes) {
    0 <= p && p + |d| <= |data| && data[p..p + |d|] == d
  }

  // ---------------------------------------------------------------------------------------------
  // Whole streams.

  predicate Twin(data: bytes, p: int) {
    0 <= p && p + 2 <= |data| && data[p] == data[p + 1] && (data[p] == CR || data[p] == LF)
  }

  predicate Crossed(data: bytes, p: int) {
    0 <= p && p + 4 <= |data| && data[p] == CR && data[p + 1] == LF && data[p + 2] == CR && data[p + 3] == LF
  }

  /** The length of the first listed delimiter that starts at `p`, or 0 if none does. (The fourth
      delimiter never decides: the second starts wherever it starts.) */
  function LengthAt(data: bytes, p: int): (n: nat)
    ensures n > 0 ==> 0 <= p && 2 <= n && p + n <= |data|
  {
    if Twin(data, p) then 2 else if Crossed(data, p) then 4 else 0
  }

  ghost predicate FirstListed(data: bytes, p: int, k: int)
    requires k <= |DELIMS|
  {
    forall j :: 0 <= j < k ==> !At(data, p, DELIMS[j])
  }

  /** `LengthAt` says what the list of delimiters says. */
  lemma LengthAtIsFirstListed(data: bytes, p: int)
    ensures LengthAt(data, p) == 0 <==> FirstListed(data, p, |DELIMS|)
    ensures forall k :: 0 <= k < |DELIMS| && At(data, p, DELIMS[k]) && FirstListed(data, p, k)
              ==> LengthAt(data, p) == |DELIMS[k]|
  {
    TwoAt(data, p, DELIMS[0]);
    TwoAt(data, p, DELIMS[1]);
    FourAt(data, p, DELIMS[2]);
    FourAt(data, p, DELIMS[3]);
  }

  lemma TwoAt(data: bytes, p: int, d: bytes)
    requires |d| == 2
    ensures At(data, p, d) <==> (0 <= p && p + 2 <= |data| && data[p] == d[0] && data[p + 1] == d[1])
  {
    if 0 <= p && p + 2 <= |data| {
      assert data[p..p + 2] == [data[p], data[p + 1]];
      assert d == [d[0], d[1]];
    }
  }

  lemma FourAt(data: bytes, p: int, d: bytes)
    requires |d| == 4
    ensures At(data, p, d) <==> (0 <= p && p + 4 <= |data|
      && data[p] == d[0] && data[p + 1] == d[1] && data[p + 2] == d[2] && data[p + 3] == d[3])
  {
    if 0 <= p && p + 4 <= |data| {
      assert data[p..p + 4] == [data[p], data[p + 1], data[p + 2], data[p + 3]];
      assert d == [d[0], d[1], d[2], d[3]];
    }
  }

  /** The earliest position from `p` on where a delimiter starts, or the end of the data. */
  function Next(data: bytes, p: nat): (q: nat)
    requires p <= |data|
    ensures p <= q <= |data|
    ensures forall j :: p <= j < q ==> LengthAt(data, j) == 0
    ensures q < |data| ==> LengthAt(data, q) > 0
    decreases |data| - p
  {
    if p == |data| || LengthAt(data, p) > 0 then p else Next(data, p + 1)
  }

  /** The tokens of a whole stream: cut at the earliest delimiter, ties to the first listed one;
      what is left when there is none is the last token. */
  function Tokens(data: bytes): seq<bytes>
    decreases |data|
  {
    if data == [] then []
    else
      var p := Next(data, 0);
      if p == |data| then [data] else [data[..p]] + Tokens(data[p + LengthAt(data, p)..])
  }

  lemma NextIs(data: bytes, q: nat)
    requires q == |data| || (q < |data| && LengthAt(data, q) > 0)
    requires forall j :: 0 <= j < q ==> LengthAt(data, j) == 0
    ensures Next(data, 0) == q
  {
  }

  // ---------------------------------------------------------------------------------------------
  // The split function.

  /** The first occurrence of `d`, or -1: the library's search. */
  function Index(data: bytes, d: bytes, from: nat := 0): (n: int)
    requires from <= |data|
    ensures -1 <= n
    ensures n >= 0 ==> from <= n && At(data, n, d)
    ensures forall j :: from <= j && (n < 0 || j < n) ==> !At(data, j, d)
    decreases |data| - from
  {
    if At(data, from, d) then from
    else if from == |data| then -1
    else Index(data, d, from + 1)
  }

  /** What one call of the split function tells the driver: how far to advance, and the token if there
      is one. */
  method Split(data: bytes, atEOF: bool) returns (advance: nat, token: Option<bytes>)
    ensures data == [] ==> advance == 0 && token == None
    ensures data != [] && Next(data, 0) < |data| ==>
      var p := Next(data, 0); advance == p + LengthAt(data, p) && token == Some(data[..p])
    ensures data != [] && Next(data, 0) == |data| ==>
      if atEOF then advance == |data| && token == Some(data) else advance == 0 && token == None
  {
    if data == [] {
      return 0, None;
    }
    var pos, dlen := -1, 0;
    for i := 0 to |DELIMS|
      invariant pos == -1 || 0 <= pos < |data|
      invariant forall j, k :: 0 <= k < i && 0 <= j && (pos < 0 || j < pos) ==> !At(data, j, DELIMS[k])
      invariant pos >= 0 ==> exists k ::
        (0 <= k < i && At(data, pos, DELIMS[k]) && dlen == |DELIMS[k]| && FirstListed(data, pos, k))
    {
      var n := Index(data, DELIMS[i]);
      if pos < 0 || (n >= 0 && n < pos) {
        pos := n;
        dlen := |DELIMS[i]|;
      }
    }
    forall j | 0 <= j < (if pos < 0 then |data| else pos) ensures LengthAt(data, j) == 0 {
      LengthAtIsFirstListed(data, j);
    }
    if pos >= 0 {
      LengthAtIsFirstListed(data, pos);
      NextIs(data, pos);
      return pos + dlen, Some(data[..pos]);
    }
    if !atEOF {
      return 0, None;
    }
    return |data|, Some(data);
  }

  // ---------------------------------------------------------------------------------------------
  // The driver loop.

  function Flatten(chunks: seq<bytes>): bytes {
    if chunks == [] then [] else chunks[0] + Flatten(chunks[1..])
  }

  /** A delimiter found in a prefix is never superseded when more bytes arrive. */
  lemma FoundIsStable(data: bytes, more: bytes)
    requires Next(data, 0) < |data|
    ensures Next(data + more, 0) == Next(data, 0)
    ensures LengthAt(data + more, Next(data, 0)) == LengthAt(data, Next(data, 0))
    ensures data != []
  {
    forall j | 0 <= j < Next(data, 0) ensures LengthAt(data + more, j) == 0 {
      assert LengthAt(data, j) == 0;
    }
    NextIs(data + more, Next(data, 0));
  }

  lemma CutFirst(data: bytes, more: bytes)
    requires Next(data, 0) < |data|
    ensures var p := Next(data, 0);
            Tokens(data + more) == [data[..p]] + Tokens(data[p + LengthAt(data, p)..] + more)
  {
    var p := Next(data, 0);
    FoundIsStable(data, more);
    assert (data + more)[..p] == data[..p];
    assert (data + more)[p + LengthAt(data, p)..] == data[p + LengthAt(data, p)..] + more;
  }

  /** One call of the split function by the driver: a token is the first of what is left. */
  method FirstToken(buf: bytes, atEOF: bool, ghost rest: bytes) returns (advance: nat, token: Option<bytes>)
    requires atEOF ==> rest == []
    ensures advance <= |buf|
    ensures token.Some? ==> buf != [] && advance > 0 && Tokens(buf + rest) == [token.value] + Tokens(buf[advance..] + rest)
    ensures token.None? && atEOF ==> buf == []
  {
    advance, token := Split(buf, atEOF);
    if token.Some? {
      if Next(buf, 0) < |buf| {
        CutFirst(buf, rest);
      } else {
        assert buf + rest == buf && buf[advance..] + rest == [];
      }
    }
  }

  lemma ReadMore(buf: bytes, chunks: seq<bytes>, next: nat)
    requires next < |chunks|
    ensures buf + Flatten(chunks[next..]) == (buf + chunks[next]) + Flatten(chunks[next + 1..])
  {
    assert chunks[next..] == [chunks[next]] + chunks[next + 1..];
    assert buf + (chunks[next] + Flatten(chunks[next + 1..])) == buf + chunks[next] + Flatten(chunks[next + 1..]);
  }

  /** Tokenization does not depend on chunking: however the stream is cut into reads, the driver
      delivers the tokens of the whole stream. A read may be empty; the end of the stream is only seen
      after the last read. */
  method Scan(chunks: seq<bytes>) returns (tokens: seq<bytes>)
    ensures tokens == Tokens(Flatten(chunks))
  {
    tokens := [];
    var buf, next := [], 0;
    assert chunks[0..] == chunks && buf + Flatten(chunks) == Flatten(chunks);
    while true
      invariant next <= |chunks|
      invariant tokens + Tokens(buf + Flatten(chunks[next..])) == Tokens(Flatten(chunks))
      decreases |chunks| - next, |buf|
    {
      var atEOF := next == |chunks|;
      if buf != [] || atEOF {
        ghost var rest := Flatten(chunks[next..]);
        var advance, token := FirstToken(buf, atEOF, rest);
        if token.Some? {
          assert tokens + ([token.value] + Tokens(buf[advance..] + rest)) == tokens + [token.value] + Tokens(buf[advance..] + rest);
          tokens := tokens + [token.value];
          buf := buf[advance..];
          continue;
        }
      }
      if atEOF {
        assert buf + Flatten(chunks[next..]) == [];
        break;
      }
      ReadMore(buf, chunks, next);
      buf := buf + chunks[next];
      next := next + 1;
    }
  }

  // ---------------------------------------------------------------------------------------------
  // The relay.

  function Reprint(tokens: seq<bytes>): bytes {
    if tokens == [] then [] else tokens[0] + DOUBLE_NEWLINE + Reprint(tokens[1..])
  }

  predicate EndsWith(t: bytes, suffix: bytes) {
    |suffix| <= |t| && t[|t| - |suffix|..] == suffix
  }

  /** A token the relay can carry: no delimiter in it, and none that straddles its end once a double
      newline follows. */
  predicate Clean(t: bytes) {
    Next(t, 0) == |t| && !EndsWith(t, [LF]) && !EndsWith(t, [CR, LF, CR])
  }

  ghost predicate AllClean(tokens: seq<bytes>) {
    forall i :: 0 <= i < |tokens| ==> Clean(tokens[i])
  }

  lemma CleanMeansCutAtEnd(t: bytes)
    ensures Next(t + DOUBLE_NEWLINE, 0) <= |t|
    ensures Clean(t) <==> Next(t + DOUBLE_NEWLINE, 0) == |t|
    ensures LengthAt(t + DOUBLE_NEWLINE, |t|) == 2
  {
    var x := t + DOUBLE_NEWLINE;
    forall j | 0 <= j < |t| ensures LengthAt(x, j) > 0 <==> LengthAt(t, j) > 0 || Straddles(t, j) {
      AtTheSeam(t, j);
    }
    CleanBytes(t);
    if Next(t, 0) < |t| {
      FoundIsStable(t, DOUBLE_NEWLINE);
    } else {
      CutAtSeam(t);
    }
  }

  lemma CutAtSeam(t: bytes)
    requires Next(t, 0) == |t|
    requires forall j :: 0 <= j < |t| ==> (LengthAt(t + DOUBLE_NEWLINE, j) > 0 <==> Straddles(t, j))
    requires LengthAt(t + DOUBLE_NEWLINE, |t|) == 2
    ensures Next(t + DOUBLE_NEWLINE, 0) <= |t|
    ensures Next(t + DOUBLE_NEWLINE, 0) == |t| <==> forall j :: 0 <= j < |t| ==> !Straddles(t, j)
  {
    if forall j :: 0 <= j < |t| ==> !Straddles(t, j) {
      NextIs(t + DOUBLE_NEWLINE, |t|);
    }
  }

  lemma CleanBytes(t: bytes)
    ensures !EndsWith(t, [LF]) && !EndsWith(t, [CR, LF, CR]) <==> forall j :: 0 <= j < |t| ==> !Straddles(t, j)
  {
    LastBytes(t);
    assert EndsWith(t, [LF]) <==> Straddles(t, |t| - 1);
    assert EndsWith(t, [CR, LF, CR]) <==> Straddles(t, |t| - 3);
  }

  /** A delimiter that starts at `j` in the token and ends in the double newline after it. */
  predicate Straddles(t: bytes, j: int) {
    || (0 <= j == |t| - 1 && t[j] == LF)
    || (0 <= j == |t| - 3 && t[j] == CR && t[j + 1] == LF && t[j + 2] == CR)
  }

  lemma AtTheSeam(t: bytes, j: nat)
    requires j < |t|
    ensures LengthAt(t + DOUBLE_NEWLINE, j) > 0 <==> LengthAt(t, j) > 0 || Straddles(t, j)
  {
  }

  lemma LastBytes(t: bytes)
    ensures EndsWith(t, [LF]) <==> |t| >= 1 && t[|t| - 1] == LF
    ensures EndsWith(t, [CR, LF, CR]) <==> |t| >= 3 && t[|t| - 3] == CR && t[|t| - 2] == LF && t[|t| - 1] == CR
  {
    LastByte(t, LF);
    LastThree(t, [CR, LF, CR]);
  }

  lemma LastByte(t: bytes, b: byte)
    ensures EndsWith(t, [b]) <==> |t| >= 1 && t[|t| - 1] == b
  {
    if |t| >= 1 {
      assert t[|t| - 1..] == [t[|t| - 1]];
    }
  }

  lemma LastThree(t: bytes, d: bytes)
    requires |d| == 3
    ensures EndsWith(t, d) <==> |t| >= 3 && t[|t| - 3] == d[0] && t[|t| - 2] == d[1] && t[|t| - 1] == d[2]
  {
    if |t| >= 3 {
      assert t[|t| - 3..] == [t[|t| - 3], t[|t| - 2], t[|t| - 1]];
      assert d == [d[0], d[1], d[2]];
    }
  }

  /** Re-scanning what the relay prints gives back the printed tokens exactly when every one of them
      is clean. */
  lemma {:induction false} RescanIffClean(tokens: seq<bytes>)
    ensures Tokens(Reprint(tokens)) == tokens <==> AllClean(tokens)
  {
    if tokens != [] {
      var t, rest := tokens[0], tokens[1..];
      RescanIffClean(rest);
      PrependClean(t, rest);
      assert tokens == [t] + rest;
      RescanFirst(t, rest);
    }
  }

  lemma RescanFirst(t: bytes, rest: seq<bytes>)
    ensures Tokens(t + DOUBLE_NEWLINE + Reprint(rest)) == [t] + rest
       <==> Clean(t) && Tokens(Reprint(rest)) == rest
  {
    if Clean(t) {
      CarriedWhole(t, Reprint(rest));
      assert ([t] + Tokens(Reprint(rest)))[1..] == Tokens(Reprint(rest)) && ([t] + rest)[1..] == rest;
    } else {
      CutShort(t, Reprint(rest));
      assert ([t] + rest)[0] == t;
    }
  }

  lemma CarriedWhole(t: bytes, more: bytes)
    requires Clean(t)
    ensures Tokens(t + DOUBLE_NEWLINE + more) == [t] + Tokens(more)
  {
    var x := t + DOUBLE_NEWLINE;
    CleanMeansCutAtEnd(t);
    CutFirst(x, more);
    assert x[..|t|] == t && x[|t| + 2..] + more == more;
  }

  lemma CutShort(t: bytes, more: bytes)
    requires !Clean(t)
    ensures Tokens(t + DOUBLE_NEWLINE + more) != [] && |Tokens(t + DOUBLE_NEWLINE + more)[0]| < |t|
  {
    CleanMeansCutAtEnd(t);
    CutFirst(t + DOUBLE_NEWLINE, more);
  }

  /** What the scanner delivers only because the stream ended. */
  function Leftover(data: bytes): bytes
    decreases |data|
  {
    if data == [] then []
    else
      var p := Next(data, 0);
      if p == |data| then data else Leftover(data[p + LengthAt(data, p)..])
  }

  ghost predicate NoCR(data: bytes) {
    forall i :: 0 <= i < |data| ==> data[i] != CR
  }

  /** For a stream without carriage returns, the relay prints the stream itself, closed by a double
      newline if its last event was not ... */
  lemma {:induction false} RelayBytes(data: bytes)
    requires NoCR(data)
    ensures Reprint(Tokens(data)) == data + Closing(data)
    decreases |data|
  {
    if data != [] {
      var p := Next(data, 0);
      if p == |data| {
        PrependClean(data, []);
        assert [data] + [] == [data] && data + DOUBLE_NEWLINE + [] == data + DOUBLE_NEWLINE;
      } else {
        FinishedByDoubleNewline(data, p);
        var rest := data[p + 2..];
        RelayBytes(rest);
        PrependClean(data[..p], Tokens(rest));
        assert data[..p] + DOUBLE_NEWLINE + (rest + Closing(rest)) == data + Closing(rest);
      }
    }
  }

  function Closing(data: bytes): bytes {
    if Leftover(data) == [] then [] else DOUBLE_NEWLINE
  }

  /** ... and only an unfinished event can fail to be clean. */
  lemma {:induction false} RelayClean(data: bytes)
    requires NoCR(data)
    ensures AllClean(Tokens(data)) <==> !EndsWith(Leftover(data), [LF])
    decreases |data|
  {
    if data != [] {
      var p := Next(data, 0);
      if p == |data| {
        PrependClean(data, []);
        assert [data] + [] == [data];
        LastBytes(data);
      } else {
        FinishedByDoubleNewline(data, p);
        FinishedIsClean(data, p);
        RelayClean(data[p + 2..]);
        PrependClean(data[..p], Tokens(data[p + 2..]));
      }
    }
  }

  lemma PrependClean(t: bytes, ts: seq<bytes>)
    ensures Reprint([t] + ts) == t + DOUBLE_NEWLINE + Reprint(ts)
    ensures AllClean([t] + ts) <==> Clean(t) && AllClean(ts)
  {
    assert ([t] + ts)[1..] == ts;
    assert forall i :: 0 <= i < |ts| ==> ts[i] == ([t] + ts)[i + 1];
  }

  /** Without carriage returns the first delimiter is a double newline ... */
  lemma FinishedByDoubleNewline(data: bytes, p: nat)
    requires NoCR(data) && p < |data| && Next(data, 0) == p
    ensures Twin(data, p) && data[p] == LF && LengthAt(data, p) == 2
    ensures data[p..p + 2] == DOUBLE_NEWLINE && data == data[..p] + DOUBLE_NEWLINE + data[p + 2..]
  {
    assert LengthAt(data, p) > 0;
    assert data[p] != CR;
    TwinIsNewline(data, p);
  }

  lemma TwinIsNewline(data: bytes, p: nat)
    requires Twin(data, p) && data[p] == LF
    ensures data[p..p + 2] == DOUBLE_NEWLINE && data == data[..p] + DOUBLE_NEWLINE + data[p + 2..]
  {
  }

  /** ... and what it finishes is clean. */
  lemma FinishedIsClean(data: bytes, p: nat)
    requires NoCR(data) && p < |data| && Next(data, 0) == p && Twin(data, p)
    ensures Clean(data[..p])
  {
    NoneEarlier(data, p);
    LastBytes(data[..p]);
    if p > 0 {
      assert !Twin(data, p - 1);
      assert data[p] != CR && data[p - 1] != CR;
    }
  }

  lemma NoneEarlier(data: bytes, p: nat)
    requires p < |data| && Next(data, 0) == p
    ensures Next(data[..p], 0) == p
    ensures forall j :: 0 <= j < p ==> !Twin(data, j)
  {
    forall j | 0 <= j < p ensures LengthAt(data[..p], j) == 0 && !Twin(data, j) {
      assert LengthAt(data, j) == 0;
    }
    NextIs(data[..p], p);
  }

  /** The relay gives back the same bytes exactly when every event of the stream is finished. */
  lemma RelayIsIdentity(data: bytes)
    requires NoCR(data)
    ensures Reprint(Tokens(data)) == data <==> Leftover(data) == []
    ensures Tokens(Reprint(Tokens(data))) == Tokens(data) <==> !EndsWith(Leftover(data), [LF])
  {
    RelayBytes(data);
    RelayClean(data);
    RescanIffClean(Tokens(data));
  }
}
