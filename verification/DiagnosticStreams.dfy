/**
The bounded line splitter behind restic's diagnostics: whatever pieces the output
arrives in, the same records come out.
*/
module DiagnosticStreams {
  newtype byte = x: int | 0 <= x < 256

  const NEWLINE: byte := 10
  const MAX_RECORD: nat := 0x10_0000

  /** A line handed on for interpretation, or a line dropped for its length. */
  datatype Event = Record(line: seq<byte>) | Overflow

  datatype State = State(pending: seq<byte>, discarding: bool, events: seq<Event>)

  const INITIAL := State([], false, [])

  predicate Bounded(s: State) {
    |s.pending| <= MAX_RECORD && (s.discarding ==> s.pending == [])
  }

  /** The automaton that sees one byte at a time. */
  function Feed(s: State, b: byte): (r: State)
    requires Bounded(s)
    ensures Bounded(r)
  {
    var s' := if s.discarding then s
              else if |s.pending| + 1 > MAX_RECORD then State([], true, s.events + [Overflow])
              else s.(pending := s.pending + [b]);
    if b == NEWLINE then State([], false, if s'.discarding then s'.events else s'.events + [Record(s'.pending)])
    else s'
  }

  function FeedAll(s: State, data: seq<byte>): (r: State)
    requires Bounded(s)
    ensures Bounded(r)
    decreases |data|
  {
    if data == [] then s else FeedAll(Feed(s, data[0]), data[1..])
  }

  function Finish(s: State): State {
    State([], s.discarding, if |s.pending| > 0 && !s.discarding then s.events + [Record(s.pending)] else s.events)
  }

  /** What the stream promises about the complete output: one event per line, in order. */
  function Lines(data: seq<byte>): (r: seq<Event>)
    decreases |data|
  {
    if data == [] then []
    else
      var n := FirstLine(data);
      [EventOf(data[..n])] + Lines(data[n..])
  }

  /** The length of the first line, with its newline if it has one. */
  function FirstLine(data: seq<byte>): (n: nat)
    requires data != []
    ensures 0 < n <= |data|
    ensures NEWLINE !in data[..n - 1]
    ensures data[n - 1] == NEWLINE || n == |data|
  {
    if data[0] == NEWLINE || |data| == 1 then 1
    else
      var n := 1 + FirstLine(data[1..]);
      assert data[..n - 1] == [data[0]] + data[1..][..n - 2];
      n
  }

  lemma {:induction false} FeedSplit(s: State, a: seq<byte>, b: seq<byte>)
    requires Bounded(s)
    ensures FeedAll(s, a + b) == FeedAll(FeedAll(s, a), b)
    decreases |a|
  {
    if a == [] {
      assert a + b == b;
    } else {
      assert (a + b)[1..] == a[1..] + b;
      FeedSplit(Feed(s, a[0]), a[1..], b);
    }
  }

  /** A piece without a newline is kept or dropped as a whole. */
  lemma {:induction false} FeedPiece(s: State, piece: seq<byte>)
    requires Bounded(s) && NEWLINE !in piece
    ensures FeedAll(s, piece) ==
      if s.discarding then s
      else if |s.pending| + |piece| > MAX_RECORD then State([], true, s.events + [Overflow])
      else s.(pending := s.pending + piece)
    decreases |piece|
  {
    if piece != [] {
      FeedPiece(Feed(s, piece[0]), piece[1..]);
      if !s.discarding && |s.pending| + |piece| <= MAX_RECORD {
        assert s.pending + piece == (s.pending + [piece[0]]) + piece[1..];
      }
    } else {
      assert s.pending + piece == s.pending;
    }
  }

  /** A piece that ends a line. */
  lemma {:induction false} FeedLine(s: State, piece: seq<byte>)
    requires Bounded(s) && NEWLINE !in piece
    ensures FeedAll(s, piece + [NEWLINE]) ==
      State([], false,
        if s.discarding then s.events
        else if |s.pending| + |piece| + 1 > MAX_RECORD then s.events + [Overflow]
        else s.events + [Record(s.pending + piece + [NEWLINE])])
  {
    FeedSplit(s, piece, [NEWLINE]);
    FeedPiece(s, piece);
    var s' := FeedAll(s, piece);
    assert [NEWLINE][1..] == [];
    assert FeedAll(s', [NEWLINE]) == Feed(s', NEWLINE);
  }

  lemma WithoutNewline(data: seq<byte>)
    requires data != [] && data[FirstLine(data) - 1] != NEWLINE
    ensures NEWLINE !in data
  {
    var n := FirstLine(data);
    forall i | 0 <= i < |data| ensures data[i] != NEWLINE {
      assert i < n - 1 ==> data[i] in data[..n - 1];
    }
  }

  /** An unterminated last line. */
  lemma FeedLastLine(data: seq<byte>, events: seq<Event>)
    requires data != [] && NEWLINE !in data
    ensures Finish(FeedAll(State([], false, events), data)).events == events + Lines(data)
  {
    assert FirstLine(data) == |data|;
    assert data[..|data|] == data && data[|data|..] == [];
    FeedPiece(State([], false, events), data);
    assert [] + data == data;
  }

  function EventOf(line: seq<byte>): Event {
    if |line| <= MAX_RECORD then Record(line) else Overflow
  }

  lemma FeedWholeLine(piece: seq<byte>, events: seq<Event>)
    requires NEWLINE !in piece
    ensures FeedAll(State([], false, events), piece + [NEWLINE]) ==
      State([], false, events + [EventOf(piece + [NEWLINE])])
  {
    FeedLine(State([], false, events), piece);
    assert [] + piece == piece;
  }

  lemma FeedLineAndRest(line: seq<byte>, rest: seq<byte>, events: seq<Event>)
    requires line != [] && NEWLINE !in line[..|line| - 1] && line[|line| - 1] == NEWLINE
    ensures FeedAll(State([], false, events), line + rest) == FeedAll(State([], false, events + [EventOf(line)]), rest)
  {
    assert line[..|line| - 1] + [NEWLINE] == line;
    FeedWholeLine(line[..|line| - 1], events);
    FeedSplit(State([], false, events), line, rest);
  }

  /** A terminated first line. */
  lemma FeedFirstLine(data: seq<byte>, n: nat, events: seq<Event>)
    requires 0 < n <= |data| && NEWLINE !in data[..n - 1] && data[n - 1] == NEWLINE
    ensures FeedAll(State([], false, events), data) ==
      FeedAll(State([], false, events + [EventOf(data[..n])]), data[n..])
  {
    assert data == data[..n] + data[n..];
    assert data[..n][..n - 1] == data[..n - 1];
    FeedLineAndRest(data[..n], data[n..], events);
  }

  /** The automaton produces exactly one event per line of the output. */
  lemma {:induction false} FeedMatchesLines(data: seq<byte>, events: seq<Event>)
    ensures Finish(FeedAll(State([], false, events), data)).events == events + Lines(data)
    decreases |data|
  {
    if data == [] {
      assert events + [] == events;
    } else {
      var n := FirstLine(data);
      if data[n - 1] == NEWLINE {
        var event := EventOf(data[..n]);
        FeedFirstLine(data, n, events);
        FeedMatchesLines(data[n..], events + [event]);
        assert events + ([event] + Lines(data[n..])) == (events + [event]) + Lines(data[n..]);
      } else {
        WithoutNewline(data);
        FeedLastLine(data, events);
      }
    }
  }

  function Concat(chunks: seq<seq<byte>>): seq<byte> {
    if chunks == [] then [] else chunks[0] + Concat(chunks[1..])
  }

  /** The stream object of one restic invocation. */
  class Stream {
    var pending: seq<byte>
    var discarding: bool
    var events: seq<Event>

    function Current(): State reads this { State(pending, discarding, events) }

    constructor ()
      ensures Current() == INITIAL && fresh(this)
    {
      pending, discarding, events := [], false, [];
    }

    /** `Write`: cut the data at newlines; keep, hand on or drop piece by piece. */
    method Write(data: seq<byte>)
      requires Bounded(Current())
      modifies this
      ensures Bounded(Current()) && Current() == FeedAll(old(Current()), data)
    {
      var rest := data;
      while |rest| > 0
        invariant Bounded(Current()) && FeedAll(Current(), rest) == FeedAll(old(Current()), data)
        decreases |rest|
      {
        var amount := FirstLine(rest);
        var ends := rest[amount - 1] == NEWLINE;
        ghost var before, piece := Current(), rest[..amount];
        assert rest == rest[..amount] + rest[amount..];
        FeedSplit(before, rest[..amount], rest[amount..]);
        if ends {
          assert piece == rest[..amount - 1] + [NEWLINE];
          assert before.pending + piece == before.pending + rest[..amount - 1] + [NEWLINE];
          FeedLine(before, rest[..amount - 1]);
        } else {
          assert piece == rest[..amount - 1] + [rest[amount - 1]];
          FeedPiece(before, piece);
        }
        if !discarding {
          if |pending| + amount > MAX_RECORD {
            events := events + [Overflow];
            pending, discarding := [], true;
          } else {
            pending := pending + rest[..amount];
          }
        }
        rest := rest[amount..];
        if ends {
          if !discarding { events := events + [Record(pending)]; }
          pending, discarding := [], false;
        }
        assert Current() == FeedAll(before, piece);
      }
    }

    /** `finish`: an unterminated last line still counts. */
    method Close()
      modifies this
      ensures Current() == Finish(old(Current()))
    {
      if |pending| > 0 && !discarding {
        events := events + [Record(pending)];
      }
      pending := [];
    }
  }

  /** Feed a stream any pieces of an output: the events are the output's lines. */
  method Interpret(chunks: seq<seq<byte>>) returns (events: seq<Event>)
    ensures events == Lines(Concat(chunks))
  {
    var stream := new Stream();
    for i := 0 to |chunks|
      invariant Bounded(stream.Current())
      invariant FeedAll(stream.Current(), Concat(chunks[i..])) == FeedAll(INITIAL, Concat(chunks))
    {
      assert chunks[i..][1..] == chunks[i + 1..];
      FeedSplit(stream.Current(), chunks[i], Concat(chunks[i + 1..]));
      stream.Write(chunks[i]);
    }
    stream.Close();
    FeedMatchesLines(Concat(chunks), []);
    events := stream.events;
  }
}
