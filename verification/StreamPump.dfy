/** Forwarding an upstream's event stream to the caller (internal/gateway/chat.go) while counting what is
    passed on.  Lines arrive decoded; every write may fail. */
module StreamPump {
  import opened Lists
  import opened Tokenizer
  import opened Utf8
  import A = AnthropicStream

  /** One chunk in the gateway's own form and the text that is counted for it. */
  datatype Piece = Piece(chunk: A.Chunk, delta: seq<Byte>)

  /** A line of the upstream: a report that the account cannot pay, or the pieces it stands for. */
  datatype Line = OutOfBalance | Pieces(pieces: seq<Piece>)

  /** What reaches the caller. */
  datatype Out = Raw(piece: Piece) | Event(event: A.Event) | DoneMark | LimitMark

  datatype Problem = NoProblem | Balance(streamed: bool) | WriteFailed | ReadFailed

  datatype Result = Result(completionTokens: nat, overLimit: bool, problem: Problem)

  /** The caller's protocol and limit: `rewrites` for Anthropic events, `converts` for an Anthropic upstream
      behind a plain protocol; a zero cap means that no limit was declared. */
  datatype Options = Options(rewrites: bool, converts: bool, promptTokens: nat, cap: nat)

  // ---------------------------------------------------------------------------------------------
  // What the pump stands for
  // ---------------------------------------------------------------------------------------------

  function MeterOf(pieces: seq<Piece>): Meter {
    if pieces == [] then EMPTY else Fed(MeterOf(pieces[..|pieces| - 1]), pieces[|pieces| - 1].delta)
  }

  /** Tokens of the texts of some pieces, read off the streaming counter. */
  function Counted(pieces: seq<Piece>): nat {
    Reading(MeterOf(pieces))
  }

  function PiecesOf(lines: seq<Line>): seq<Piece> {
    if lines == [] then []
    else
      var before, last := PiecesOf(lines[..|lines| - 1]), lines[|lines| - 1];
      if last.Pieces? then before + last.pieces else before
  }

  predicate OverCap(pieces: seq<Piece>, cap: nat) {
    cap > 0 && Counted(pieces) > cap
  }

  /** The pump reads no further than this line. */
  predicate Ends(lines: seq<Line>, k: nat, cap: nat)
    requires k < |lines|
  {
    lines[k].OutOfBalance? || OverCap(PiecesOf(lines[..k + 1]), cap)
  }

  function ChunksOf(pieces: seq<Piece>): seq<A.Chunk> {
    seq(|pieces|, i requires 0 <= i < |pieces| => pieces[i].chunk)
  }

  function AsEvents(events: seq<A.Event>): seq<Out> {
    seq(|events|, i requires 0 <= i < |events| => Event(events[i]))
  }

  function AsRaw(pieces: seq<Piece>): seq<Out> {
    seq(|pieces|, i requires 0 <= i < |pieces| => Raw(pieces[i]))
  }

  /** What the caller has been sent for some pieces. */
  function SentFor(o: Options, pieces: seq<Piece>): seq<Out> {
    if o.rewrites then AsEvents(A.RewrittenAll(A.Initial(o.promptTokens), ChunksOf(pieces)).0) else AsRaw(pieces)
  }

  /** The whole response when the stream is finished: by itself, or over the limit. */
  function Response(o: Options, pieces: seq<Piece>, overLimit: bool): seq<Out> {
    if o.rewrites
    then AsEvents(A.Stream(
      o.promptTokens, ChunksOf(pieces), if overLimit then Some("max_tokens") else None, Counted(pieces)))
    else AsRaw(pieces) + (if overLimit then [LimitMark] else if o.converts then [DoneMark] else [])
  }

  // ---------------------------------------------------------------------------------------------
  // The pump
  // ---------------------------------------------------------------------------------------------

  class Pump {
    const options: Options
    const fails: nat -> bool
    const counter: Counter
    const rewriter: A.Rewriter
    var started: bool
    var attempts: nat
    var written: seq<Out>
    ghost var emitted: seq<Piece>

    constructor (options: Options, fails: nat -> bool)
      ensures Fresh() && this.options == options && this.fails == fails
      ensures fresh(counter) && fresh(rewriter)
    {
      this.options, this.fails := options, fails;
      counter := new Counter();
      rewriter := new A.Rewriter(options.promptTokens);
      started, attempts, written, emitted := false, 0, [], [];
    }

    ghost predicate Fresh()
      reads this, counter, rewriter
    {
      !started && written == [] && attempts == 0 && emitted == [] && counter.State() == EMPTY
        && rewriter.View() == A.Initial(options.promptTokens)
    }

    /** Counter and rewriter have seen exactly the pieces passed on. */
    ghost predicate Metering()
      reads this, counter, rewriter
    {
      && counter.State() == MeterOf(emitted)
      && (options.rewrites ==> rewriter.View() == A.RewrittenAll(A.Initial(options.promptTokens), ChunksOf(emitted)).1)
    }

    /** No write has failed so far. */
    ghost predicate Intact()
      reads this, counter, rewriter
    {
      Metering() && written == SentFor(options, emitted) && (started <==> written != []) && AllWritten()
    }

    ghost predicate AllWritten()
      reads this
    {
      attempts == |written| && forall n :: 0 <= n < attempts ==> !fails(n)
    }

    /** The last write failed, all before it were done, and they are the beginning of a response. */
    ghost predicate BrokeOff(whole: seq<Out>)
      reads this
    {
      && 0 < attempts <= |whole| && fails(attempts - 1) && (forall n :: 0 <= n < attempts - 1 ==> !fails(n))
      && written == whole[..attempts - 1]
    }

    lemma BrokeOffSooner(part: seq<Out>, whole: seq<Out>)
      requires BrokeOff(part) && part <= whole
      ensures BrokeOff(whole)
    {
      assert part[..attempts - 1] == whole[..attempts - 1];
    }

    method Begin()
      modifies this`started
      ensures started
    {
      started := true;
    }

    method Write(out: Out) returns (ok: bool)
      modifies this`started, this`attempts, this`written
      ensures started && written == if ok then old(written) + [out] else old(written)
      ensures (ok <==> !fails(old(attempts))) && attempts == old(attempts) + 1
    {
      Begin();
      ok := !fails(attempts);
      attempts := attempts + 1;
      if ok {
        written := written + [out];
      }
    }

    lemma WrittenSoFar(before: seq<Out>, events: seq<A.Event>, i: nat)
      requires i < |events|
      ensures var whole := before + AsEvents(events);
              |before| + i < |whole| && whole[..|before| + i] == before + AsEvents(events[..i])
              && |AsEvents(events[..i])| == i
    {
      assert events == events[..i] + events[i..];
      EventsConcat(events[..i], events[i..]);
    }

    method WriteEvents(events: seq<A.Event>) returns (ok: bool)
      requires AllWritten()
      modifies this`started, this`attempts, this`written
      ensures started == (old(started) || events != [])
      ensures ok ==> written == old(written) + AsEvents(events) && AllWritten()
      ensures !ok ==> BrokeOff(old(written) + AsEvents(events))
    {
      ghost var before := written;
      for i := 0 to |events|
        invariant started == (old(started) || i > 0)
        invariant written == before + AsEvents(events[..i]) && AllWritten()
      {
        ok := Write(Event(events[i]));
        if !ok {
          WrittenSoFar(before, events, i);
          return;
        }
        assert AsEvents(events[..i + 1]) == AsEvents(events[..i]) + [Event(events[i])];
      }
      assert events[..|events|] == events;
      ok := true;
    }

    /** Counts a piece and passes it on in the caller's protocol. */
    method Emit(piece: Piece) returns (ok: bool)
      requires Intact()
      modifies this`started, this`attempts, this`written, this`emitted, counter, rewriter
      ensures emitted == old(emitted) + [piece] && Metering()
      ensures ok ==> Intact()
      ensures !ok ==> BrokeOff(SentFor(options, emitted))
    {
      hide MeterOf, A.RewrittenAll, A.Rewritten, Fed;
      ghost var before := emitted;
      emitted := emitted + [piece];
      MeterSnoc(before, piece);
      RewrittenSnoc(options, before, piece);
      counter.Add(piece.delta);
      if !options.rewrites {
        ok := Write(Raw(piece));
        return;
      }
      var events := rewriter.Rewrite(piece.chunk);
      ok := WriteEvents(events);
    }

    /** The ending of the caller's protocol. */
    method CloseStream(forced: Option<string>) returns (ok: bool)
      requires Intact() && options.rewrites
      modifies this`started, this`attempts, this`written, rewriter
      ensures started
      ensures ok ==> written == AsEvents(A.Stream(options.promptTokens, ChunksOf(emitted), forced, Counted(emitted)))
      ensures !ok ==> BrokeOff(AsEvents(A.Stream(options.promptTokens, ChunksOf(emitted), forced, Counted(emitted))))
    {
      hide MeterOf, A.RewrittenAll, A.Finished;
      if forced.Some? {
        rewriter.SetStopReason(forced.value);
      }
      var total := counter.Total();
      FinishedEnds(rewriter.View(), total);
      EventsConcat(A.RewrittenAll(A.Initial(options.promptTokens), ChunksOf(emitted)).0,
        A.Finished(rewriter.View(), total).0);
      var events := rewriter.Finish(total);
      ok := WriteEvents(events);
    }

    /** Passes on all pieces of a line. */
    method EmitAll(pieces: seq<Piece>) returns (ok: bool, ghost done: nat)
      requires Intact()
      modifies this`started, this`attempts, this`written, this`emitted, counter, rewriter
      ensures done <= |pieces| && emitted == old(emitted) + pieces[..done] && Metering()
      ensures ok ==> done == |pieces| && Intact()
      ensures !ok ==> BrokeOff(SentFor(options, emitted))
    {
      hide Metering;
      done := 0;
      for i := 0 to |pieces|
        invariant i == done && emitted == old(emitted) + pieces[..i] && Intact() && Metering()
      {
        ok := Emit(pieces[i]);
        done := i + 1;
        assert pieces[..i + 1] == pieces[..i] + [pieces[i]];
        if !ok {
          return;
        }
      }
      ok := true;
    }

    /** Cuts an over-long answer off in the caller's protocol. */
    method Cut() returns (ok: bool)
      requires Intact()
      modifies this`started, this`attempts, this`written, rewriter
      ensures started
      ensures ok ==> written == Response(options, emitted, true)
      ensures !ok ==> BrokeOff(Response(options, emitted, true))
    {
      if options.rewrites {
        ok := CloseStream(Some("max_tokens"));
        return;
      }
      Begin();
      written := written + [LimitMark];
      ok := true;
    }

    /** Ends a stream that the upstream has finished. */
    method Close() returns (ok: bool)
      requires Intact()
      modifies this`started, this`attempts, this`written, rewriter
      ensures ok ==> started && written == Response(options, emitted, false)
      ensures !ok ==> BrokeOff(Response(options, emitted, false))
    {
      if options.rewrites {
        ok := CloseStream(None);
        return;
      }
      if options.converts {
        ok := Write(DoneMark);
        if !ok {
          return;
        }
      }
      Begin();
      ok := true;
    }

    lemma FreshIsIntact()
      requires Fresh()
      ensures Intact()
    {
      NothingPiped(options);
    }

    lemma CounterIsMeter()
      requires Metering()
      ensures Reading(counter.State()) == Counted(emitted)
    {
    }

    /** Forwards the lines of an upstream, which then ends or breaks off. */
    method PipeStream(lines: seq<Line>, broken: bool) returns (result: Result, ghost consumed: nat)
      requires Fresh()
      modifies this, counter, rewriter
      ensures result.completionTokens == Counted(emitted)
      ensures consumed <= |lines| && emitted <= PiecesOf(lines[..consumed])
      ensures forall k :: 0 <= k < consumed - 1 ==> !Ends(lines, k, options.cap)
      ensures result.problem != WriteFailed ==> emitted == PiecesOf(lines[..consumed])
      ensures result.overLimit ==> consumed > 0 && options.cap > 0 && Counted(emitted) > options.cap
      ensures result.problem == NoProblem && !result.overLimit ==> options.cap == 0 || Counted(emitted) <= options.cap
      ensures match result.problem {
                case NoProblem =>
                  && started && written == Response(options, emitted, result.overLimit)
                  && (!result.overLimit ==>
                        consumed == |lines| && !broken && forall k :: 0 <= k < |lines| ==> !Ends(lines, k, options.cap))
                case Balance(streamed) =>
                  && consumed > 0 && lines[consumed - 1].OutOfBalance?
                  && streamed == started == (written != []) && written == SentFor(options, emitted)
                case ReadFailed =>
                  && consumed == |lines| && broken && written == SentFor(options, emitted)
                  && forall k :: 0 <= k < |lines| ==> !Ends(lines, k, options.cap)
                case WriteFailed => BrokeOff(Response(options, emitted, result.overLimit))
              }
    {
      hide PiecesOf, MeterOf, Response, SentFor, Fed, Reading, Metering, Ends;
      NothingPiped(options);
      FreshIsIntact();
      assert lines[..0] == [];
      ghost var cap := options.cap;
      for i := 0 to |lines|
        invariant Intact() && emitted == PiecesOf(lines[..i])
        invariant forall k :: 0 <= k < i ==> !Ends(lines, k, options.cap)
      {
        PiecesSnoc(lines, i);
        EndsWhen(lines, i, cap);
        CounterIsMeter();
        consumed := i + 1;
        if lines[i].OutOfBalance? {
          var total := counter.Total();
          return Result(total, false, Balance(started)), consumed;
        }
        ghost var before := emitted;
        var ok, done := EmitAll(lines[i].pieces);
        CounterIsMeter();
        var total := counter.Total();
        if !ok {
          assert before + lines[i].pieces == before + lines[i].pieces[..done] + lines[i].pieces[done..];
          SentBegins(options, emitted);
          BrokeOffSooner(SentFor(options, emitted), Response(options, emitted, false));
          return Result(total, false, WriteFailed), consumed;
        }
        assert lines[i].pieces[..done] == lines[i].pieces;
        if options.cap > 0 && total > options.cap {
          ok := Cut();
          return Result(total, true, if ok then NoProblem else WriteFailed), consumed;
        }
      }
      assert lines[..|lines|] == lines;
      CounterIsMeter();
      consumed := |lines|;
      NeverOver(lines, cap);
      var total := counter.Total();
      if broken {
        return Result(total, false, ReadFailed), consumed;
      }
      var ok := Close();
      return Result(total, false, if ok then NoProblem else WriteFailed), consumed;
    }
  }

  lemma NeverOver(lines: seq<Line>, cap: nat)
    requires forall k :: 0 <= k < |lines| ==> !Ends(lines, k, cap)
    ensures cap == 0 || Counted(PiecesOf(lines)) <= cap
  {
    if lines == [] {
      NothingPiped(Options(false, false, 0, 0));
    } else {
      var k := |lines| - 1;
      assert !Ends(lines, k, cap) && lines[..k + 1] == lines;
    }
  }

  /** Without rewriting the caller gets the pieces as they are, then the mark of the limit if it was crossed, and
      otherwise the mark of the end if the protocol was converted. */
  lemma RawResponse(o: Options, pieces: seq<Piece>, overLimit: bool)
    requires !o.rewrites
    ensures var whole := Response(o, pieces, overLimit);
            && (forall i :: 0 <= i < |pieces| ==> i < |whole| && whole[i] == Raw(pieces[i]))
            && whole[|pieces|..] == if overLimit then [LimitMark] else if o.converts then [DoneMark] else []
  {
  }

  lemma PiecesSnoc(lines: seq<Line>, k: nat)
    requires k < |lines|
    ensures PiecesOf(lines[..k + 1]) == if lines[k].Pieces? then PiecesOf(lines[..k]) + lines[k].pieces
            else PiecesOf(lines[..k])
  {
    assert lines[..k + 1][..k] == lines[..k];
  }

  lemma MeterSnoc(pieces: seq<Piece>, piece: Piece)
    ensures MeterOf(pieces + [piece]) == Fed(MeterOf(pieces), piece.delta)
  {
    assert (pieces + [piece])[..|pieces|] == pieces;
  }

  lemma RewrittenSnoc(o: Options, pieces: seq<Piece>, piece: Piece)
    ensures var (before, s) := A.RewrittenAll(A.Initial(o.promptTokens), ChunksOf(pieces));
            var (lines, t) := A.Rewritten(s, piece.chunk);
            && A.RewrittenAll(A.Initial(o.promptTokens), ChunksOf(pieces + [piece])) == (before + lines, t)
            && AsEvents(before + lines) == AsEvents(before) + AsEvents(lines)
            && AsRaw(pieces + [piece]) == AsRaw(pieces) + [Raw(piece)]
  {
    var chunks := ChunksOf(pieces + [piece]);
    assert chunks[..|pieces|] == ChunksOf(pieces) && chunks[|pieces|] == piece.chunk;
    hide A.Rewritten, A.Initial;
    assert AsRaw(pieces + [piece]) == AsRaw(pieces) + [Raw(piece)];
    var (before, s) := A.RewrittenAll(A.Initial(o.promptTokens), ChunksOf(pieces));
    EventsConcat(before, A.Rewritten(s, piece.chunk).0);
  }

  lemma NothingPiped(o: Options)
    ensures SentFor(o, []) == [] && MeterOf([]) == EMPTY && PiecesOf([]) == [] && Counted([]) == 0
    ensures A.RewrittenAll(A.Initial(o.promptTokens), ChunksOf([])).1 == A.Initial(o.promptTokens)
  {
    assert ChunksOf([]) == [];
  }

  lemma FinishedEnds(s: A.State, total: nat)
    ensures A.Finished(s, total).0 != []
  {
  }

  lemma EndsWhen(lines: seq<Line>, k: nat, cap: nat)
    requires k < |lines|
    ensures Ends(lines, k, cap) <==> lines[k].OutOfBalance? || OverCap(PiecesOf(lines[..k + 1]), cap)
  {
  }

  lemma EventsConcat(a: seq<A.Event>, b: seq<A.Event>)
    ensures AsEvents(a + b) == AsEvents(a) + AsEvents(b)
  {
  }

  /** What has been sent is the beginning of the whole response. */
  lemma SentBegins(o: Options, pieces: seq<Piece>)
    ensures SentFor(o, pieces) <= Response(o, pieces, false)
  {
    if o.rewrites {
      var (lines, s) := A.RewrittenAll(A.Initial(o.promptTokens), ChunksOf(pieces));
      EventsConcat(lines, A.Finished(s, Counted(pieces)).0);
    }
  }

  // ---------------------------------------------------------------------------------------------
  // What a caller can rely on
  // ---------------------------------------------------------------------------------------------

  function DeltasOf(pieces: seq<Piece>): seq<seq<Byte>> {
    seq(|pieces|, i requires 0 <= i < |pieces| => pieces[i].delta)
  }

  lemma {:induction false} FedSnoc(m: Meter, chunks: seq<seq<Byte>>, chunk: seq<Byte>)
    ensures FedAll(m, chunks + [chunk]) == Fed(FedAll(m, chunks), chunk)
    decreases |chunks|
  {
    hide Fed;
    if chunks == [] {
      assert [chunk][1..] == [];
    } else {
      FedSnoc(Fed(m, chunks[0]), chunks[1..], chunk);
      assert (chunks + [chunk])[1..] == chunks[1..] + [chunk];
    }
  }

  lemma {:induction false} MeterIsFedAll(pieces: seq<Piece>)
    ensures MeterOf(pieces) == FedAll(EMPTY, DeltasOf(pieces))
  {
    hide Fed;
    if pieces == [] {
      assert DeltasOf(pieces) == [];
    } else {
      var init, last := pieces[..|pieces| - 1], pieces[|pieces| - 1];
      MeterIsFedAll(init);
      FedSnoc(EMPTY, DeltasOf(init), last.delta);
      assert DeltasOf(pieces) == DeltasOf(init) + [last.delta];
    }
  }

  /** What is billed for a stream is what its text counts as a whole, up to one token per cut inside a run
      of spaces, and exactly that when there is no such cut. */
  lemma BilledIsCounted(pieces: seq<Piece>)
    ensures var drift := Counted(pieces) - Count(Decode(Join(DeltasOf(pieces))));
            var cuts := SpaceCuts([], EMPTY, DeltasOf(pieces));
            -(cuts as int) <= drift <= cuts && (cuts == 0 ==> drift == 0)
  {
    MeterIsFedAll(pieces);
    ChunkIndependence(DeltasOf(pieces));
    hide FedAll, MeterOf, Count, Decode, SpaceCuts, Join;
  }

  /** A finished Anthropic response is one message: its start, closed blocks that hold the text of all
      pieces in order, and one ending that reports the counted tokens. */
  lemma ResponseIsOneMessage(o: Options, pieces: seq<Piece>, overLimit: bool) returns (blocks: seq<A.Block>)
    requires o.rewrites
    ensures Response(o, pieces, overLimit) == AsEvents(
              [A.MessageStart(o.promptTokens)] + A.Closed(blocks)
              + [A.MessageDelta(
                   if overLimit then "max_tokens" else A.StopGiven(ChunksOf(pieces)), Counted(pieces)), A.MessageStop])
    ensures A.Tidy(blocks) && A.Deltas(blocks) == A.Given(ChunksOf(pieces))
  {
    blocks := A.StreamGrammar(
      o.promptTokens, ChunksOf(pieces), if overLimit then Some("max_tokens") else None, Counted(pieces));
    hide A.Stream, A.Closed, A.Tidy, A.Deltas, A.Given, A.StopGiven, Counted;
  }
}
