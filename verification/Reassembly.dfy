/**
 Frame reassembly over a byte stream (crates/ocpp-transport-embassy-net/src/transport.rs): the
 handshake loop that leaves the first frame's bytes behind, and the resumable `recv` whose future may
 be dropped at either of its suspension points.

 The WebSocket decoder and the UTF-8 check are parameters: any deterministic decoder that consumes no
 more than it is given.
 */
module Reassembly {
  import opened Prelude
  import opened BigEndian

  // ------------------------------------------------------------------ the opening handshake

  datatype Accept = Accepted(used: nat) | Incomplete | Rejected

  datatype Handshake = Connected(pending: seq<Byte>) | Failed | StillReading

  /** What one read returns: at most what was asked for, what fits and what is there. */
  function ReadSize(wanted: nat, room: nat, available: nat): nat {
    Min(wanted, Min(room, available))
  }

  /**
   The handshake loop of `connect`. `socket` is everything the peer sends and `sizes` how much each
   read yields. On success the accepted response is exactly the bytes read so far, and `pending` is
   exactly the part of them the handshake did not consume: no byte is lost or read twice.
   */
  method ReadHandshake(accept: seq<Byte> -> Accept, socket: seq<Byte>, sizes: seq<nat>, bufferSize: nat)
    returns (r: Handshake, read: nat)
    requires forall b :: accept(b).Accepted? ==> accept(b).used <= |b|
    ensures read <= |socket| && read <= bufferSize
    ensures r.Connected? ==>
              && accept(socket[..read]).Accepted?
              && socket[..read] == socket[..accept(socket[..read]).used] + r.pending
    ensures r.Failed? ==> read == 0 || !accept(socket[..read]).Accepted?
    ensures r.StillReading? && sizes != [] ==> read > 0 && accept(socket[..read]).Incomplete? && read < bufferSize
  {
    var response: seq<Byte> := [];
    read := 0;
    for i := 0 to |sizes|
      invariant read <= |socket| && read <= bufferSize
      invariant response == socket[..read]
      invariant i == 0 ==> read == 0
      invariant i > 0 ==> read > 0 && accept(response).Incomplete? && read < bufferSize
    {
      var n := ReadSize(sizes[i], bufferSize - read, |socket| - read);
      if n == 0 {
        return Failed, read;
      }
      response := response + socket[read..read + n];
      read := read + n;
      assert response == socket[..read];
      match accept(response)
      case Accepted(used) => return Connected(response[used..]), read;
      case Incomplete =>
        if read == bufferSize {
          return Failed, read;
        }
      case Rejected => return Failed, read;
    }
    r := StillReading;
  }

  // ------------------------------------------------------------------ recv

  datatype Kind = Text | Binary | Ping | Pong | Close

  /** One decoder result: a piece of a frame. */
  datatype Fragment = Fragment(kind: Kind, payload: seq<Byte>, last: bool)

  datatype Decoded<D> = Malformed(next: D) | Piece(next: D, used: nat, fragment: Fragment)

  datatype Codec<!D> = Codec(decode: (D, seq<Byte>) -> Decoded<D>, utf8: seq<Byte> -> bool)

  ghost predicate Sound<D(!new)>(codec: Codec<D>) {
    forall d, b :: codec.decode(d, b).Piece? ==> codec.decode(d, b).used <= |b|
  }

  /** Where the `recv` future is: not called, suspended in the socket read, or suspended on the
      decoder's lock. */
  datatype Position = NotCalled | AtRead | AtLock

  datatype Stream<D> = Stream(decoder: D, pending: seq<Byte>, accumulated: seq<Byte>, position: Position)

  /** What a call of `recv` returns. */
  datatype Outcome =
    | TextFrame(payload: seq<Byte>)
    | BadText(payload: seq<Byte>)
    | PingFrame(payload: seq<Byte>)
    | PongFrame(payload: seq<Byte>)
    | Closed
    | EndOfInput
    | ReadFailed
    | DecodeFailed

  /** One turn of the environment. `Drop` drops the future. */
  datatype Turn =
    | Call
    | Drop
    | Bytes(chunk: seq<Byte>)
    | NoMoreBytes
    | ReadError
    | LockGranted

  /** The head of `recv`'s loop: read only when nothing is pending. */
  function LoopHead<D>(s: Stream<D>): Stream<D> {
    s.(position := if s.pending == [] then AtRead else AtLock)
  }

  predicate CanTurn<D>(s: Stream<D>, t: Turn) {
    match t
    case Call => s.position.NotCalled?
    case Drop => !s.position.NotCalled?
    case Bytes(chunk) => s.position.AtRead? && chunk != []
    case NoMoreBytes => s.position.AtRead?
    case ReadError => s.position.AtRead?
    case LockGranted => s.position.AtLock?
  }

  function Return<D>(s: Stream<D>, o: Outcome): (Stream<D>, Option<Outcome>) {
    (s.(position := NotCalled), Some(o))
  }

  /** The body after the decoder produced a piece. */
  function OnPiece<D>(codec: Codec<D>, s: Stream<D>, f: Fragment): (Stream<D>, Option<Outcome>) {
    match f.kind
    case Text =>
      var text := s.accumulated + f.payload;
      if !f.last then (LoopHead(s.(accumulated := text)), None)
      else Return(s.(accumulated := []), if codec.utf8(text) then TextFrame(text) else BadText(text))
    case Binary => (LoopHead(s.(accumulated := [])), None)
    case Ping => Return(s, PingFrame(f.payload))
    case Pong => Return(s, PongFrame(f.payload))
    case Close => Return(s, Closed)
  }

  function OnTurn<D(!new)>(codec: Codec<D>, s: Stream<D>, t: Turn): (Stream<D>, Option<Outcome>)
    requires Sound(codec) && CanTurn(s, t)
  {
    match t
    case Call => (LoopHead(s), None)
    case Drop => (s.(position := NotCalled), None)
    case Bytes(chunk) => (s.(pending := s.pending + chunk, position := AtLock), None)
    case NoMoreBytes => Return(s, EndOfInput)
    case ReadError => Return(s, ReadFailed)
    case LockGranted =>
      match codec.decode(s.decoder, s.pending)
      case Malformed(next) => Return(s.(decoder := next), DecodeFailed)
      case Piece(next, used, f) => OnPiece(codec, s.(decoder := next, pending := s.pending[used..]), f)
  }

  /** The stream object, one method call per turn. */
  class WsStream<D(!new)> {
    const codec: Codec<D>
    var decoder: D
    var pending: seq<Byte>
    var accumulated: seq<Byte>
    var position: Position

    ghost function View(): Stream<D>
      reads this
    {
      Stream(decoder, pending, accumulated, position)
    }

    constructor (codec: Codec<D>, decoder: D, pending: seq<Byte>)
      ensures this.codec == codec && View() == Stream(decoder, pending, [], NotCalled)
    {
      this.codec, this.decoder, this.pending := codec, decoder, pending;
      accumulated, position := [], NotCalled;
    }

    method Resume()
      modifies this
      ensures View() == LoopHead(old(View()))
    {
      position := if pending == [] then AtRead else AtLock;
    }

    method Finish(o: Outcome) returns (r: Option<Outcome>)
      modifies this
      ensures (View(), r) == Return(old(View()), o)
    {
      position := NotCalled;
      r := Some(o);
    }

    method Decode() returns (r: Option<Outcome>)
      requires Sound(codec) && position.AtLock?
      modifies this
      ensures (View(), r) == OnTurn(codec, old(View()), LockGranted)
    {
      r := None;
      match codec.decode(decoder, pending)
      case Malformed(next) =>
        decoder := next;
        r := Finish(DecodeFailed);
      case Piece(next, used, f) =>
        decoder := next;
        pending := pending[used..];
        match f.kind {
          case Text =>
            accumulated := accumulated + f.payload;
            if f.last {
              var text := accumulated;
              accumulated := [];
              r := Finish(if codec.utf8(text) then TextFrame(text) else BadText(text));
            } else {
              Resume();
            }
          case Binary =>
            accumulated := [];
            Resume();
          case Ping => r := Finish(PingFrame(f.payload));
          case Pong => r := Finish(PongFrame(f.payload));
          case Close => r := Finish(Closed);
        }
    }

    method Take(t: Turn) returns (r: Option<Outcome>)
      requires Sound(codec) && CanTurn(View(), t)
      modifies this
      ensures (View(), r) == OnTurn(codec, old(View()), t)
    {
      r := None;
      match t
      case Call => Resume();
      case Drop => position := NotCalled;
      case Bytes(chunk) => pending, position := pending + chunk, AtLock;
      case NoMoreBytes => r := Finish(EndOfInput);
      case ReadError => r := Finish(ReadFailed);
      case LockGranted => r := Decode();
    }
  }

  function Emitted(r: Option<Outcome>): seq<Outcome> {
    if r.Some? then [r.value] else []
  }

  ghost predicate IsSchedule<D(!new)>(codec: Codec<D>, s: Stream<D>, turns: seq<Turn>)
    requires Sound(codec)
    decreases |turns|
  {
    turns == [] || (CanTurn(s, turns[0]) && IsSchedule(codec, OnTurn(codec, s, turns[0]).0, turns[1..]))
  }

  /** Everything a schedule makes `recv` return, and the stream it leaves behind. */
  ghost function Execute<D(!new)>(codec: Codec<D>, s: Stream<D>, turns: seq<Turn>): (Stream<D>, seq<Outcome>)
    requires Sound(codec) && IsSchedule(codec, s, turns)
    decreases |turns|
  {
    if turns == [] then (s, [])
    else
      var now := OnTurn(codec, s, turns[0]);
      var rest := Execute(codec, now.0, turns[1..]);
      (rest.0, Emitted(now.1) + rest.1)
  }

  // ------------------------------------------------------------------ cancel safety

  /** At a suspension point the position follows from what is in `self`: nothing lives in the future
      alone. */
  ghost predicate PositionInv<D>(s: Stream<D>) {
    s.position.NotCalled? || s == LoopHead(s)
  }

  /** The same schedule as if the future had never been dropped: every `Drop` and the `Call` after it
      taken out. */
  function WithoutDrops(turns: seq<Turn>, dropped: bool): seq<Turn>
    decreases |turns|
  {
    if turns == [] then []
    else if turns[0].Drop? then WithoutDrops(turns[1..], true)
    else if turns[0].Call? && dropped then WithoutDrops(turns[1..], false)
    else [turns[0]] + WithoutDrops(turns[1..], dropped)
  }

  /** The stream an undropped future would be in. */
  function Undropped<D>(s: Stream<D>, dropped: bool): Stream<D> {
    if dropped then LoopHead(s) else s
  }

  lemma TurnKeepsPositionInv<D(!new)>(codec: Codec<D>, s: Stream<D>, t: Turn)
    requires Sound(codec) && CanTurn(s, t) && PositionInv(s)
    ensures PositionInv(OnTurn(codec, s, t).0)
  {
  }

  /**
   Cancel safety. For every chunking of the bytes, every decoder and every schedule, dropping and
   re-calling `recv` at any suspension points yields the same outcomes, in the same order, as never
   dropping it, and leaves the same stream behind.
   */
  lemma {:induction false} CancelSafe<D(!new)>(codec: Codec<D>, s: Stream<D>, turns: seq<Turn>, dropped: bool)
    requires Sound(codec) && PositionInv(s) && IsSchedule(codec, s, turns)
    requires dropped ==> s.position.NotCalled?
    ensures var plain := WithoutDrops(turns, dropped);
            && (forall t :: t in plain ==> !t.Drop?)
            && IsSchedule(codec, Undropped(s, dropped), plain)
            && (var cancelled, undisturbed := Execute(codec, s, turns), Execute(codec, Undropped(s, dropped), plain);
                && cancelled.1 == undisturbed.1
                && LoopHead(cancelled.0) == LoopHead(undisturbed.0))
    decreases |turns|
  {
    if turns != [] {
      var t, rest := turns[0], turns[1..];
      var s' := OnTurn(codec, s, t).0;
      TurnKeepsPositionInv(codec, s, t);
      if t.Drop? {
        CancelSafe(codec, s', rest, true);
        assert Undropped(s', true) == s;
      } else if t.Call? && dropped {
        CancelSafe(codec, s', rest, false);
      } else {
        CancelSafe(codec, s', rest, dropped);
        var plain := WithoutDrops(turns, dropped);
        assert plain[1..] == WithoutDrops(rest, dropped);
      }
    }
  }

  // ------------------------------------------------------------------ conservation of bytes

  /** Bytes read from the socket in a turn. */
  function ReceivedIn(t: Turn): seq<Byte> {
    if t.Bytes? then t.chunk else []
  }

  /** Bytes the decoder consumes in a turn. */
  function ConsumedIn<D(!new)>(codec: Codec<D>, s: Stream<D>, t: Turn): seq<Byte>
    requires Sound(codec)
  {
    var d := codec.decode(s.decoder, s.pending);
    if t.LockGranted? && d.Piece? then s.pending[..d.used] else []
  }

  function Received(turns: seq<Turn>): seq<Byte> {
    if turns == [] then [] else ReceivedIn(turns[0]) + Received(turns[1..])
  }

  ghost function Consumed<D(!new)>(codec: Codec<D>, s: Stream<D>, turns: seq<Turn>): seq<Byte>
    requires Sound(codec) && IsSchedule(codec, s, turns)
    decreases |turns|
  {
    if turns == [] then []
    else ConsumedIn(codec, s, turns[0]) + Consumed(codec, OnTurn(codec, s, turns[0]).0, turns[1..])
  }

  lemma TurnConserves<D(!new)>(codec: Codec<D>, s: Stream<D>, t: Turn)
    requires Sound(codec) && CanTurn(s, t)
    ensures s.pending + ReceivedIn(t) == ConsumedIn(codec, s, t) + OnTurn(codec, s, t).0.pending
  {
  }

  lemma Regroup<T>(a: seq<T>, x: seq<T>, u: seq<T>, b: seq<T>, r: seq<T>, c: seq<T>, p: seq<T>)
    requires a + x == u + b && b + r == c + p
    ensures a + (x + r) == (u + c) + p
  {
    assert a + (x + r) == (a + x) + r == u + (b + r);
    assert u + (c + p) == (u + c) + p;
  }

  /** Every byte left over from the handshake or read since is either consumed by the decoder, once and
      in order, or still pending, whatever was dropped in between. */
  lemma {:induction false} BytesConserved<D(!new)>(codec: Codec<D>, s: Stream<D>, turns: seq<Turn>)
    requires Sound(codec) && IsSchedule(codec, s, turns)
    ensures s.pending + Received(turns) == Consumed(codec, s, turns) + Execute(codec, s, turns).0.pending
    decreases |turns|
  {
    if turns != [] {
      var t, rest := turns[0], turns[1..];
      var s' := OnTurn(codec, s, t).0;
      TurnConserves(codec, s, t);
      BytesConserved(codec, s', rest);
      Regroup(s.pending, ReceivedIn(t), ConsumedIn(codec, s, t), s'.pending,
              Received(rest), Consumed(codec, s', rest), Execute(codec, s', rest).0.pending);
    }
  }

  /**
   Conservation from the first byte on: with a stream started from what the handshake left over, the bytes
   read from the socket in the handshake and since are those the handshake consumed, followed by those
   the decoder consumed, followed by what is pending.
   */
  lemma AllBytesConserved<D(!new)>(accept: seq<Byte> -> Accept, socket: seq<Byte>, read: nat, more: nat, left: seq<Byte>,
                                   codec: Codec<D>, decoder: D, turns: seq<Turn>)
    requires read + more <= |socket| && accept(socket[..read]).Accepted? && accept(socket[..read]).used <= read
    requires socket[..read] == socket[..accept(socket[..read]).used] + left
    requires Sound(codec) && IsSchedule(codec, Stream(decoder, left, [], NotCalled), turns)
    requires Received(turns) == socket[read..read + more]
    ensures var s := Stream(decoder, left, [], NotCalled);
            socket[..read + more]
            == socket[..accept(socket[..read]).used] + Consumed(codec, s, turns) + Execute(codec, s, turns).0.pending
  {
    var s, used := Stream(decoder, left, [], NotCalled), accept(socket[..read]).used;
    BytesConserved(codec, s, turns);
    calc {
      socket[..read + more];
      socket[..read] + socket[read..read + more];
      socket[..used] + left + Received(turns);
      socket[..used] + (left + Received(turns));
      socket[..used] + (Consumed(codec, s, turns) + Execute(codec, s, turns).0.pending);
      socket[..used] + Consumed(codec, s, turns) + Execute(codec, s, turns).0.pending;
    }
  }

  // ------------------------------------------------------------------ when recv reads

  /** `recv` never reads from the socket while bytes are pending. */
  lemma {:induction false} ReadsOnlyWhenEmpty<D(!new)>(codec: Codec<D>, s: Stream<D>, turns: seq<Turn>)
    requires Sound(codec) && PositionInv(s) && IsSchedule(codec, s, turns)
    ensures PositionInv(Execute(codec, s, turns).0)
    ensures Execute(codec, s, turns).0.position.AtRead? ==> Execute(codec, s, turns).0.pending == []
    decreases |turns|
  {
    if turns != [] {
      TurnKeepsPositionInv(codec, s, turns[0]);
      ReadsOnlyWhenEmpty(codec, OnTurn(codec, s, turns[0]).0, turns[1..]);
    }
  }

  /** The decoder refuses the pending bytes and stays as it was: more bytes might have helped. */
  ghost predicate Stuck<D(!new)>(codec: Codec<D>, s: Stream<D>) {
    s.pending != [] && codec.decode(s.decoder, s.pending) == Malformed(s.decoder)
  }

  /** So a decoder that refuses an incomplete frame without changing state makes every later `recv` on the
      stream fail, whatever arrives: no byte is read any more, and nothing changes. */
  lemma {:induction false} StuckStaysStuck<D(!new)>(codec: Codec<D>, s: Stream<D>, turns: seq<Turn>)
    requires Sound(codec) && PositionInv(s) && IsSchedule(codec, s, turns) && Stuck(codec, s)
    ensures forall o :: o in Execute(codec, s, turns).1 ==> o == DecodeFailed
    ensures Execute(codec, s, turns).0.pending == s.pending && Execute(codec, s, turns).0.decoder == s.decoder
    ensures Stuck(codec, Execute(codec, s, turns).0) && Received(turns) == []
    decreases |turns|
  {
    if turns != [] {
      var r := OnTurn(codec, s, turns[0]);
      TurnKeepsPositionInv(codec, s, turns[0]);
      StuckStaysStuck(codec, r.0, turns[1..]);
    }
  }

  /** A piece consumes a byte or changes the decoder. */
  ghost predicate Progressive<D(!new)>(codec: Codec<D>) {
    forall d, b :: codec.decode(d, b).Piece? && b != [] ==> codec.decode(d, b).used > 0 || codec.decode(d, b).next != d
  }

  /** A schedule that gets the stream any further. */
  ghost predicate Advances<D(!new)>(codec: Codec<D>, s: Stream<D>, turns: seq<Turn>)
    requires Sound(codec)
  {
    && IsSchedule(codec, s, turns)
    && (Execute(codec, s, turns).0.pending != s.pending || Execute(codec, s, turns).0.decoder != s.decoder)
  }

  lemma DecodingAdvances<D(!new)>(codec: Codec<D>, s: Stream<D>)
    requires Sound(codec) && Progressive(codec) && s.position.AtLock? && s.pending != [] && !Stuck(codec, s)
    ensures Advances(codec, s, [LockGranted])
  {
    var t := OnTurn(codec, s, LockGranted).0;
    assert [LockGranted][1..] == [];
    assert IsSchedule(codec, s, [LockGranted]);
    assert Execute(codec, s, [LockGranted]).0 == t;
  }

  lemma CallingAdvances<D(!new)>(codec: Codec<D>, s: Stream<D>)
    requires Sound(codec) && Progressive(codec) && s.position.NotCalled? && s.pending != [] && !Stuck(codec, s)
    ensures Advances(codec, s, [Call, LockGranted])
  {
    var called := OnTurn(codec, s, Call).0;
    DecodingAdvances(codec, called);
    assert [Call, LockGranted][1..] == [LockGranted];
    assert IsSchedule(codec, s, [Call, LockGranted]);
    assert Execute(codec, s, [Call, LockGranted]).0 == Execute(codec, called, [LockGranted]).0;
  }

  /** Exactly when a stream with pending bytes can still get anywhere: some schedule changes what is pending
      or the decoder if and only if the decoder does not refuse the pending bytes as they are. */
  lemma AdvancesIffNotStuck<D(!new)>(codec: Codec<D>, s: Stream<D>)
    requires Sound(codec) && Progressive(codec) && PositionInv(s) && s.pending != []
    ensures (exists turns :: Advances(codec, s, turns)) <==> !Stuck(codec, s)
  {
    if Stuck(codec, s) {
      forall turns | IsSchedule(codec, s, turns)
        ensures !Advances(codec, s, turns)
      {
        StuckStaysStuck(codec, s, turns);
      }
    } else if s.position.NotCalled? {
      CallingAdvances(codec, s);
    } else {
      DecodingAdvances(codec, s);
    }
  }

  // A decoder whose frames are two bytes long and which refuses anything shorter, as it stands.

  const PAIRS: Codec<()> := Codec(
    (d: (), b: seq<Byte>) => if |b| < 2 then Malformed(()) else Piece((), 2, Fragment(Text, b[..2], true)),
    (b: seq<Byte>) => true)

  const NEW_STREAM: Stream<()> := Stream((), [], [], NotCalled)

  lemma PairsSound()
    ensures Sound(PAIRS) && Progressive(PAIRS)
  {
  }

  /** A frame that arrives in one read is delivered. */
  lemma WholeFrameDelivered(x: Byte, y: Byte)
    ensures Sound(PAIRS) && IsSchedule(PAIRS, NEW_STREAM, [Call, Bytes([x, y]), LockGranted])
    ensures Execute(PAIRS, NEW_STREAM, [Call, Bytes([x, y]), LockGranted]).1 == [TextFrame([x, y])]
  {
    PairsSound();
    var turns := [Call, Bytes([x, y]), LockGranted];
    var called := OnTurn(PAIRS, NEW_STREAM, Call).0;
    var filled := OnTurn(PAIRS, called, Bytes([x, y])).0;
    assert filled.pending == [x, y] && [x, y][..2] == [x, y];
    assert turns[1..] == [Bytes([x, y]), LockGranted] && turns[1..][1..] == [LockGranted] && turns[1..][1..][1..] == [];
    assert IsSchedule(PAIRS, filled, [LockGranted]) && Execute(PAIRS, filled, [LockGranted]).1 == [TextFrame([x, y])];
    assert IsSchedule(PAIRS, called, turns[1..]) && Execute(PAIRS, called, turns[1..]).1 == [TextFrame([x, y])];
  }

  /** The same frame in two reads is not: after the first byte the stream is stuck, so its second byte is
      never even read. */
  lemma SplitFrameSticks(x: Byte)
    ensures Sound(PAIRS) && IsSchedule(PAIRS, NEW_STREAM, [Call, Bytes([x]), LockGranted])
    ensures Execute(PAIRS, NEW_STREAM, [Call, Bytes([x]), LockGranted]).1 == [DecodeFailed]
    ensures Stuck(PAIRS, Execute(PAIRS, NEW_STREAM, [Call, Bytes([x]), LockGranted]).0)
  {
    PairsSound();
    var turns := [Call, Bytes([x]), LockGranted];
    var called := OnTurn(PAIRS, NEW_STREAM, Call).0;
    var filled := OnTurn(PAIRS, called, Bytes([x])).0;
    assert filled.pending == [x];
    assert turns[1..] == [Bytes([x]), LockGranted] && turns[1..][1..] == [LockGranted] && turns[1..][1..][1..] == [];
    assert IsSchedule(PAIRS, filled, [LockGranted]) && Execute(PAIRS, filled, [LockGranted]).1 == [DecodeFailed];
    assert IsSchedule(PAIRS, called, turns[1..]) && Execute(PAIRS, called, turns[1..]).1 == [DecodeFailed];
  }

  // ------------------------------------------------------------------ what a message is

  /** The text payloads between two fragments, in order; control frames contribute nothing. */
  function TextOf(fs: seq<Fragment>, lo: nat, hi: nat): seq<Byte>
    requires lo <= hi <= |fs|
    decreases hi
  {
    if lo == hi then []
    else TextOf(fs, lo, hi - 1) + if fs[hi - 1].kind.Text? then fs[hi - 1].payload else []
  }

  /** A message ends with its last text fragment; a binary frame throws away what was begun. */
  predicate EndsMessage(f: Fragment) {
    f.kind.Binary? || (f.kind.Text? && f.last)
  }

  /** Where the message under construction at fragment `n` began. */
  function MessageStart(fs: seq<Fragment>, n: nat): (from: nat)
    requires n <= |fs|
    ensures from <= n
  {
    if n == 0 then 0 else if EndsMessage(fs[n - 1]) then n else MessageStart(fs, n - 1)
  }

  /** What fragment `k` makes `recv` return: a whole message, a control frame or nothing. */
  function Contribution(utf8: seq<Byte> -> bool, fs: seq<Fragment>, k: nat): seq<Outcome>
    requires k < |fs|
  {
    match fs[k].kind
    case Text =>
      if !fs[k].last then []
      else
        var text := TextOf(fs, MessageStart(fs, k), k + 1);
        [if utf8(text) then TextFrame(text) else BadText(text)]
    case Binary => []
    case Ping => [PingFrame(fs[k].payload)]
    case Pong => [PongFrame(fs[k].payload)]
    case Close => [Closed]
  }

  function Contributions(utf8: seq<Byte> -> bool, fs: seq<Fragment>, n: nat): seq<Outcome>
    requires n <= |fs|
  {
    if n == 0 then [] else Contributions(utf8, fs, n - 1) + Contribution(utf8, fs, n - 1)
  }

  /** The outcomes that stem from frames. */
  predicate FromFrame(o: Outcome) {
    !o.EndOfInput? && !o.ReadFailed? && !o.DecodeFailed?
  }

  function Delivered(out: seq<Outcome>): seq<Outcome> {
    if out == [] then []
    else (if FromFrame(out[0]) then [out[0]] else []) + Delivered(out[1..])
  }

  lemma DeliveredAfter(r: Option<Outcome>, rest: seq<Outcome>)
    ensures Delivered(Emitted(r) + rest) == Delivered(Emitted(r)) + Delivered(rest)
  {
    if r.None? {
      assert Emitted(r) + rest == rest;
    } else {
      assert (Emitted(r) + rest)[1..] == rest;
      assert Emitted(r)[1..] == [];
    }
  }

  /** The fragment decoded in a turn, if any. */
  function FragmentIn<D>(codec: Codec<D>, s: Stream<D>, t: Turn): seq<Fragment> {
    var d := codec.decode(s.decoder, s.pending);
    if t.LockGranted? && d.Piece? then [d.fragment] else []
  }

  /** The fragments decoded during a schedule. */
  ghost function Fragments<D(!new)>(codec: Codec<D>, s: Stream<D>, turns: seq<Turn>): seq<Fragment>
    requires Sound(codec) && IsSchedule(codec, s, turns)
    decreases |turns|
  {
    if turns == [] then []
    else FragmentIn(codec, s, turns[0]) + Fragments(codec, OnTurn(codec, s, turns[0]).0, turns[1..])
  }

  /** `accumulated` holds exactly the text of the message under construction. */
  ghost predicate Accumulates<D>(s: Stream<D>, fs: seq<Fragment>) {
    s.accumulated == TextOf(fs, MessageStart(fs, |fs|), |fs|)
  }

  lemma {:induction false} TextOfPrefix(fs: seq<Fragment>, f: Fragment, lo: nat, hi: nat)
    requires lo <= hi <= |fs|
    ensures TextOf(fs + [f], lo, hi) == TextOf(fs, lo, hi)
    decreases hi
  {
    if lo < hi {
      TextOfPrefix(fs, f, lo, hi - 1);
    }
  }

  lemma {:induction false} MessageStartPrefix(fs: seq<Fragment>, f: Fragment, n: nat)
    requires n <= |fs|
    ensures MessageStart(fs + [f], n) == MessageStart(fs, n)
  {
    if n > 0 {
      MessageStartPrefix(fs, f, n - 1);
    }
  }

  /** One decoded piece returns exactly its contribution and keeps `accumulated` right: control frames
      in the middle of a message leave it intact. */
  lemma PieceDelivers<D>(codec: Codec<D>, s: Stream<D>, fs: seq<Fragment>, f: Fragment)
    requires Accumulates(s, fs)
    ensures var r := OnPiece(codec, s, f);
            Accumulates(r.0, fs + [f]) && Emitted(r.1) == Contribution(codec.utf8, fs + [f], |fs|)
  {
    var n := |fs|;
    MessageStartPrefix(fs, f, n);
    TextOfPrefix(fs, f, MessageStart(fs, n), n);
    assert (fs + [f])[n] == f;
  }

  lemma {:induction false} ContributionsPrefix(utf8: seq<Byte> -> bool, fs: seq<Fragment>, f: Fragment, n: nat)
    requires n <= |fs|
    ensures Contributions(utf8, fs + [f], n) == Contributions(utf8, fs, n)
  {
    if n > 0 {
      ContributionsPrefix(utf8, fs, f, n - 1);
      var k := n - 1;
      MessageStartPrefix(fs, f, k);
      TextOfPrefix(fs, f, MessageStart(fs, k), n);
      assert (fs + [f])[k] == fs[k];
    }
  }

  /** One turn delivers exactly what the fragment it decoded, if any, contributes. */
  lemma TurnDelivers<D(!new)>(codec: Codec<D>, s: Stream<D>, t: Turn, fs: seq<Fragment>)
    requires Sound(codec) && CanTurn(s, t) && Accumulates(s, fs)
    ensures var r, fs' := OnTurn(codec, s, t), fs + FragmentIn(codec, s, t);
            && Accumulates(r.0, fs')
            && Frames(codec.utf8, fs) + Delivered(Emitted(r.1)) == Frames(codec.utf8, fs')
  {
    var d := codec.decode(s.decoder, s.pending);
    if t.LockGranted? && d.Piece? {
      PieceDelivers(codec, s.(decoder := d.next, pending := s.pending[d.used..]), fs, d.fragment);
      ContributionsPrefix(codec.utf8, fs, d.fragment, |fs|);
    } else {
      assert fs + FragmentIn(codec, s, t) == fs;
    }
  }

  lemma ExecuteDelivers<D(!new)>(codec: Codec<D>, s: Stream<D>, turns: seq<Turn>)
    requires Sound(codec) && IsSchedule(codec, s, turns) && turns != []
    ensures var r := OnTurn(codec, s, turns[0]);
            && Execute(codec, s, turns).0 == Execute(codec, r.0, turns[1..]).0
            && Delivered(Execute(codec, s, turns).1)
               == Delivered(Emitted(r.1)) + Delivered(Execute(codec, r.0, turns[1..]).1)
  {
    var r := OnTurn(codec, s, turns[0]);
    DeliveredAfter(r.1, Execute(codec, r.0, turns[1..]).1);
  }

  lemma Chain<T>(a: seq<T>, x: seq<T>, b: seq<T>, y: seq<T>, c: seq<T>)
    requires a + x == b && b + y == c
    ensures a + (x + y) == c
  {
    assert a + (x + y) == (a + x) + y;
  }

  /** What all fragments together contribute. */
  function Frames(utf8: seq<Byte> -> bool, fs: seq<Fragment>): seq<Outcome> {
    Contributions(utf8, fs, |fs|)
  }

  /** Starting with the fragments `before` already decoded, the schedule returns exactly what the
      fragments it decodes contribute, and leaves exactly the unfinished message accumulated. */
  ghost predicate Reassembles<D(!new)>(codec: Codec<D>, s: Stream<D>, turns: seq<Turn>, before: seq<Fragment>)
    requires Sound(codec) && IsSchedule(codec, s, turns)
  {
    var fs := before + Fragments(codec, s, turns);
    && Accumulates(Execute(codec, s, turns).0, fs)
    && Frames(codec.utf8, before) + Delivered(Execute(codec, s, turns).1) == Frames(codec.utf8, fs)
  }

  lemma FragmentsSplit<D(!new)>(codec: Codec<D>, s: Stream<D>, turns: seq<Turn>, before: seq<Fragment>)
    requires Sound(codec) && IsSchedule(codec, s, turns) && turns != []
    ensures before + Fragments(codec, s, turns)
         == before + FragmentIn(codec, s, turns[0]) + Fragments(codec, OnTurn(codec, s, turns[0]).0, turns[1..])
  {
  }

  /** Two consecutive stretches that each deliver what their fragments contribute do so together. */
  lemma DeliverChain(utf8: seq<Byte> -> bool, a: seq<Fragment>, b: seq<Fragment>, c: seq<Fragment>,
                     x: seq<Outcome>, y: seq<Outcome>)
    requires Frames(utf8, a) + x == Frames(utf8, b) && Frames(utf8, b) + y == Frames(utf8, c)
    ensures Frames(utf8, a) + (x + y) == Frames(utf8, c)
  {
    Chain(Frames(utf8, a), x, Frames(utf8, b), y, Frames(utf8, c));
  }

  /**
   Reassembly, for every schedule of chunks and drops. The frames `recv` returns are exactly the
   contributions of the decoded fragments, in order: each text frame is the concatenation of its own
   fragments and nothing else, with interleaved control frames delivered in between and leaving the
   message under construction intact.
   */
  lemma {:induction false} FramesReassembled<D(!new)>(codec: Codec<D>, s: Stream<D>, turns: seq<Turn>, before: seq<Fragment>)
    requires Sound(codec) && IsSchedule(codec, s, turns) && Accumulates(s, before)
    ensures Reassembles(codec, s, turns, before)
    decreases |turns|
  {
    if turns == [] {
      assert before + Fragments(codec, s, turns) == before;
    } else {
      var r, rest, before' := OnTurn(codec, s, turns[0]), turns[1..], before + FragmentIn(codec, s, turns[0]);
      TurnDelivers(codec, s, turns[0], before);
      FramesReassembled(codec, r.0, rest, before');
      FragmentsSplit(codec, s, turns, before);
      ExecuteDelivers(codec, s, turns);
      DeliverChain(codec.utf8, before, before', before' + Fragments(codec, r.0, rest),
                   Delivered(Emitted(r.1)), Delivered(Execute(codec, r.0, rest).1));
    }
  }
}
