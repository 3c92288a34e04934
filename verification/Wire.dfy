/**
 The histories of the tables and registries are the frames of the run: what the read loop received, in
 order, sorted by kind, less the frame it is about to dispatch.
 */
module Wire {
  import opened Prelude
  import opened Engine
  import BigEndian
  import Handlers
  import Pings
  import Requests
  import Shutdown

  /** A CALLRESULT or CALLERROR, by content and message id; one whose id is no UUID is answered to nobody. */
  function ReplyIn(event: Event): seq<Requests.Handled> {
    if event.Reply? && event.id.Some? then [Requests.Handled(event.id.value, event.reply)] else []
  }

  function PongIn(event: Event): seq<seq<BigEndian.Byte>> {
    if event.PongFrame? then [event.payload] else []
  }

  /** A CALL, or with `answering` false a SEND. */
  function FrameIn(event: Event, answering: bool): seq<Handlers.Frame> {
    if (if answering then event.Call? else event.Send?) then [event.frame] else []
  }

  /** The replies among the events received in the first `n` steps. */
  function Replies(labels: seq<Label>, n: nat): seq<Requests.Handled>
    requires n <= |labels|
  {
    if n == 0 then []
    else Replies(labels, n - 1) + if Shutdown.IsEvent(labels[n - 1]) then ReplyIn(labels[n - 1].r.event) else []
  }

  function Pongs(labels: seq<Label>, n: nat): seq<seq<BigEndian.Byte>>
    requires n <= |labels|
  {
    if n == 0 then []
    else Pongs(labels, n - 1) + if Shutdown.IsEvent(labels[n - 1]) then PongIn(labels[n - 1].r.event) else []
  }

  /** The CALLs, or with `answering` false the SENDs. */
  function Frames(labels: seq<Label>, n: nat, answering: bool): seq<Handlers.Frame>
    requires n <= |labels|
  {
    if n == 0 then []
    else
      Frames(labels, n - 1, answering)
      + if Shutdown.IsEvent(labels[n - 1]) then FrameIn(labels[n - 1].r.event, answering) else []
  }

  // What of each kind was received but not yet dispatched.

  function ReplyAhead(pc: ReaderPc): seq<Requests.Handled> {
    if pc.Dispatch? then ReplyIn(pc.event) else []
  }

  function PongAhead(pc: ReaderPc): seq<seq<BigEndian.Byte>> {
    if pc.Dispatch? then PongIn(pc.event) else []
  }

  function FrameAhead(pc: ReaderPc, answering: bool): seq<Handlers.Frame> {
    if pc.Dispatch? then FrameIn(pc.event, answering) else []
  }

  /** How the read loop's step moves events: one is received, or one is dispatched, or neither. */
  lemma EventsMove(cfg: Config, now: nat, sh: Shared, r: Reader, l: Label, settled: bool)
    requires l.Read? ==> ReaderGuard(r.pc, l.r, now)
    ensures var pc := NextReader(cfg, now, sh, r, l, settled).pc;
            if Shutdown.IsEvent(l) then !r.pc.Dispatch? && pc == Dispatch(l.r.event)
            else if l == Read(Handle) then r.pc.Dispatch? && !pc.Dispatch?
            else pc.Dispatch? == r.pc.Dispatch? && (pc.Dispatch? ==> pc == r.pc)
  {
  }

  /** A history grows by what was about to be dispatched, or what is about to be dispatched is received. */
  lemma Shift<T>(h: seq<T>, h': seq<T>, before: seq<T>, after: seq<T>, event: seq<T>)
    requires (h' == h + before && after == [] && event == [])
             || (h' == h && after == before && event == [])
             || (h' == h && before == [] && after == event)
    ensures h' + after == h + before + event
  {
  }

  lemma HandledAfter(s: Requests.State, l: Requests.Label)
    requires Requests.Enabled(s, l)
    ensures Requests.Step(s, l).handled == s.handled + if l.HandleReply? then [Requests.Handled(l.id, l.reply)] else []
  {
  }

  lemma PongsAfter(s: Pings.State, l: Pings.Label)
    requires Pings.Enabled(s, l)
    ensures Pings.Step(s, l).pongs == s.pongs + if l.HandlePong? then [l.payload] else []
  {
  }

  lemma RepliesMove(states: seq<State>, labels: seq<Label>, i: nat)
    requires IsSegment(states, labels) && i < |labels|
    ensures var s, t, l := states[i], states[i + 1], labels[i];
            t.requests.handled + ReplyAhead(t.reader.pc)
            == s.requests.handled + ReplyAhead(s.reader.pc) + if Shutdown.IsEvent(l) then ReplyIn(l.r.event) else []
  {
    FollowsAt(states, labels, i);
    var s, t, l := states[i], states[i + 1], labels[i];
    if RequestLabel(s.reader.pc, l).Some? {
      HandledAfter(s.requests, RequestLabel(s.reader.pc, l).value);
    }
    EventsMove(s.cfg, s.now, s.shared, s.reader, l, Settled(s, l));
    Shift(s.requests.handled, t.requests.handled, ReplyAhead(s.reader.pc), ReplyAhead(t.reader.pc),
          if Shutdown.IsEvent(l) then ReplyIn(l.r.event) else []);
  }

  lemma PongsMove(states: seq<State>, labels: seq<Label>, i: nat)
    requires IsSegment(states, labels) && i < |labels|
    ensures var s, t, l := states[i], states[i + 1], labels[i];
            t.pings.pongs + PongAhead(t.reader.pc)
            == s.pings.pongs + PongAhead(s.reader.pc) + if Shutdown.IsEvent(l) then PongIn(l.r.event) else []
  {
    FollowsAt(states, labels, i);
    var s, t, l := states[i], states[i + 1], labels[i];
    if PingLabel(s.reader.pc, s.shared, l).Some? {
      PongsAfter(s.pings, PingLabel(s.reader.pc, s.shared, l).value);
    }
    EventsMove(s.cfg, s.now, s.shared, s.reader, l, Settled(s, l));
    Shift(s.pings.pongs, t.pings.pongs, PongAhead(s.reader.pc), PongAhead(t.reader.pc),
          if Shutdown.IsEvent(l) then PongIn(l.r.event) else []);
  }

  lemma CallsMove(states: seq<State>, labels: seq<Label>, i: nat)
    requires IsSegment(states, labels) && i < |labels|
    ensures var s, t, l := states[i], states[i + 1], labels[i];
            t.calls.inbound + FrameAhead(t.reader.pc, true)
            == s.calls.inbound + FrameAhead(s.reader.pc, true) + if Shutdown.IsEvent(l) then FrameIn(l.r.event, true) else []
  {
    FollowsAt(states, labels, i);
    var s, t, l := states[i], states[i + 1], labels[i];
    EventsMove(s.cfg, s.now, s.shared, s.reader, l, Settled(s, l));
    Shift(s.calls.inbound, t.calls.inbound, FrameAhead(s.reader.pc, true), FrameAhead(t.reader.pc, true),
          if Shutdown.IsEvent(l) then FrameIn(l.r.event, true) else []);
  }

  lemma SendsMove(states: seq<State>, labels: seq<Label>, i: nat)
    requires IsSegment(states, labels) && i < |labels|
    ensures var s, t, l := states[i], states[i + 1], labels[i];
            t.notes.inbound + FrameAhead(t.reader.pc, false)
            == s.notes.inbound + FrameAhead(s.reader.pc, false) + if Shutdown.IsEvent(l) then FrameIn(l.r.event, false) else []
  {
    FollowsAt(states, labels, i);
    var s, t, l := states[i], states[i + 1], labels[i];
    EventsMove(s.cfg, s.now, s.shared, s.reader, l, Settled(s, l));
    Shift(s.notes.inbound, t.notes.inbound, FrameAhead(s.reader.pc, false), FrameAhead(t.reader.pc, false),
          if Shutdown.IsEvent(l) then FrameIn(l.r.event, false) else []);
  }

  /**
   In every run, the replies handled and the pongs handled are exactly the replies and pongs among the events
   received, in order, less the one about to be dispatched.
   */
  lemma {:induction false} AnswersMatchRun(states: seq<State>, labels: seq<Label>, n: nat)
    requires IsRun(states, labels) && n <= |labels|
    ensures states[n].requests.handled + ReplyAhead(states[n].reader.pc) == Replies(labels, n)
    ensures states[n].pings.pongs + PongAhead(states[n].reader.pc) == Pongs(labels, n)
  {
    if n > 0 {
      AnswersMatchRun(states, labels, n - 1);
      RepliesMove(states, labels, n - 1);
      PongsMove(states, labels, n - 1);
    }
  }

  /**
   In every run, what entered the answering registry is exactly the CALLs among the events received, and
   what entered the other exactly the SENDs, in order, less the one about to be dispatched. Nothing else
   enters either.
   */
  lemma {:induction false} InboundMatchesRun(states: seq<State>, labels: seq<Label>, n: nat)
    requires IsRun(states, labels) && n <= |labels|
    ensures states[n].calls.inbound + FrameAhead(states[n].reader.pc, true) == Frames(labels, n, true)
    ensures states[n].notes.inbound + FrameAhead(states[n].reader.pc, false) == Frames(labels, n, false)
  {
    if n > 0 {
      InboundMatchesRun(states, labels, n - 1);
      CallsMove(states, labels, n - 1);
      SendsMove(states, labels, n - 1);
    }
  }

  /** The first reply among those handled is the first among those received. */
  lemma FirstHandledIsFirstReceived(handled: seq<Requests.Handled>, received: seq<Requests.Handled>,
                                    since: nat, id: Requests.Uuid, k: int)
    requires handled <= received && Requests.IsFirstReply(handled, since, id, k)
    ensures Requests.IsFirstReply(received, since, id, k) && received[k] == handled[k]
  {
  }
}
