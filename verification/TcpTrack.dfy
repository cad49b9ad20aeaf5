// The TCP state machine of a tracked flow, which decides how long an idle flow is kept.
module TcpTrack {
  import opened Bytes

  // The flag bits the tracker looks at; decoding them from a header is not part of this model.
  datatype Segment = Segment(syn: bool, ack: bool, fin: bool, rst: bool, inbound: bool, sequence: Uint32, acknowledgment: Uint32)

  datatype TcpState =
    | Reset | InboundSyn | OutboundSyn | SynAck | Established
    | InboundFin | InboundFirstClosed | OutboundFin | OutboundFirstClosed

  datatype Track = Track(state: TcpState, seqno: Uint32, ttl: int)

  const Initial := Track(Reset, 0, 0)

  // Lifetimes in seconds.
  const DEFAULT_TTL := 60
  const RESET_TTL := 90
  const INBOUND_SYN_TTL := 120
  const OUTBOUND_SYN_TTL := 60
  const SYN_ACK_TTL := 60
  const ESTABLISHED_TTL := 6 * 3600
  const INBOUND_FIRST_CLOSED_TTL := 120
  const OUTBOUND_FIRST_CLOSED_TTL := 30

  function ObserveFin(t: Track, p: Segment): Track {
    if !p.fin then t
    else if p.inbound then t.(state := InboundFin)
    else t.(state := OutboundFin)
  }

  function Observe(was: Track, p: Segment): Track {
    if p.rst then was.(state := Reset, ttl := RESET_TTL)
    else
      var t := if was.ttl == 0 then was.(ttl := DEFAULT_TTL) else was;
      var acksRecorded := p.ack && p.acknowledgment == Add32(t.seqno, 1);
      match t.state
      case Reset =>
        if !p.syn then t
        else if p.inbound then Track(InboundSyn, p.sequence, INBOUND_SYN_TTL)
        else Track(OutboundSyn, p.sequence, OUTBOUND_SYN_TTL)
      case InboundSyn =>
        if p.inbound || !p.syn then t
        else if acksRecorded then t.(state := Established, ttl := ESTABLISHED_TTL)
        else Track(SynAck, p.sequence, SYN_ACK_TTL)
      case OutboundSyn =>
        if p.inbound && p.syn && acksRecorded then Track(SynAck, p.sequence, SYN_ACK_TTL) else t
      case SynAck =>
        if !p.inbound && acksRecorded then t.(state := Established, ttl := ESTABLISHED_TTL)
        else ObserveFin(t, p)
      case Established => ObserveFin(t, p)
      case InboundFin =>
        if !p.inbound && p.fin then t.(state := InboundFirstClosed, ttl := INBOUND_FIRST_CLOSED_TTL) else t
      case OutboundFin =>
        if p.inbound && p.fin then t.(state := OutboundFirstClosed, ttl := OUTBOUND_FIRST_CLOSED_TTL) else t
      case InboundFirstClosed => t
      case OutboundFirstClosed => t
  }

  function Run(ps: seq<Segment>): Track {
    if ps == [] then Initial else Observe(Run(ps[..|ps| - 1]), ps[|ps| - 1])
  }

  // ---- What the packets themselves say, independently of the tracker.

  // The packets after the last reset.
  function Epoch(ps: seq<Segment>): seq<Segment> {
    if ps == [] || ps[|ps| - 1].rst then [] else Epoch(ps[..|ps| - 1]) + [ps[|ps| - 1]]
  }

  predicate SynSeen(ps: seq<Segment>, inbound: bool) {
    exists i :: 0 <= i < |ps| && ps[i].syn && ps[i].inbound == inbound
  }

  predicate FinSeen(ps: seq<Segment>, inbound: bool) {
    exists i :: 0 <= i < |ps| && ps[i].fin && ps[i].inbound == inbound
  }

  // An outbound packet acknowledges a sequence number that an earlier SYN of the epoch carried.
  predicate SynAcknowledged(ps: seq<Segment>) {
    exists i, j :: 0 <= i < j < |ps| && ps[i].syn && !ps[j].inbound && ps[j].ack
      && ps[j].acknowledgment == Add32(ps[i].sequence, 1)
  }

  predicate SeqnoFromSyn(ps: seq<Segment>, seqno: Uint32, inbound: bool) {
    exists i :: 0 <= i < |ps| && ps[i].syn && ps[i].inbound == inbound && ps[i].sequence == seqno
  }

  predicate TtlAllowed(t: Track) {
    match t.state
    case Reset => t.ttl in {DEFAULT_TTL, RESET_TTL}
    case InboundSyn => t.ttl == INBOUND_SYN_TTL
    case OutboundSyn => t.ttl == OUTBOUND_SYN_TTL
    case SynAck => t.ttl == SYN_ACK_TTL
    case Established => t.ttl == ESTABLISHED_TTL
    case InboundFin => t.ttl in {SYN_ACK_TTL, ESTABLISHED_TTL}
    case OutboundFin => t.ttl in {SYN_ACK_TTL, ESTABLISHED_TTL}
    case InboundFirstClosed => t.ttl == INBOUND_FIRST_CLOSED_TTL
    case OutboundFirstClosed => t.ttl == OUTBOUND_FIRST_CLOSED_TTL
  }

  predicate Handshaken(s: TcpState) {
    !(s.Reset? || s.InboundSyn? || s.OutboundSyn?)
  }

  // Everything the tracker's state implies about the packets seen since the last reset.
  predicate Justified(ps: seq<Segment>, t: Track) {
    var e := Epoch(ps);
    && (t.state.InboundSyn? ==> SeqnoFromSyn(e, t.seqno, true))
    && (t.state.OutboundSyn? ==> SeqnoFromSyn(e, t.seqno, false))
    && (Handshaken(t.state) ==> SynSeen(e, true) && SynSeen(e, false))
    && (t.state.SynAck? ==> SeqnoFromSyn(e, t.seqno, true) || SeqnoFromSyn(e, t.seqno, false))
    && (t.state.Established? ==> SynAcknowledged(e))
    && ((t.state.InboundFin? || t.state.OutboundFin?) && t.ttl == ESTABLISHED_TTL ==> SynAcknowledged(e))
    && (t.state.InboundFin? ==> FinSeen(e, true))
    && (t.state.OutboundFin? ==> FinSeen(e, false))
    && (t.state.InboundFirstClosed? || t.state.OutboundFirstClosed? ==> FinSeen(e, true) && FinSeen(e, false))
  }

  lemma EpochGrows(ps: seq<Segment>, p: Segment)
    requires !p.rst
    ensures Epoch(ps + [p]) == Epoch(ps) + [p]
  {
    assert (ps + [p])[..|ps|] == ps;
  }

  // What held of the epoch still holds when a packet is added, and the packet's own flags count.
  lemma SeenGrows(e: seq<Segment>, p: Segment)
    ensures forall d :: SynSeen(e, d) || (p.syn && p.inbound == d) ==> SynSeen(e + [p], d)
    ensures forall d :: FinSeen(e, d) || (p.fin && p.inbound == d) ==> FinSeen(e + [p], d)
    ensures forall n, d :: SeqnoFromSyn(e, n, d) ==> SeqnoFromSyn(e + [p], n, d)
    ensures p.syn ==> SeqnoFromSyn(e + [p], p.sequence, p.inbound)
    ensures SynAcknowledged(e) ==> SynAcknowledged(e + [p])
    ensures forall n, d :: SeqnoFromSyn(e, n, d) && !p.inbound && p.ack && p.acknowledgment == Add32(n, 1)
              ==> SynAcknowledged(e + [p])
  {
    var f := e + [p];
    assert forall i :: 0 <= i < |e| ==> f[i] == e[i];
    assert f[|e|] == p;
    forall n, d | SeqnoFromSyn(e, n, d) && !p.inbound && p.ack && p.acknowledgment == Add32(n, 1)
      ensures SynAcknowledged(f)
    {
      var i :| 0 <= i < |e| && e[i].syn && e[i].inbound == d && e[i].sequence == n;
      assert f[i].syn && !f[|e|].inbound && f[|e|].acknowledgment == Add32(f[i].sequence, 1);
    }
  }

  lemma JustifiedStep(ps: seq<Segment>, t: Track, p: Segment)
    requires Justified(ps, t) && (ps != [] ==> TtlAllowed(t)) && (ps == [] ==> t == Initial)
    ensures Justified(ps + [p], Observe(t, p)) && TtlAllowed(Observe(t, p))
  {
    if !p.rst {
      EpochGrows(ps, p);
      SeenGrows(Epoch(ps), p);
    }
  }

  // For every packet sequence, the state and its lifetime are what the packets since the last reset justify.
  lemma {:induction false} StateIsJustified(ps: seq<Segment>)
    ensures Justified(ps, Run(ps)) && (ps != [] ==> TtlAllowed(Run(ps)))
  {
    if ps != [] {
      var front := ps[..|ps| - 1];
      StateIsJustified(front);
      JustifiedStep(front, Run(front), ps[|ps| - 1]);
      assert front + [ps[|ps| - 1]] == ps;
    }
  }

  lemma RunAppend(ps: seq<Segment>, p: Segment)
    ensures Run(ps + [p]) == Observe(Run(ps), p)
  {
    assert (ps + [p])[..|ps|] == ps;
  }

  predicate FirstClosed(s: TcpState) {
    s.InboundFirstClosed? || s.OutboundFirstClosed?
  }

  // A first-closed flow keeps its state and lifetime through any packets that are not resets.
  lemma {:induction false} FirstClosedIsLeftOnlyByReset(ps: seq<Segment>, more: seq<Segment>)
    requires FirstClosed(Run(ps).state)
    requires forall i :: 0 <= i < |more| ==> !more[i].rst
    ensures Run(ps + more) == Run(ps)
  {
    if more == [] {
      assert ps + more == ps;
    } else {
      var front := more[..|more| - 1];
      FirstClosedIsLeftOnlyByReset(ps, front);
      assert (ps + more)[..|ps + more| - 1] == ps + front;
      StateIsJustified(ps);
    }
  }

  // The three-way handshake of section 3.5 of RFC 9293, opened from either side after any history that
  // left the flow reset, establishes the flow.
  lemma {:induction false} HandshakeEstablishes(ps: seq<Segment>, x: Uint32, y: Uint32, a: Uint32, inbound: bool)
    requires Run(ps).state.Reset?
    ensures
      var syn := Segment(true, false, false, false, inbound, x, a);
      var synAck := Segment(true, true, false, false, !inbound, y, Add32(x, 1));
      var ack := Segment(false, true, false, false, inbound, Add32(x, 1), Add32(y, 1));
      Run(ps + [syn] + [synAck] + [ack]).state == Established
  {
    var syn := Segment(true, false, false, false, inbound, x, a);
    var synAck := Segment(true, true, false, false, !inbound, y, Add32(x, 1));
    var ack := Segment(false, true, false, false, inbound, Add32(x, 1), Add32(y, 1));
    RunAppend(ps, syn);
    RunAppend(ps + [syn], synAck);
    RunAppend(ps + [syn] + [synAck], ack);
  }

  // A reset ends everything, whatever was before.
  lemma ResetEnds(ps: seq<Segment>, p: Segment)
    requires p.rst
    ensures Run(ps + [p]).state.Reset? && Run(ps + [p]).ttl == RESET_TTL
  {
    RunAppend(ps, p);
  }

  // An acknowledgment of the sequence number recorded so far, by the side that may establish the flow.
  predicate Acknowledges(t: Track, p: Segment) {
    p.ack && p.acknowledgment == (t.seqno + 1) % 0x1_0000_0000
  }

  // Any other segment moves the flow on exactly if it is the one its state waits for. The sequence number
  // recorded is that of the SYN that moved it, and nothing else changes it.
  lemma MovesOnExactly(ps: seq<Segment>, p: Segment)
    requires !p.rst
    ensures var t, t' := Run(ps), Run(ps + [p]);
      && (t'.state != t.state <==>
            || (t.state.Reset? && p.syn)
            || (t.state.InboundSyn? && !p.inbound && p.syn)
            || (t.state.OutboundSyn? && p.inbound && p.syn && Acknowledges(t, p))
            || (t.state.SynAck? && ((!p.inbound && Acknowledges(t, p)) || p.fin))
            || (t.state.Established? && p.fin)
            || (t.state.InboundFin? && !p.inbound && p.fin)
            || (t.state.OutboundFin? && p.inbound && p.fin))
      && t'.seqno == (if t'.state != t.state && (t'.state.InboundSyn? || t'.state.OutboundSyn? || t'.state.SynAck?)
                      then p.sequence else t.seqno)
      && (t'.state == t.state && t.ttl != 0 ==> t'.ttl == t.ttl)
  {
    RunAppend(ps, p);
    if ps != [] { StateIsJustified(ps); }
  }

  // A flow gets established by an outbound acknowledgment alone: that of its last SYN, or one that comes
  // with the SYN answering an inbound one.
  lemma EstablishedExactly(ps: seq<Segment>, p: Segment)
    requires !Run(ps).state.Established?
    ensures Run(ps + [p]).state.Established? <==>
              && !p.rst && !p.inbound && Acknowledges(Run(ps), p)
              && (Run(ps).state.SynAck? || (Run(ps).state.InboundSyn? && p.syn))
  {
    hide Run;
    RunAppend(ps, p);
  }

  // An established flow is left exactly by a reset or a FIN, which makes its sender the first to close;
  // until the other side closes, too, the flow keeps its six hours.
  lemma EstablishedIsLeftExactly(ps: seq<Segment>, p: Segment)
    requires Run(ps).state.Established?
    ensures var t' := Run(ps + [p]);
      && (t'.state.Established? <==> !p.rst && !p.fin)
      && (!p.rst && p.fin ==> t'.state == if p.inbound then InboundFin else OutboundFin)
      && (!p.rst ==> t'.ttl == ESTABLISHED_TTL && t'.seqno == Run(ps).seqno)
  {
    RunAppend(ps, p);
    StateIsJustified(ps);
  }

  // A connection that both sides close, the one that sends `fin` first: whatever else is sent in between
  // short of a reset or a FIN from the other side, the flow ends up closed by the first closer, and is
  // then kept no longer than such flows are. A FIN before the handshake is over has the same effect.
  lemma {:induction false} BothSidesClose(ps: seq<Segment>, fin: Segment, between: seq<Segment>, last: Segment)
    requires Run(ps).state.Established? || (Run(ps).state.SynAck? && (fin.inbound || !Acknowledges(Run(ps), fin)))
    requires fin.fin && !fin.rst && last.fin && !last.rst && last.inbound != fin.inbound
    requires forall i :: 0 <= i < |between| ==> !between[i].rst && !(between[i].fin && between[i].inbound == last.inbound)
    ensures var t := Run(ps + [fin] + between + [last]);
      if fin.inbound then t.state == InboundFirstClosed && t.ttl == INBOUND_FIRST_CLOSED_TTL
      else t.state == OutboundFirstClosed && t.ttl == OUTBOUND_FIRST_CLOSED_TTL
  {
    HalfClosedWaits(ps, fin, between);
    RunAppend(ps + [fin] + between, last);
  }

  lemma {:induction false} HalfClosedWaits(ps: seq<Segment>, fin: Segment, between: seq<Segment>)
    requires Run(ps).state.Established? || (Run(ps).state.SynAck? && (fin.inbound || !Acknowledges(Run(ps), fin)))
    requires fin.fin && !fin.rst
    requires forall i :: 0 <= i < |between| ==> !between[i].rst && !(between[i].fin && between[i].inbound != fin.inbound)
    ensures Run(ps + [fin] + between).state == if fin.inbound then InboundFin else OutboundFin
    decreases between
  {
    RunAppend(ps, fin);
    if between == [] {
      assert ps + [fin] + [] == ps + [fin];
    } else {
      var n := |between| - 1;
      HalfClosedWaits(ps, fin, between[..n]);
      RunAppend(ps + [fin] + between[..n], between[n]);
      assert ps + [fin] + between[..n] + [between[n]] == ps + [fin] + between;
    }
  }
}
