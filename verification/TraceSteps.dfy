/** Why a run of one endpoint is a run of the whole system. */
module TraceSteps {
  import opened Traces
  import opened TcpmuxSystem

  /** Whatever happens to the mux side alone is a step of the whole system, if what it reads is in flight. */
  lemma MuxHappens(s: Sys, h: Happening)
    requires CanHappen(s.mux, h)
    requires h.Does? ==> Readable(h.e, s.link.toMux)
    requires h.Shakes? && s.link.linked ==> h.pos == s.link.demuxPos
    requires h.Breaks? ==> !s.demux.wire.conn.Dialing?
    ensures exists step :: Enabled(s, step) && Next(s, step).mux == After(s.mux, h)
  {
    var step := match h
      case Does(e) => Mux(e)
      case Dials => Dial
      case Shakes(pos) => MuxShakes(pos)
      case Breaks => MuxBreaks(0);
    assert Enabled(s, step) && Next(s, step).mux == After(s.mux, h);
  }

  /** The same on the demux side, which dials by taking up a connection of the mux side. */
  lemma DemuxHappens(s: Sys, h: Happening)
    requires CanHappen(s.demux, h)
    requires h.Does? ==> Readable(h.e, s.link.toDemux)
    requires h.Dials? ==> s.mux.wire.conn.Dialing? && !s.link.linked
    requires h.Shakes? ==> s.link.linked && h.pos == s.link.muxPos
    requires h.Breaks? ==> s.demux.wire.conn.Ready?
    ensures exists step :: Enabled(s, step) && Next(s, step).demux == After(s.demux, h)
  {
    var step := match h
      case Does(e) => Demux(e)
      case Dials => Answer
      case Shakes(pos) => DemuxShakes
      case Breaks => DemuxBreaks(0);
    assert Enabled(s, step) && Next(s, step).demux == After(s.demux, h);
  }
}
