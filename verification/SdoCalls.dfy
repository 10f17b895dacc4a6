/** Calls of the server in which it has nothing to answer. */
module SdoCalls {
  import opened Can
  import S = SdoServer

  /** The call comes before the server's timer runs out; a frame to answer resets it. */
  predicate Timely(s: S.Server, i: S.Input) {
    i.operational && (if s.rxNew && !i.txFull then 0 else s.timer) + i.dt < i.timeout
  }

  lemma IdleCall(s: S.Server, i: S.Input)
    requires s.state.Idle? && !s.rxNew
    ensures S.Process(s, i) == S.Result(s, None, 0)
  {
    hide S.Begin, S.Timed;
  }

  /** No frame to answer, or no room for the answer. */
  lemma ServerWaits(s: S.Server, i: S.Input)
    requires Timely(s, i) && (i.txFull || !s.rxNew) && !s.state.UploadBlSubblock?
    ensures var x := S.Process(s, i); x.sent.None? && x.s == s.(timer := x.s.timer)
  {
    hide S.Begin, S.Act, S.SubblockResponse;
  }
}
