/** One VPN session: its status history, its end time and its error (core/models/session.go). */
module Session {
  import opened Options

  datatype ConnectionState = Disconnected | Connecting | Connected | Reconnecting | Error

  datatype ConnectionMode = VPN | Proxy

  datatype SessionError = SessionError(code: string, message: string)

  /** Timestamps are opaque: only their presence and their stability matter. */
  type Time = int

  datatype VPNSession = VPNSession(
    serverId: string,
    mode: ConnectionMode,
    history: seq<ConnectionState>,
    endedAt: Option<Time>,
    error: Option<SessionError>)

  predicate Live(s: ConnectionState) {
    s.Connecting? || s.Connected? || s.Reconnecting?
  }

  function AddState(sess: VPNSession, state: ConnectionState): VPNSession {
    var appended := sess.(history := sess.history + [state]);
    if state.Error? then appended.(error := Some(SessionError("state_error", "error"))) else appended
  }

  function Last(h: seq<ConnectionState>): ConnectionState
    requires h != []
  {
    h[|h| - 1]
  }

  predicate Running(sess: VPNSession) {
    sess.history != [] && Live(Last(sess.history))
  }

  /** The state changes a session's history may record. */
  predicate Follows(a: ConnectionState, b: ConnectionState) {
    match a
    case Connecting => !b.Connecting?
    case Connected => b.Reconnecting? || b.Error? || b.Disconnected?
    case Reconnecting => !b.Connecting?
    case Error => b.Disconnected?
    case Disconnected => false
  }

  ghost predicate WellFormed(h: seq<ConnectionState>) {
    && h != []
    && h[0].Connecting?
    && forall i :: 0 < i < |h| ==> Follows(h[i - 1], h[i])
  }

  lemma WellFormedAppend(h: seq<ConnectionState>, s: ConnectionState)
    requires WellFormed(h) && Follows(Last(h), s)
    ensures WellFormed(h + [s])
  {
    var g := h + [s];
    assert g[0] == h[0];
    forall i | 0 < i < |g| ensures Follows(g[i - 1], g[i]) {
      assert g[i - 1] == h[i - 1];
      if i < |h| {
        assert g[i] == h[i];
      }
    }
  }

  /** What the adjacency rule means for a whole history: Connecting opens it and never recurs,
      Disconnected can only close it, Error is the last or the last but one entry and only
      Disconnected may follow it, and Connected is never recorded twice in a row. */
  lemma HistoryShape(h: seq<ConnectionState>, i: nat, j: nat)
    requires WellFormed(h)
    requires i < j < |h|
    ensures h[0].Connecting? && !h[j].Connecting?
    ensures !h[i].Disconnected?
    ensures h[i].Error? ==> j == i + 1 == |h| - 1 && h[j].Disconnected?
    ensures j == i + 1 && h[i].Connected? ==> !h[j].Connected?
  {
    assert Follows(h[j - 1], h[j]);
    assert Follows(h[i], h[i + 1]);
    if i + 2 < |h| {
      assert Follows(h[i + 1], h[i + 2]);
    }
  }
}
