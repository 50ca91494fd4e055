/** The per-session replay window, and what it guarantees of any trace of frames. */
module Replay {
  import opened Results

  datatype Stamp = Stamp(sequence: nat, nonce: nat)

  /** Why a frame is refused after the frames in `history` were accepted; OK when it is not. */
  function Refusal(history: seq<Stamp>, window: nat, s: Stamp): ErrorCode {
    if s.nonce == 0 then PROTOCOL_VIOLATION
    else if history != [] && s.sequence <= history[|history| - 1].sequence then
      if s.sequence == history[|history| - 1].sequence then REPLAY_DETECTED else SEQUENCE_VIOLATION
    else if exists i :: |history| - window <= i < |history| && 0 <= i && history[i].nonce == s.nonce then
      REPLAY_DETECTED
    else OK
  }

  /** The frames of a trace that are accepted, in order, after those in `history`. */
  function Accepted(history: seq<Stamp>, window: nat, trace: seq<Stamp>): seq<Stamp>
    decreases |trace|
  {
    if trace == [] then history
    else if Refusal(history, window, trace[0]) == OK then Accepted(history + [trace[0]], window, trace[1..])
    else Accepted(history, window, trace[1..])
  }

  /** Strictly increasing sequences; any `window + 1` consecutive frames carry distinct non-zero nonces. */
  ghost predicate Fresh(history: seq<Stamp>, window: nat) {
    && (forall i, j :: 0 <= i < j < |history| ==> history[i].sequence < history[j].sequence)
    && (forall i, j :: 0 <= i < j < |history| && j - i <= window ==> history[i].nonce != history[j].nonce)
    && (forall i :: 0 <= i < |history| ==> history[i].nonce != 0)
  }

  lemma OneStaysFresh(history: seq<Stamp>, window: nat, s: Stamp)
    requires Fresh(history, window) && Refusal(history, window, s) == OK
    ensures Fresh(history + [s], window)
  {
    var next := history + [s];
    forall i | 0 <= i < |history| ensures next[i].sequence < s.sequence {
      assert history[i].sequence <= history[|history| - 1].sequence;
    }
  }

  /** Over any trace the accepted frames stay fresh, so no frame is accepted twice. */
  lemma {:induction false} TraceStaysFresh(history: seq<Stamp>, window: nat, trace: seq<Stamp>)
    requires Fresh(history, window)
    ensures Fresh(Accepted(history, window, trace), window)
    decreases |trace|
  {
    if trace != [] {
      if Refusal(history, window, trace[0]) == OK {
        OneStaysFresh(history, window, trace[0]);
        TraceStaysFresh(history + [trace[0]], window, trace[1..]);
      } else {
        TraceStaysFresh(history, window, trace[1..]);
      }
    }
  }

  class ReplayWindow {
    const window: nat
    var lastSequence: nat
    var seenAny: bool
    var nonces: seq<nat>
    var accepted: nat
    var rejected: nat
    /** Every frame accepted so far, oldest first. */
    ghost var history: seq<Stamp>

    ghost predicate Valid()
      reads this
    {
      && window >= 1
      && Fresh(history, window)
      && accepted == |history|
      && seenAny == (history != [])
      && (seenAny ==> lastSequence == history[|history| - 1].sequence)
      && nonces == Newest(NoncesOf(history), window)
    }

    constructor (window: nat)
      ensures Valid() && history == [] && accepted == 0 && rejected == 0
      ensures this.window == if window == 0 then 1 else window
    {
      this.window := if window == 0 then 1 else window;
      lastSequence, seenAny, nonces := 0, false, [];
      accepted, rejected := 0, 0;
      history := [];
    }

    /** Accepts exactly the frames the history does not refuse; a refusal changes only its counter. */
    method Accept(sequence: nat, nonce: nat) returns (error: ErrorCode)
      requires Valid()
      modifies this
      ensures Valid()
      ensures error == Refusal(old(history), window, Stamp(sequence, nonce))
      ensures history == if error == OK then old(history) + [Stamp(sequence, nonce)] else old(history)
      ensures error != OK ==> unchanged(`lastSequence) && unchanged(`seenAny) && unchanged(`nonces)
      ensures accepted + rejected == old(accepted + rejected) + 1
    {
      hide Fresh;
      ghost var s := Stamp(sequence, nonce);
      if nonce == 0 {
        rejected := rejected + 1;
        return PROTOCOL_VIOLATION;
      }
      if seenAny && sequence <= lastSequence {
        rejected := rejected + 1;
        return if sequence == lastSequence then REPLAY_DETECTED else SEQUENCE_VIOLATION;
      }
      var seen := Seen(nonce);
      if seen {
        rejected := rejected + 1;
        return REPLAY_DETECTED;
      }
      OneStaysFresh(history, window, s);
      Remember(nonce);
      NewestAgain(NoncesOf(history), nonce, window);
      assert NoncesOf(history + [s]) == NoncesOf(history) + [nonce];
      history := history + [s];
      seenAny := true;
      lastSequence := sequence;
      accepted := accepted + 1;
      return OK;
    }

    method Seen(nonce: nat) returns (seen: bool)
      requires Valid()
      ensures seen <==> exists i :: |history| - window <= i < |history| && 0 <= i && history[i].nonce == nonce
    {
      var k := 0;
      while k < |nonces|
        invariant 0 <= k <= |nonces|
        invariant forall j :: 0 <= j < k ==> nonces[j] != nonce
      {
        if nonces[k] == nonce {
          assert history[|history| - |nonces| + k].nonce == nonce;
          return true;
        }
        k := k + 1;
      }
      forall i | |history| - window <= i < |history| && 0 <= i ensures history[i].nonce != nonce {
        assert nonces[i - (|history| - |nonces|)] == history[i].nonce;
      }
      return false;
    }

    /** Keep the newest `window` nonces. */
    method Remember(nonce: nat)
      modifies `nonces
      ensures nonces == Newest(old(nonces) + [nonce], window)
    {
      nonces := nonces + [nonce];
      while |nonces| > window
        invariant Newest(nonces, window) == Newest(old(nonces) + [nonce], window)
        decreases |nonces|
      {
        nonces := nonces[1..];
      }
    }
  }

  function NoncesOf(history: seq<Stamp>): seq<nat> {
    seq(|history|, i requires 0 <= i < |history| => history[i].nonce)
  }

  lemma NewestAgain(s: seq<nat>, nonce: nat, window: nat)
    requires window >= 1
    ensures Newest(Newest(s, window) + [nonce], window) == Newest(s + [nonce], window)
  {}

  function Newest(s: seq<nat>, window: nat): seq<nat> {
    if |s| <= window then s else s[|s| - window..]
  }

  /** Running a whole trace through a new window accepts what the history rule accepts. */
  method Run(window: nat, trace: seq<Stamp>) returns (w: ReplayWindow)
    ensures fresh(w) && w.Valid()
    ensures w.history == Accepted([], w.window, trace)
    ensures w.accepted + w.rejected == |trace|
  {
    w := new ReplayWindow(window);
    var i := 0;
    while i < |trace|
      invariant 0 <= i <= |trace| && fresh(w) && w.Valid()
      invariant Accepted(w.history, w.window, trace[i..]) == Accepted([], w.window, trace)
      invariant w.accepted + w.rejected == i
    {
      assert trace[i..][0] == trace[i] && trace[i..][1..] == trace[i + 1..];
      var error := w.Accept(trace[i].sequence, trace[i].nonce);
      i := i + 1;
    }
  }
}
