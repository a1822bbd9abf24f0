/** The watch over a clip that is playing: cut only when it stands still, or
    when nothing was ever heard of it. */
module PlaybackWatch {
  import opened Options

  datatype Reading = Reading(position: real, paused: bool)

  /** What one time round the loop sees: the player gone, or the time and what
      it says of its progress, if it can be read. */
  datatype Event = Exited | Tick(now: real, reading: Option<Reading>)

  /** How the watch ended, at which event; or the trace ended first. */
  datatype Watched = Finished(at: nat) | Stalled(at: nat, position: real) | TimedOut(at: nat) | StillPlaying

  predicate InOrder(start: real, trace: seq<Event>) {
    && (forall i :: 0 <= i < |trace| && trace[i].Tick? ==> start <= trace[i].now)
    && (forall i, j :: 0 <= i < j < |trace| && trace[i].Tick? && trace[j].Tick? ==> trace[i].now <= trace[j].now)
  }

  predicate Read(e: Event) { e.Tick? && e.reading.Some? }

  /** From `j` on, up to `k`, every position that could be read is that of
      `j`, and not paused. */
  predicate Still(trace: seq<Event>, j: nat, k: nat)
    requires j <= k < |trace|
  {
    && Read(trace[j])
    && forall i :: j < i <= k && Read(trace[i]) ==>
         !trace[i].reading.value.paused && trace[i].reading.value.position == trace[j].reading.value.position
  }

  predicate StalledAt(trace: seq<Event>, k: nat, stall: real)
    requires k < |trace|
  {
    stall > 0.0 && trace[k].Tick? && exists j :: 0 <= j < k && Still(trace, j, k) && trace[k].now - trace[j].now >= stall
  }

  predicate TimedOutAt(trace: seq<Event>, k: nat, start: real, timeout: Option<real>)
    requires k < |trace|
  {
    && timeout.Some? && trace[k].Tick? && trace[k].now - start >= timeout.value
    && forall i :: 0 <= i <= k ==> !Read(trace[i])
  }

  /** Nothing ends the watch before event `n`. */
  predicate Quiet(trace: seq<Event>, n: nat, start: real, stall: real, timeout: Option<real>)
    requires n <= |trace|
  {
    forall k :: 0 <= k < n ==> trace[k].Tick? && !StalledAt(trace, k, stall) && !TimedOutAt(trace, k, start, timeout)
  }

  /** The watch ends at the first event that ends it: the player gone, a stall
      or a time-out, each exactly as stated above. */
  method WaitForExit(start: real, stall: real, timeout: Option<real>, trace: seq<Event>) returns (r: Watched)
    requires InOrder(start, trace)
    ensures r.StillPlaying? ==> Quiet(trace, |trace|, start, stall, timeout)
    ensures !r.StillPlaying? ==> r.at < |trace| && Quiet(trace, r.at, start, stall, timeout)
    ensures r.Finished? ==> trace[r.at].Exited?
    ensures r.Stalled? ==> StalledAt(trace, r.at, stall)
    ensures r.TimedOut? ==> TimedOutAt(trace, r.at, start, timeout)
  {
    var lastAdvance := start;
    var lastPos: Option<real> := None;
    var everRead := false;
    ghost var j := 0;
    var k := 0;
    while k < |trace|
      invariant k <= |trace| && Quiet(trace, k, start, stall, timeout)
      invariant everRead <==> lastPos.Some?
      invariant !everRead ==> forall i :: 0 <= i < k ==> !Read(trace[i])
      invariant everRead ==> Latest(trace, j, k) && lastAdvance == trace[j].now && lastPos.value == trace[j].reading.value.position
    {
      if trace[k].Exited? { return Finished(k); }
      var now := trace[k].now;
      if trace[k].reading.Some? {
        everRead := true;
        var reading := trace[k].reading.value;
        if reading.paused || lastPos.None? || reading.position != lastPos.value {
          NoStallOnAdvance(trace, j, k, stall);
          j := k;
          lastPos, lastAdvance := Some(reading.position), now;
        } else if stall > 0.0 && now - lastAdvance >= stall {
          assert Still(trace, j, k);
          return Stalled(k, reading.position);
        } else {
          NoEarlierStill(trace, start, j, k, stall);
        }
      } else if everRead {
        if stall > 0.0 && now - lastAdvance >= stall {
          assert Still(trace, j, k);
          return Stalled(k, lastPos.GetOr(0.0));
        }
        NoEarlierStill(trace, start, j, k, stall);
      } else if timeout.Some? && now - start >= timeout.value {
        return TimedOut(k);
      }
      k := k + 1;
    }
    return StillPlaying;
  }

  /** `j` is the last reading before `k` that advanced: paused, the first one,
      or at another position than the reading before it. */
  predicate Latest(trace: seq<Event>, j: nat, k: nat)
    requires k <= |trace|
  {
    && j < k && Still(trace, j, k - 1)
    && (trace[j].reading.value.paused
        || forall i :: 0 <= i < j && Read(trace[i]) ==> !Still(trace, i, j))
  }

  lemma NoStallOnAdvance(trace: seq<Event>, j: nat, k: nat, stall: real)
    requires k < |trace| && Read(trace[k])
    requires trace[k].reading.value.paused
             || (forall i :: 0 <= i < k ==> !Read(trace[i]))
             || (Latest(trace, j, k) && trace[k].reading.value.position != trace[j].reading.value.position)
    ensures !StalledAt(trace, k, stall)
    ensures Latest(trace, k, k + 1)
  {
  }

  /** No reading before the last advance stands still up to `k`. */
  lemma NoEarlierStill(trace: seq<Event>, start: real, j: nat, k: nat, stall: real)
    requires k < |trace| && InOrder(start, trace) && Latest(trace, j, k) && Still(trace, j, k) && trace[k].Tick?
    requires !(stall > 0.0 && trace[k].now - trace[j].now >= stall)
    ensures !StalledAt(trace, k, stall)
  {
    forall i | 0 <= i < k && Still(trace, i, k) ensures trace[k].now - trace[i].now < stall || stall <= 0.0 {
      if i < j { assert Still(trace, i, j); }
    }
  }

  /** The reading at `i` is paused, the first one, or at another position than
      the reading before it. */
  predicate Advances(trace: seq<Event>, i: nat)
    requires i < |trace|
  {
    && Read(trace[i])
    && (trace[i].reading.value.paused
        || (forall j :: 0 <= j < i ==> !Read(trace[j]))
        || exists j :: 0 <= j < i && ReadBefore(trace, j, i)
                       && trace[j].reading.value.position != trace[i].reading.value.position)
  }

  /** `j` is the last reading before `i`. */
  predicate ReadBefore(trace: seq<Event>, j: nat, i: nat)
    requires j < i < |trace|
  {
    Read(trace[j]) && forall n :: j < n < i ==> !Read(trace[n])
  }

  /** At event `k` the clip is not to be cut: once its position was read, it
      advanced less than `stall` seconds ago (or the watch is off); before that,
      it is not yet `timeout` seconds since the start. */
  predicate Alive(trace: seq<Event>, k: nat, start: real, stall: real, timeout: Option<real>)
    requires k < |trace|
  {
    trace[k].Tick? ==>
      if exists i :: 0 <= i <= k && Read(trace[i])
      then stall <= 0.0 || exists i :: 0 <= i <= k && Advances(trace, i) && trace[k].now - trace[i].now < stall
      else timeout.None? || trace[k].now - start < timeout.value
  }

  lemma AnAdvanceEndsAStill(trace: seq<Event>, j: nat, i: nat, k: nat)
    requires j <= k < |trace| && i <= k && Advances(trace, i)
    ensures j < i ==> !Still(trace, j, k)
  {
  }

  lemma AliveIsNotCut(trace: seq<Event>, k: nat, start: real, stall: real, timeout: Option<real>)
    requires InOrder(start, trace) && k < |trace|
    ensures Alive(trace, k, start, stall, timeout) ==> !StalledAt(trace, k, stall) && !TimedOutAt(trace, k, start, timeout)
  {
    if i :| stall > 0.0 && trace[k].Tick? && 0 <= i <= k && Advances(trace, i) && trace[k].now - trace[i].now < stall {
      forall j | 0 <= j < k && Still(trace, j, k) ensures trace[k].now - trace[j].now < stall {
        AnAdvanceEndsAStill(trace, j, i, k);
      }
    }
  }

  /** A clip that is alive all along is never cut: the watch ends with the player
      gone, or goes on, over every such trace. */
  method WatchALiveClip(start: real, stall: real, timeout: Option<real>, trace: seq<Event>) returns (r: Watched)
    requires InOrder(start, trace)
    ensures (forall k :: 0 <= k < |trace| ==> Alive(trace, k, start, stall, timeout)) ==> r.Finished? || r.StillPlaying?
  {
    r := WaitForExit(start, stall, timeout, trace);
    if r.Stalled? || r.TimedOut? { AliveIsNotCut(trace, r.at, start, stall, timeout); }
  }
}
