/** Whether a line may start over the other sound on the machine, and the hold
    that waits for it. */
module SoundYield {
  import opened Options
  import opened Seqs

  // ---------------------------------------------------------------- assessment

  datatype Settings = Settings(enabled: bool, meetingHold: bool, playersOnly: bool, maxWait: real, poll: real)

  /** A process that uses the sound devices, with the lists it is on. */
  datatype Process = Process(own: bool, output: bool, input: bool, meetingApp: bool, always: bool, excepted: bool, player: bool)

  /** What the probes say: no process list or no device state when one fails. */
  datatype World = World(manualMeeting: bool, playing: Option<seq<Process>>, deviceBusy: Option<bool>, ownPlayerAlive: bool)

  datatype Look = Look(settings: Settings, world: World)

  datatype Mode = Off | ProcessList | DeviceFallback | Unavailable

  datatype Reason = NoReason | Sound | Meeting

  datatype Assessment = Assessment(hold: bool, mode: Mode, reason: Reason, own: seq<Process>, meeting: seq<Process>,
                                   mic: seq<Process>, blockers: seq<Process>, excepted: seq<Process>, others: seq<Process>)

  datatype Sort = Own | InMeeting | Mic | Blocker | Excepted | Other

  function SortOf(p: Process, s: Settings): Sort {
    if p.own then Own
    else if p.input && s.meetingHold && p.meetingApp then InMeeting
    else if p.input && !p.output then Mic
    else if p.always then Blocker
    else if p.excepted then Excepted
    else if s.playersOnly && !p.player then Other
    else Blocker
  }

  /** Another app's meeting: its app holds the microphone while meetings hold. */
  predicate HasMeeting(p: Process, s: Settings) { !p.own && p.input && s.meetingHold && p.meetingApp }

  /** Another app only listening: no meeting, and nothing to hear of it. */
  predicate OnlyListens(p: Process, s: Settings) { !p.own && p.input && !p.output && !(s.meetingHold && p.meetingApp) }

  /** Another app to be heard, not in a meeting. */
  predicate IsHeard(p: Process, s: Settings) { !p.own && (p.output || !p.input) && !(p.input && s.meetingHold && p.meetingApp) }

  /** What a line waits for: what always holds, or what is no exception and,
      unless any app holds, on the players list. */
  predicate KeepsItWaiting(p: Process, s: Settings) {
    IsHeard(p, s) && (p.always || (!p.excepted && (p.player || !s.playersOnly)))
  }

  lemma WhichList(p: Process, s: Settings)
    ensures SortOf(p, s) == Own <==> p.own
    ensures SortOf(p, s) == InMeeting <==> HasMeeting(p, s)
    ensures SortOf(p, s) == Mic <==> OnlyListens(p, s)
    ensures SortOf(p, s) == Blocker <==> KeepsItWaiting(p, s)
    ensures SortOf(p, s) == Excepted <==> IsHeard(p, s) && !p.always && p.excepted
    ensures SortOf(p, s) == Other <==> IsHeard(p, s) && !p.always && !p.excepted && !p.player && s.playersOnly
  {
  }

  /** The list has exactly the processes of these flags, each as often as it
      was found and in the order found. */
  ghost predicate Picks(list: seq<Process>, ps: seq<Process>, flags: Process -> bool) {
    PartOf(list, ps) && forall p :: multiset(list)[p] == if flags(p) then multiset(ps)[p] else 0
  }

  function InOwn(): Process -> bool { (p: Process) => p.own }

  function InAMeeting(s: Settings): Process -> bool { (p: Process) => HasMeeting(p, s) }

  function Listening(s: Settings): Process -> bool { (p: Process) => OnlyListens(p, s) }

  function Waited(s: Settings): Process -> bool { (p: Process) => KeepsItWaiting(p, s) }

  function AnException(s: Settings): Process -> bool { (p: Process) => IsHeard(p, s) && !p.always && p.excepted }

  function NoPlayer(s: Settings): Process -> bool {
    (p: Process) => IsHeard(p, s) && !p.always && !p.excepted && !p.player && s.playersOnly
  }

  /** Each process is on the list its own flags say, and on that one only. */
  ghost predicate ListedByFlags(r: Assessment, ps: seq<Process>, s: Settings) {
    && Picks(r.own, ps, InOwn()) && Picks(r.meeting, ps, InAMeeting(s)) && Picks(r.mic, ps, Listening(s))
    && Picks(r.blockers, ps, Waited(s)) && Picks(r.excepted, ps, AnException(s)) && Picks(r.others, ps, NoPlayer(s))
  }

  lemma {:induction false} SortedIsPart(ps: seq<Process>, sort: Sort, s: Settings)
    ensures PartOf(Sorted(ps, sort, s), ps)
  {
    if ps != [] {
      var front, last := ps[..|ps| - 1], ps[|ps| - 1];
      SortedIsPart(front, sort, s);
      PartOfMore(Sorted(front, sort, s), front, [last]);
      assert ps == front + [last];
      assert Sorted(front, sort, s) + [] == Sorted(front, sort, s);
    }
  }

  lemma {:induction false} SortedCounts(ps: seq<Process>, sort: Sort, s: Settings, p: Process)
    ensures multiset(Sorted(ps, sort, s))[p] == if SortOf(p, s) == sort then multiset(ps)[p] else 0
  {
    if ps != [] {
      SortedCounts(ps[..|ps| - 1], sort, s, p);
      assert ps == ps[..|ps| - 1] + [ps[|ps| - 1]];
      OneMoreCounted(ps[..|ps| - 1], ps[|ps| - 1], sort, s, p);
    }
  }

  lemma OneMoreCounted(ps: seq<Process>, last: Process, sort: Sort, s: Settings, p: Process)
    ensures multiset(Sorted(ps + [last], sort, s))[p]
         == multiset(Sorted(ps, sort, s))[p] + if last == p && SortOf(p, s) == sort then 1 else 0
    ensures multiset(ps + [last])[p] == multiset(ps)[p] + if last == p then 1 else 0
  {
    assert (ps + [last])[..|ps|] == ps;
  }

  lemma SortIsPicked(ps: seq<Process>, sort: Sort, s: Settings, flags: Process -> bool)
    requires forall p :: SortOf(p, s) == sort <==> flags(p)
    ensures Picks(Sorted(ps, sort, s), ps, flags)
  {
    SortedIsPart(ps, sort, s);
    forall p ensures multiset(Sorted(ps, sort, s))[p] == if flags(p) then multiset(ps)[p] else 0 { SortedCounts(ps, sort, s, p); }
  }

  lemma OwnIsPicked(ps: seq<Process>, s: Settings)
    ensures Picks(Sorted(ps, Own, s), ps, InOwn())
  {
    forall p ensures SortOf(p, s) == Own <==> InOwn()(p) { WhichList(p, s); }
    SortIsPicked(ps, Own, s, InOwn());
  }

  lemma MeetingIsPicked(ps: seq<Process>, s: Settings)
    ensures Picks(Sorted(ps, InMeeting, s), ps, InAMeeting(s))
  {
    forall p ensures SortOf(p, s) == InMeeting <==> InAMeeting(s)(p) { WhichList(p, s); }
    SortIsPicked(ps, InMeeting, s, InAMeeting(s));
  }

  lemma MicIsPicked(ps: seq<Process>, s: Settings)
    ensures Picks(Sorted(ps, Mic, s), ps, Listening(s))
  {
    forall p ensures SortOf(p, s) == Mic <==> Listening(s)(p) { WhichList(p, s); }
    SortIsPicked(ps, Mic, s, Listening(s));
  }

  lemma BlockersArePicked(ps: seq<Process>, s: Settings)
    ensures Picks(Sorted(ps, Blocker, s), ps, Waited(s))
  {
    forall p ensures SortOf(p, s) == Blocker <==> Waited(s)(p) { WhichList(p, s); }
    SortIsPicked(ps, Blocker, s, Waited(s));
  }

  lemma ExceptedIsPicked(ps: seq<Process>, s: Settings)
    ensures Picks(Sorted(ps, Excepted, s), ps, AnException(s))
  {
    forall p ensures SortOf(p, s) == Excepted <==> AnException(s)(p) { WhichList(p, s); }
    SortIsPicked(ps, Excepted, s, AnException(s));
  }

  lemma OthersArePicked(ps: seq<Process>, s: Settings)
    ensures Picks(Sorted(ps, Other, s), ps, NoPlayer(s))
  {
    forall p ensures SortOf(p, s) == Other <==> NoPlayer(s)(p) { WhichList(p, s); }
    SortIsPicked(ps, Other, s, NoPlayer(s));
  }

  lemma SortedIsByFlags(r: Assessment, ps: seq<Process>, s: Settings)
    requires SortedInto(r, ps, s)
    ensures ListedByFlags(r, ps, s)
  {
    OwnIsPicked(ps, s);
    MeetingIsPicked(ps, s);
    MicIsPicked(ps, s);
    BlockersArePicked(ps, s);
    ExceptedIsPicked(ps, s);
    OthersArePicked(ps, s);
  }

  /** Why a look holds, on the flags of the processes and the settings. */
  ghost predicate ReasonIsRight(look: Look, reason: Reason) {
    var w, s := look.world, look.settings;
    && (reason == Meeting <==>
          w.manualMeeting || (s.enabled && w.playing.Some? && exists p :: p in w.playing.value && HasMeeting(p, s)))
    && (reason == Sound <==>
          && s.enabled && reason != Meeting
          && (w.playing.Some? ==> exists p :: p in w.playing.value && KeepsItWaiting(p, s))
          && (w.playing.None? ==> w.deviceBusy == Some(true) && !w.ownPlayerAlive))
  }

  /** With a process list and the hold on, a line waits for sound exactly when
      there is no meeting and some process keeps it waiting; without a list the
      device alone says. */
  lemma TheReasonIsRight(look: Look)
    ensures ReasonIsRight(look, ReasonOf(look))
  {
    if look.world.playing.Some? {
      forall p | p in look.world.playing.value ensures SortOf(p, look.settings) == InMeeting <==> HasMeeting(p, look.settings) {
        WhichList(p, look.settings);
      }
      forall p | p in look.world.playing.value ensures SortOf(p, look.settings) == Blocker <==> KeepsItWaiting(p, look.settings) {
        WhichList(p, look.settings);
      }
    }
  }

  function Sorted(ps: seq<Process>, sort: Sort, s: Settings): (r: seq<Process>)
    ensures r != [] <==> exists p :: p in ps && SortOf(p, s) == sort
  {
    if ps == [] then []
    else Sorted(ps[..|ps| - 1], sort, s) + if SortOf(ps[|ps| - 1], s) == sort then [ps[|ps| - 1]] else []
  }

  const Blank := Assessment(false, ProcessList, NoReason, [], [], [], [], [], [])

  /** A meeting, found or set by hand, wins over sound. */
  method Finish(result: Assessment, manual: bool) returns (r: Assessment)
    ensures r == result.(hold := r.hold, reason := r.reason)
    ensures r.reason == Meeting <==> manual || result.meeting != []
    ensures r.reason == Sound <==> !manual && result.meeting == [] && result.blockers != []
    ensures r.hold <==> r.reason != NoReason
  {
    if result.meeting != [] || manual { return result.(hold := true, reason := Meeting); }
    if result.blockers != [] { return result.(hold := true, reason := Sound); }
    return result.(hold := false, reason := NoReason);
  }

  method AssessFallback(w: World) returns (r: Assessment)
    ensures r.meeting == [] && r.excepted == r.mic == r.others == []
    ensures r.mode == Unavailable <==> w.deviceBusy.None?
    ensures r.mode == DeviceFallback <==> w.deviceBusy.Some?
    ensures r.blockers != [] <==> w.deviceBusy == Some(true) && !w.ownPlayerAlive
  {
    r := Blank.(mode := Unavailable);
    if w.deviceBusy.None? { return; }
    r := r.(mode := DeviceFallback);
    if !w.deviceBusy.value { return; }
    var device := Process(false, true, false, false, false, false, false);
    if w.ownPlayerAlive { return r.(own := [device.(own := true)]); }
    return r.(blockers := [device]);
  }

  predicate FoundMeeting(look: Look) {
    && look.settings.enabled && look.world.playing.Some?
    && exists p :: p in look.world.playing.value && SortOf(p, look.settings) == InMeeting
  }

  predicate FoundSound(look: Look) {
    && look.settings.enabled
    && match look.world.playing
       case Some(ps) => exists p :: p in ps && SortOf(p, look.settings) == Blocker
       case None => look.world.deviceBusy == Some(true) && !look.world.ownPlayerAlive
  }

  function ModeOf(look: Look): Mode {
    if !look.settings.enabled then Off
    else if look.world.playing.Some? then ProcessList
    else if look.world.deviceBusy.Some? then DeviceFallback
    else Unavailable
  }

  function ReasonOf(look: Look): Reason {
    if look.world.manualMeeting || FoundMeeting(look) then Meeting else if FoundSound(look) then Sound else NoReason
  }

  /** Each process goes to one list; the line is held exactly when there is a
      reason: a meeting set by hand always, others only while switched on. */
  method Assess(look: Look) returns (r: Assessment)
    ensures r.mode == ModeOf(look) && r.reason == ReasonOf(look) && (r.hold <==> r.reason != NoReason)
    ensures r.mode == Off <==> !look.settings.enabled
    ensures r.mode == ProcessList <==> look.settings.enabled && look.world.playing.Some?
    ensures r.mode == DeviceFallback <==> look.settings.enabled && look.world.playing.None? && look.world.deviceBusy.Some?
    ensures ReasonIsRight(look, r.reason)
    ensures r.mode == ProcessList ==> SortedInto(r, look.world.playing.value, look.settings)
    ensures r.mode == ProcessList ==> ListedByFlags(r, look.world.playing.value, look.settings)
  {
    TheReasonIsRight(look);
    var s, manual := look.settings, look.world.manualMeeting;
    if !s.enabled {
      r := Blank.(mode := Off);
      if manual { r := r.(hold := true, reason := Meeting); }
      return;
    }
    if look.world.playing.None? {
      r := AssessFallback(look.world);
      r := Finish(r, manual);
      return;
    }
    var ps := look.world.playing.value;
    r := SortAll(ps, s);
    r := Finish(r, manual);
    SortedIsByFlags(r, ps, s);
  }

  predicate SortedInto(r: Assessment, ps: seq<Process>, s: Settings) {
    && r.own == Sorted(ps, Own, s) && r.meeting == Sorted(ps, InMeeting, s) && r.mic == Sorted(ps, Mic, s)
    && r.blockers == Sorted(ps, Blocker, s) && r.excepted == Sorted(ps, Excepted, s) && r.others == Sorted(ps, Other, s)
  }

  method SortAll(ps: seq<Process>, s: Settings) returns (r: Assessment)
    ensures r.mode == ProcessList && SortedInto(r, ps, s)
  {
    r := Blank;
    var i := 0;
    while i < |ps|
      invariant i <= |ps| && r.mode == ProcessList && SortedInto(r, ps[..i], s)
    {
      var p := ps[i];
      assert ps[..i + 1][..i] == ps[..i];
      if p.own { r := r.(own := r.own + [p]); }
      else if p.input && s.meetingHold && p.meetingApp { r := r.(meeting := r.meeting + [p]); }
      else if p.input && !p.output { r := r.(mic := r.mic + [p]); }
      else if p.always { r := r.(blockers := r.blockers + [p]); }
      else if p.excepted { r := r.(excepted := r.excepted + [p]); }
      else if s.playersOnly && !p.player { r := r.(others := r.others + [p]); }
      else { r := r.(blockers := r.blockers + [p]); }
      i := i + 1;
    }
    assert ps[..i] == ps;
  }

  // ------------------------------------------------------------------ the wait

  datatype Status = Clear | Resumed | Expired | Aborted | Disabled | NoProbe

  datatype Outcome = Outcome(status: Status, waited: real, reason: Reason, told: bool)

  /** One time round the loop: the abort asked first, the time the round took
      beyond its sleep, and the look taken after it. */
  datatype Round = Round(abort: bool, extra: real, look: Look)

  predicate MayPlay(o: Outcome) { o.status == Clear || o.status == Resumed || o.status == Disabled || o.status == NoProbe }

  function Most(x: real, y: real): real { if x >= y then x else y }
  function Least(x: real, y: real): real { if x <= y then x else y }

  /** What is left of the longest wait, the time the line waited before it came
      here counted. */
  function Budget(s: Settings, already: real): (left: real)
    ensures left >= 0.0
    ensures 0.0 <= already <= s.maxWait ==> left + already == s.maxWait
    ensures already <= 0.0 <= s.maxWait ==> left == s.maxWait
    ensures already >= s.maxWait || s.maxWait <= 0.0 ==> left == 0.0
  {
    Most(0.0, s.maxWait - Most(0.0, already))
  }

  function Nap(s: Settings, already: real, waited: real): real { Least(s.poll, Most(0.0, Budget(s, already) - waited)) }

  /** How a look ends the wait, if it does. */
  function Verdict(look: Look, clear: Status, waited: real, told: bool): Option<Outcome> {
    var because := if told then Sound else NoReason;
    if ReasonOf(look) == Meeting then Some(Outcome(Expired, waited, Meeting, told))
    else if ModeOf(look) == Off then Some(Outcome(Disabled, waited, because, told))
    else if ModeOf(look) == Unavailable then Some(Outcome(NoProbe, waited, because, told))
    else if ReasonOf(look) == NoReason then Some(Outcome(clear, waited, because, told))
    else None
  }

  /** The waits and how many rounds slept; no outcome while the wait goes on. */
  datatype Held = Held(outcome: Option<Outcome>, naps: seq<real>)

  function HoldFrom(s: Settings, waited: real, rounds: seq<Round>, already: real): (h: Held)
    ensures |h.naps| <= |rounds|
    decreases |rounds|
  {
    if rounds == [] then Held(None, [])
    else if rounds[0].abort then Held(Some(Outcome(Aborted, waited, Sound, true)), [])
    else if waited >= Budget(s, already) then Held(Some(Outcome(Expired, waited, Sound, true)), [])
    else
      var nap := Nap(s, already, waited);
      var now := waited + nap + rounds[0].extra;
      var v := Verdict(rounds[0].look, Resumed, now, true);
      if v.Some? then Held(v, [nap])
      else
        var rest := HoldFrom(rounds[0].look.settings, now, rounds[1..], already);
        Held(rest.outcome, [nap] + rest.naps)
  }

  function Hold(first: Look, rounds: seq<Round>, already: real): (h: Held)
    ensures |h.naps| <= |rounds|
  {
    var v := Verdict(first, Clear, 0.0, false);
    if v.Some? then Held(v, []) else HoldFrom(first.settings, 0.0, rounds, already)
  }

  function Behind(naps: seq<real>, h: Held): Held { Held(h.outcome, naps + h.naps) }

  lemma BehindBehind(a: seq<real>, b: seq<real>, h: Held)
    ensures Behind(a, Behind(b, h)) == Behind(a + b, h)
  {
    assert a + (b + h.naps) == a + b + h.naps;
  }

  lemma HoldGoesOn(s: Settings, waited: real, rounds: seq<Round>, k: nat, already: real)
    requires k < |rounds|
    ensures HoldFrom(s, waited, rounds[k..], already)
         == OneRound(s, waited, rounds[k], already, rounds[k + 1..])
  {
    assert rounds[k..][1..] == rounds[k + 1..];
  }

  function OneRound(s: Settings, waited: real, r: Round, already: real, rest: seq<Round>): Held {
    if r.abort then Held(Some(Outcome(Aborted, waited, Sound, true)), [])
    else if waited >= Budget(s, already) then Held(Some(Outcome(Expired, waited, Sound, true)), [])
    else
      var nap := Nap(s, already, waited);
      var now := waited + nap + r.extra;
      var v := Verdict(r.look, Resumed, now, true);
      if v.Some? then Held(v, [nap]) else Behind([nap], HoldFrom(r.look.settings, now, rest, already))
  }

  /** `rounds` is any run of answers; without an outcome the wait is not over
      at their end. */
  method WaitUntilClear(first: Look, rounds: seq<Round>, already: real) returns (h: Held)
    ensures h == Hold(first, rounds, already)
  {
    var settings := first.settings;
    var a := Assess(first);
    if a.reason == Meeting { return Held(Some(Outcome(Expired, 0.0, Meeting, false)), []); }
    if a.mode == Off { return Held(Some(Outcome(Disabled, 0.0, NoReason, false)), []); }
    if a.mode == Unavailable { return Held(Some(Outcome(NoProbe, 0.0, NoReason, false)), []); }
    if !a.hold { return Held(Some(Outcome(Clear, 0.0, NoReason, false)), []); }
    h := HoldOn(settings, rounds, already);
  }

  /** The polling loop. */
  method HoldOn(first: Settings, rounds: seq<Round>, already: real) returns (h: Held)
    ensures h == HoldFrom(first, 0.0, rounds, already)
  {
    var settings, waited, naps, k := first, 0.0, [], 0;
    assert rounds[0..] == rounds;
    while k < |rounds|
      invariant k <= |rounds|
      invariant HoldFrom(first, 0.0, rounds, already) == Behind(naps, HoldFrom(settings, waited, rounds[k..], already))
    {
      HoldGoesOn(settings, waited, rounds, k, already);
      var over, slept := OneTimeRound(settings, waited, rounds[k], already);
      if over.Some? { return Held(over, naps + slept); }
      settings, waited := rounds[k].look.settings, waited + slept[0] + rounds[k].extra;
      BehindBehind(naps, slept, HoldFrom(settings, waited, rounds[k + 1..], already));
      naps := naps + slept;
      k := k + 1;
    }
    return Held(None, naps);
  }

  function Going(over: Option<Outcome>, slept: seq<real>, waited: real, r: Round, already: real, rest: seq<Round>): Held {
    if over.Some? || slept == [] then Held(over, slept)
    else Behind(slept, HoldFrom(r.look.settings, waited + slept[0] + r.extra, rest, already))
  }

  /** One time round the loop: how it ends the wait, if it does, and its sleep. */
  method OneTimeRound(s: Settings, waited: real, r: Round, already: real) returns (over: Option<Outcome>, slept: seq<real>)
    ensures over.None? ==> slept == [Nap(s, already, waited)]
    ensures forall rest :: OneRound(s, waited, r, already, rest) == Going(over, slept, waited, r, already, rest)
  {
    if r.abort { return Some(Outcome(Aborted, waited, Sound, true)), []; }
    if waited >= Budget(s, already) { return Some(Outcome(Expired, waited, Sound, true)), []; }
    slept := [Nap(s, already, waited)];
    var now := waited + slept[0] + r.extra;
    var current := Assess(r.look);
    over := None;
    if current.reason == Meeting { over := Some(Outcome(Expired, now, Meeting, true)); }
    else if current.mode == Off { over := Some(Outcome(Disabled, now, Sound, true)); }
    else if current.mode == Unavailable { over := Some(Outcome(NoProbe, now, Sound, true)); }
    else if !current.hold { over := Some(Outcome(Resumed, now, Sound, true)); }
  }

  // ------------------------------------------------------------------ theorems

  /** The looks taken: the first one and one after each sleep. */
  function Looks(first: Look, rounds: seq<Round>, n: nat): (r: seq<Look>)
    requires n <= |rounds|
    ensures |r| == n + 1
  {
    [first] + seq(n, i requires 0 <= i < n => rounds[i].look)
  }

  /** Nothing in the look keeps a line from playing. */
  predicate Free(look: Look) {
    && ReasonOf(look) != Meeting
    && (ReasonOf(look) == NoReason || ModeOf(look) == Off || ModeOf(look) == Unavailable)
  }

  lemma {:induction false} HoldFromEndsOnItsLastLook(s: Settings, waited: real, rounds: seq<Round>, already: real)
    ensures var h := HoldFrom(s, waited, rounds, already); var n := |h.naps|;
            && (forall k :: 0 <= k < n - 1 ==> ReasonOf(rounds[k].look) == Sound && !Free(rounds[k].look))
            && (h.outcome.Some? && MayPlay(h.outcome.value) ==> n > 0 && Free(rounds[n - 1].look))
            && (h.outcome.Some? && h.outcome.value.reason == Meeting ==> n > 0 && ReasonOf(rounds[n - 1].look) == Meeting)
            && (n > 0 && Free(rounds[n - 1].look) ==> h.outcome.Some? && MayPlay(h.outcome.value))
            && (n > 0 && ReasonOf(rounds[n - 1].look) == Meeting ==> h.outcome.Some? && h.outcome.value.reason == Meeting)
    decreases |rounds|
  {
    var h := HoldFrom(s, waited, rounds, already);
    if rounds != [] && !rounds[0].abort && waited < Budget(s, already) {
      var now := waited + Nap(s, already, waited) + rounds[0].extra;
      if Verdict(rounds[0].look, Resumed, now, true).None? {
        var rest := HoldFrom(rounds[0].look.settings, now, rounds[1..], already);
        HoldFromEndsOnItsLastLook(rounds[0].look.settings, now, rounds[1..], already);
        assert forall k :: 1 <= k < |rounds| ==> rounds[k] == rounds[1..][k - 1];
      }
    }
  }

  /** The line may play exactly when the last look is free: nothing holds, or
      the hold is off or cannot be probed. Every look before it held for sound,
      so nothing sleeps after a meeting is seen; a meeting sets it aside. */
  lemma TheLastLookDecides(first: Look, rounds: seq<Round>, already: real)
    ensures var h := Hold(first, rounds, already);
            var n := |h.naps|; var looks := Looks(first, rounds, n);
            && (forall k :: 0 <= k < n ==> ReasonOf(looks[k]) == Sound && !Free(looks[k]))
            && (Free(looks[n]) <==> h.outcome.Some? && MayPlay(h.outcome.value))
            && (ReasonOf(looks[n]) == Meeting <==> h.outcome.Some? && h.outcome.value.reason == Meeting)
  {
    if Verdict(first, Clear, 0.0, false).None? {
      HoldFromEndsOnItsLastLook(first.settings, 0.0, rounds, already);
    }
  }

  /** The time that went by in the first `n` rounds, over their sleeps. */
  function Extra(rounds: seq<Round>, n: nat): real
    requires n <= |rounds|
  {
    if n == 0 then 0.0 else Extra(rounds, n - 1) + rounds[n - 1].extra
  }

  lemma {:induction false} ExtraOfMore(r: Round, rounds: seq<Round>, n: nat)
    requires n <= |rounds|
    ensures Extra([r] + rounds, n + 1) == r.extra + Extra(rounds, n)
  {
    if n > 0 { ExtraOfMore(r, rounds, n - 1); }
  }

  /** How a wait that is over ended: after the last look, or before one more. */
  predicate EndsRightly(o: Outcome, last: Look, slept: bool, next: Option<Round>, budget: real) {
    match o.status
    case Clear => !slept && last.settings.enabled && ReasonOf(last) == NoReason
    case Resumed => slept && last.settings.enabled && ReasonOf(last) == NoReason
    case Disabled => !last.settings.enabled && !last.world.manualMeeting
    case NoProbe => last.settings.enabled && last.world.playing.None? && last.world.deviceBusy.None? && ReasonOf(last) != Meeting
    case Aborted => ReasonOf(last) == Sound && next.Some? && next.value.abort
    case Expired => ReasonOf(last) == Meeting || (ReasonOf(last) == Sound && next.Some? && !next.value.abort && o.waited >= budget)
  }

  lemma {:induction false} HoldFromEndsRightly(s: Settings, before: Look, waited: real, rounds: seq<Round>, already: real)
    requires before.settings == s && ReasonOf(before) == Sound
    ensures var h := HoldFrom(s, waited, rounds, already); var n := |h.naps|;
            h.outcome.Some? ==>
              && var o := h.outcome.value;
              && o.waited == waited + Slept(h.naps) + Extra(rounds, n) && o.told
              && o.reason == (if ReasonOf(LastLook(before, rounds, n)) == Meeting then Meeting else Sound)
              && EndsRightly(o, LastLook(before, rounds, n), n > 0 || o.status == Resumed, Coming(rounds, n),
                             Budget(LastLook(before, rounds, n).settings, already))
    decreases |rounds|
  {
    if rounds != [] && !rounds[0].abort && waited < Budget(s, already) {
      var now := waited + Nap(s, already, waited) + rounds[0].extra;
      var h := HoldFrom(s, waited, rounds, already);
      assert Extra(rounds, 1) == rounds[0].extra;
      if Verdict(rounds[0].look, Resumed, now, true).None? {
        HoldFromEndsRightly(rounds[0].look.settings, rounds[0].look, now, rounds[1..], already);
        var rest := HoldFrom(rounds[0].look.settings, now, rounds[1..], already);
        OneRoundOn(before, rounds, |rest.naps|);
        assert h.naps[1..] == rest.naps;
      }
    }
  }

  function LastLook(before: Look, rounds: seq<Round>, n: nat): Look
    requires n <= |rounds|
  {
    if n == 0 then before else rounds[n - 1].look
  }

  function Coming(rounds: seq<Round>, n: nat): Option<Round> { if n < |rounds| then Some(rounds[n]) else None }

  lemma OneRoundOn(before: Look, rounds: seq<Round>, n: nat)
    requires rounds != [] && n <= |rounds[1..]|
    ensures LastLook(rounds[0].look, rounds[1..], n) == LastLook(before, rounds, n + 1)
    ensures Coming(rounds[1..], n) == Coming(rounds, n + 1)
    ensures Extra(rounds, n + 1) == rounds[0].extra + Extra(rounds[1..], n)
  {
    ExtraOfMore(rounds[0], rounds[1..], n);
    First(rounds);
  }

  /** What the wait reports: how it ended, as the last look and the abort say;
      the time it took, sleeps and all; and whether the line was ever held. */
  lemma TheOutcomeIsRight(first: Look, rounds: seq<Round>, already: real)
    ensures var h := Hold(first, rounds, already); var n := |h.naps|; var last := LastLook(first, rounds, n);
            h.outcome.Some? ==>
              && var o := h.outcome.value;
              && o.waited == Slept(h.naps) + Extra(rounds, n)
              && (o.told <==> ReasonOf(first) == Sound)
              && o.reason == (if ReasonOf(last) == Meeting then Meeting else if o.told then Sound else NoReason)
              && EndsRightly(o, last, n > 0, Coming(rounds, n), Budget(last.settings, already))
  {
    if Verdict(first, Clear, 0.0, false).None? { HoldFromEndsRightly(first.settings, first, 0.0, rounds, already); }
  }

  predicate Steady(s: Settings, rounds: seq<Round>) {
    forall k :: 0 <= k < |rounds| ==>
      rounds[k].look.settings.maxWait == s.maxWait && rounds[k].look.settings.poll == s.poll && rounds[k].extra >= 0.0
  }

  function Slept(naps: seq<real>): real { if naps == [] then 0.0 else naps[0] + Slept(naps[1..]) }

  /** So many naps fit in what is left of the budget, and so do their lengths. */
  predicate Fit(naps: seq<real>, poll: real, left: real) {
    (naps != [] ==> (|naps| - 1) as real * poll < left) && Slept(naps) <= Most(0.0, left)
  }

  lemma OneMoreNap(nap: real, naps: seq<real>, poll: real, budget: real, waited: real, now: real)
    requires poll > 0.0 && waited < budget && nap == Least(poll, budget - waited) && now >= waited + nap
    requires Fit(naps, poll, budget - now)
    ensures Fit([nap] + naps, poll, budget - waited)
  {
    assert ([nap] + naps)[1..] == naps;
    if naps != [] {
      var n := (|naps| - 1) as real;
      assert n * poll >= 0.0;
      assert (n + 1.0) * poll == n * poll + poll;
    }
  }

  lemma {:induction false} HoldFromIsBounded(s: Settings, waited: real, rounds: seq<Round>, already: real)
    requires Steady(s, rounds) && s.poll > 0.0 && waited >= 0.0
    ensures Fit(HoldFrom(s, waited, rounds, already).naps, s.poll, Budget(s, already) - waited)
    decreases |rounds|
  {
    if rounds != [] && !rounds[0].abort && waited < Budget(s, already) {
      var nap := Nap(s, already, waited);
      var now := waited + nap + rounds[0].extra;
      var next := rounds[0].look.settings;
      HoldStarts(s, waited, rounds, already);
      OneMoreNap(nap, [], s.poll, Budget(s, already), waited, now);
      assert [nap] + [] == [nap];
      if Verdict(rounds[0].look, Resumed, now, true).None? {
        HoldFromIsBounded(next, now, rounds[1..], already);
        OneMoreNap(nap, HoldFrom(next, now, rounds[1..], already).naps, s.poll, Budget(s, already), waited, now);
      }
    }
  }

  lemma HoldStarts(s: Settings, waited: real, rounds: seq<Round>, already: real)
    requires rounds != []
    ensures HoldFrom(s, waited, rounds, already) == OneRound(s, waited, rounds[0], already, rounds[1..])
  {
  }

  lemma {:induction false} AWaitThatIsNotOverUsedEveryRound(s: Settings, waited: real, rounds: seq<Round>, already: real)
    ensures var h := HoldFrom(s, waited, rounds, already); h.outcome.None? ==> |h.naps| == |rounds|
    decreases |rounds|
  {
    if rounds != [] {
      var now := waited + Nap(s, already, waited) + rounds[0].extra;
      AWaitThatIsNotOverUsedEveryRound(rounds[0].look.settings, now, rounds[1..], already);
    }
  }

  /** With the longest wait and the poll unchanged, the loop sleeps no more
      often than the budget has polls (the last begun one included), sleeps no
      longer than the budget in all, and is over by then. */
  lemma TheWaitIsBounded(first: Look, rounds: seq<Round>, already: real)
    requires Steady(first.settings, rounds) && first.settings.poll > 0.0
    ensures var h, s := Hold(first, rounds, already), first.settings;
            && (h.naps != [] ==> (|h.naps| - 1) as real * s.poll < Budget(s, already))
            && Slept(h.naps) <= Budget(s, already)
            && (|rounds| > 0 && (|rounds| - 1) as real * s.poll >= Budget(s, already) ==> h.outcome.Some?)
  {
    HoldFromIsBounded(first.settings, 0.0, rounds, already);
    AWaitThatIsNotOverUsedEveryRound(first.settings, 0.0, rounds, already);
  }

  /** A line is set aside for sound only when it waited out its budget. */
  lemma {:induction false} SetAsideOnlyAfterItsWait(s: Settings, waited: real, rounds: seq<Round>, already: real)
    ensures var h := HoldFrom(s, waited, rounds, already); var n := |h.naps|;
            h.outcome.Some? && h.outcome.value.status == Expired && h.outcome.value.reason == Sound ==>
              h.outcome.value.waited >= Budget(if n == 0 then s else rounds[n - 1].look.settings, already)
    decreases |rounds|
  {
    if rounds != [] && !rounds[0].abort && waited < Budget(s, already) {
      var now := waited + Nap(s, already, waited) + rounds[0].extra;
      if Verdict(rounds[0].look, Resumed, now, true).None? {
        SetAsideOnlyAfterItsWait(rounds[0].look.settings, now, rounds[1..], already);
      }
    }
  }
}
