/** Starting, resuming and stopping realtime sessions. Each critical section of the manager's mutex,
    and each action outside it, is one step; a run interleaves the steps of all callers and bots. */
module Sessions {
  import opened Types

  type Session = string

  /** How far the launch behind a context has come. */
  datatype Phase =
    | Reserved // marked as starting, bot being built
    | Failed   // given up, its context about to be cancelled
    | Running  // registered, bot running
    | Returned // bot has returned, cleanup outstanding
    | Finished // cleaned up

  /** A launch owns one context and at most one bot instance; all three are named by its index. */
  datatype Launch = Launch(session: Session, phase: Phase, cancelled: bool)

  datatype State = State(bots: map<Session, nat>, starting: map<Session, nat>, launches: seq<Launch>)

  datatype Event =
    | Reserve(session: Session)
    | Abandon(id: nat)
    | Register(id: nat, built: bool)
    | Release(id: nat)
    | Stop(session: Session)
    | Return(id: nat)
    | Cleanup(id: nat)

  predicate In(s: State, id: nat, phases: set<Phase>) {
    id < |s.launches| && s.launches[id].phase in phases
  }

  predicate Enabled(s: State, e: Event) {
    match e
    case Reserve(_) => true
    case Stop(_) => true
    case Abandon(id) => In(s, id, {Reserved})
    case Register(id, _) => In(s, id, {Reserved})
    case Release(id) => In(s, id, {Failed, Finished})
    case Return(id) => In(s, id, {Running})
    case Cleanup(id) => In(s, id, {Returned})
  }

  predicate Busy(s: State, session: Session) { session in s.bots || session in s.starting }

  function Moved(launches: seq<Launch>, id: nat, phase: Phase): seq<Launch>
    requires id < |launches|
  {
    launches[id := launches[id].(phase := phase)]
  }

  function Cancelled(launches: seq<Launch>, id: nat): seq<Launch> {
    if id < |launches| then launches[id := launches[id].(cancelled := true)] else launches
  }

  function CancelBot(s: State, k: Session): State {
    if k in s.bots then s.(bots := s.bots - {k}, launches := Cancelled(s.launches, s.bots[k])) else s
  }

  function CancelStarting(s: State, k: Session): State {
    if k in s.starting then s.(launches := Cancelled(s.launches, s.starting[k])) else s
  }

  function Step(s: State, e: Event): State
    requires Enabled(s, e)
  {
    match e
    case Reserve(k) =>
      if Busy(s, k) then s
      else s.(starting := s.starting[k := |s.launches|], launches := s.launches + [Launch(k, Reserved, false)])
    case Abandon(id) =>
      s.(starting := s.starting - {s.launches[id].session}, launches := Moved(s.launches, id, Failed))
    case Register(id, built) =>
      var l := s.launches[id];
      var t := s.(starting := s.starting - {l.session});
      if built && !l.cancelled
      then t.(bots := s.bots[l.session := id], launches := Moved(s.launches, id, Running))
      else t.(launches := Moved(s.launches, id, Failed))
    case Release(id) => s.(launches := Cancelled(s.launches, id))
    case Stop(k) =>
      CancelStarting(CancelBot(s, k), k)
    case Return(id) => s.(launches := Moved(s.launches, id, Returned))
    case Cleanup(id) =>
      var l := s.launches[id];
      var t := s.(launches := Moved(s.launches, id, Finished));
      if l.session in s.bots && s.bots[l.session] == id then t.(bots := s.bots - {l.session}) else t
  }

  const INITIAL := State(map[], map[], [])

  predicate Possible(s: State, run: seq<Event>)
    decreases |run|
  {
    run == [] || (Enabled(s, run[0]) && Possible(Step(s, run[0]), run[1..]))
  }

  function Run(s: State, run: seq<Event>): State
    requires Possible(s, run)
    decreases |run|
  {
    if run == [] then s else Run(Step(s, run[0]), run[1..])
  }

  // ----- the invariant -----

  predicate Live(l: Launch) { l.phase in {Running, Returned} && !l.cancelled }

  predicate Consistent(s: State) {
    && (forall k :: k in s.starting ==> k !in s.bots)
    && (forall k :: k in s.starting ==>
          s.starting[k] < |s.launches| && s.launches[s.starting[k]].session == k
          && s.launches[s.starting[k]].phase == Reserved)
    && (forall k :: k in s.bots ==>
          s.bots[k] < |s.launches| && s.launches[s.bots[k]].session == k && Live(s.launches[s.bots[k]]))
    && (forall id :: 0 <= id < |s.launches| && s.launches[id].phase == Reserved ==>
          s.launches[id].session in s.starting && s.starting[s.launches[id].session] == id)
    && (forall id :: 0 <= id < |s.launches| && Live(s.launches[id]) ==>
          s.launches[id].session in s.bots && s.bots[s.launches[id].session] == id)
  }

  lemma ReserveKeepsConsistent(s: State, k: Session)
    requires Consistent(s)
    ensures Consistent(Step(s, Reserve(k)))
  {
  }

  lemma AbandonKeepsConsistent(s: State, id: nat)
    requires Consistent(s) && Enabled(s, Abandon(id))
    ensures Consistent(Step(s, Abandon(id)))
  {
  }

  lemma RegisterKeepsConsistent(s: State, id: nat, built: bool)
    requires Consistent(s) && Enabled(s, Register(id, built))
    ensures Consistent(Step(s, Register(id, built)))
  {
  }

  lemma CancelBotKeepsConsistent(s: State, k: Session)
    requires Consistent(s)
    ensures Consistent(CancelBot(s, k))
  {
  }

  lemma CancelStartingKeepsConsistent(s: State, k: Session)
    requires Consistent(s)
    ensures Consistent(CancelStarting(s, k))
  {
  }

  lemma ReleaseKeepsConsistent(s: State, id: nat)
    requires Consistent(s) && Enabled(s, Release(id))
    ensures Consistent(Step(s, Release(id)))
  {
  }

  lemma ReturnKeepsConsistent(s: State, id: nat)
    requires Consistent(s) && Enabled(s, Return(id))
    ensures Consistent(Step(s, Return(id)))
  {
  }

  lemma CleanupKeepsConsistent(s: State, id: nat)
    requires Consistent(s) && Enabled(s, Cleanup(id))
    ensures Consistent(Step(s, Cleanup(id)))
  {
  }

  lemma StepKeepsConsistent(s: State, e: Event)
    requires Consistent(s) && Enabled(s, e)
    ensures Consistent(Step(s, e))
  {
    hide Consistent;
    match e
    case Reserve(k) => ReserveKeepsConsistent(s, k);
    case Abandon(id) => AbandonKeepsConsistent(s, id);
    case Register(id, built) => RegisterKeepsConsistent(s, id, built);
    case Stop(k) =>
      CancelBotKeepsConsistent(s, k);
      CancelStartingKeepsConsistent(CancelBot(s, k), k);
    case Release(id) => ReleaseKeepsConsistent(s, id);
    case Return(id) => ReturnKeepsConsistent(s, id);
    case Cleanup(id) => CleanupKeepsConsistent(s, id);
  }

  lemma {:induction false} RunKeepsConsistent(s: State, run: seq<Event>)
    requires Consistent(s) && Possible(s, run)
    ensures Consistent(Run(s, run))
    decreases |run|
  {
    hide Consistent, Step, Enabled;
    if run != [] {
      StepKeepsConsistent(s, run[0]);
      RunKeepsConsistent(Step(s, run[0]), run[1..]);
    }
  }

  // ----- what every interleaving guarantees -----

  /** Mutual exclusion: no session is running and starting at once, at most one launch of a session is
      being built, and at most one bot of a session runs with a context that is not cancelled. */
  lemma OneBotPerSession(run: seq<Event>, i: nat, j: nat)
    requires Possible(INITIAL, run) && i < |Run(INITIAL, run).launches| && j < |Run(INITIAL, run).launches|
    requires Run(INITIAL, run).launches[i].session == Run(INITIAL, run).launches[j].session
    ensures var s := Run(INITIAL, run);
      && s.bots.Keys !! s.starting.Keys
      && (Live(s.launches[i]) && Live(s.launches[j]) ==> i == j)
      && (s.launches[i].phase == Reserved && s.launches[j].phase == Reserved ==> i == j)
      && !(Live(s.launches[i]) && s.launches[j].phase == Reserved)
  {
    RunKeepsConsistent(INITIAL, run);
  }

  lemma CancelledStays(s: State, e: Event, id: nat)
    requires Enabled(s, e) && id < |s.launches| && s.launches[id].cancelled
    ensures id < |Step(s, e).launches| && Step(s, e).launches[id].cancelled
    ensures Step(s, e).launches[id].session == s.launches[id].session
  {
  }

  /** A context cancelled while its bot is being built is never registered, nor is one cancelled later. */
  lemma {:induction false} CancelledIsNeverRegistered(s: State, run: seq<Event>, id: nat)
    requires Consistent(s) && Possible(s, run) && id < |s.launches| && s.launches[id].cancelled
    ensures id !in Run(s, run).bots.Values
    decreases |run|
  {
    if run == [] {
      assert forall k :: k in s.bots ==> Live(s.launches[s.bots[k]]);
    } else {
      hide Consistent, Step, Enabled;
      StepKeepsConsistent(s, run[0]);
      CancelledStays(s, run[0], id);
      CancelledIsNeverRegistered(Step(s, run[0]), run[1..], id);
    }
  }

  /** A bot's exit never removes another instance: only its own entry can go. */
  lemma ExitKeepsOtherBots(s: State, id: nat, k: Session)
    requires Enabled(s, Cleanup(id)) && k in s.bots
    ensures var t := Step(s, Cleanup(id));
      k in t.bots <==> s.bots[k] != id || s.launches[id].session != k
    ensures k in Step(s, Cleanup(id)).bots ==> Step(s, Cleanup(id)).bots[k] == s.bots[k]
  {
  }

  lemma StepKeepsBot(s: State, e: Event, k: Session)
    requires Consistent(s) && Enabled(s, e) && k in s.bots && e != Stop(k) && e != Cleanup(s.bots[k])
    ensures k in Step(s, e).bots && Step(s, e).bots[k] == s.bots[k]
  {
  }

  /** A registered bot stays registered, and its entry is never overwritten, through every run in which the
      session is not stopped and the bot itself does not exit: no start, resume, stop or exit of another
      session, and no exit of an earlier bot of this one, can remove it. */
  lemma {:induction false} RegisteredBotStays(s: State, run: seq<Event>, k: Session)
    requires Consistent(s) && Possible(s, run) && k in s.bots
    requires Stop(k) !in run && Cleanup(s.bots[k]) !in run
    ensures k in Run(s, run).bots && Run(s, run).bots[k] == s.bots[k]
    decreases |run|
  {
    hide Consistent, Step, Enabled;
    if run != [] {
      StepKeepsConsistent(s, run[0]);
      StepKeepsBot(s, run[0], k);
      RegisteredBotStays(Step(s, run[0]), run[1..], k);
    }
  }

  /** Nothing of the session is live or can become live. */
  predicate Quiet(s: State, k: Session) {
    && k !in s.bots
    && forall id :: 0 <= id < |s.launches| && s.launches[id].session == k ==>
         (s.launches[id].phase in {Reserved, Running, Returned} ==> s.launches[id].cancelled)
  }

  lemma StopQuietens(s: State, k: Session)
    requires Consistent(s)
    ensures Quiet(Step(s, Stop(k)), k)
  {
  }

  lemma StepKeepsQuiet(s: State, e: Event, k: Session)
    requires Consistent(s) && Enabled(s, e) && Quiet(s, k) && e != Reserve(k)
    ensures Quiet(Step(s, e), k)
  {
  }

  lemma {:induction false} RunKeepsQuiet(s: State, run: seq<Event>, k: Session)
    requires Consistent(s) && Possible(s, run) && Quiet(s, k) && Reserve(k) !in run
    ensures Quiet(Run(s, run), k)
    decreases |run|
  {
    hide Consistent, Step, Enabled, Quiet;
    if run != [] {
      StepKeepsConsistent(s, run[0]);
      StepKeepsQuiet(s, run[0], k);
      RunKeepsQuiet(Step(s, run[0]), run[1..], k);
    }
  }

  /** Stopping is final: until the session is started or resumed again, no bot of it runs with a live
      context, not even one that was still being built when it was stopped. */
  lemma StopIsFinal(s: State, run: seq<Event>, k: Session, id: nat)
    requires Consistent(s) && Possible(Step(s, Stop(k)), run) && Reserve(k) !in run
    requires id < |Run(Step(s, Stop(k)), run).launches|
    ensures var t := Run(Step(s, Stop(k)), run);
      k !in t.bots && (t.launches[id].session == k ==> !Live(t.launches[id]))
  {
    StepKeepsConsistent(s, Stop(k));
    StopQuietens(s, k);
    RunKeepsQuiet(Step(s, Stop(k)), run, k);
  }

  // ----- what every session can reach -----

  /** Reserving a session that is free takes it: the session owns a new launch that is not cancelled, a second
      reservation is refused, and no other session, bot or launch is touched. */
  lemma ReserveTakesTheSession(s: State, k: Session)
    requires Consistent(s) && !Busy(s, k)
    ensures var t, id := Step(s, Reserve(k)), |s.launches|;
      && t.launches == s.launches + [Launch(k, Reserved, false)] && t.bots == s.bots
      && t.starting.Keys == s.starting.Keys + {k} && t.starting[k] == id
      && (forall x :: x in s.starting ==> t.starting[x] == s.starting[x])
      && Busy(t, k) && Step(t, Reserve(k)) == t
  {
  }

  /** A launch that was built and not cancelled ends with a live bot, any other leaves its session free. */
  lemma RegisterEndsTheStart(s: State, id: nat, built: bool)
    requires Consistent(s) && Enabled(s, Register(id, built))
    ensures var t, k := Step(s, Register(id, built)), s.launches[id].session;
      && id < |t.launches| && t.launches[id].session == k && k !in t.starting
      && if built && !s.launches[id].cancelled then k in t.bots && t.bots[k] == id && Live(t.launches[id])
         else !Busy(t, k) && t.launches[id].phase == Failed
  {
  }

  /** A start that is given up, a stop of a running bot and the exit of a bot all leave the session free; a stop of
      one that is starting leaves its launch cancelled. */
  lemma EndsFreeTheSession(s: State, id: nat, k: Session)
    requires Consistent(s)
    ensures In(s, id, {Reserved}) ==>
      !Busy(Step(s, Abandon(id)), s.launches[id].session) && In(Step(s, Abandon(id)), id, {Failed})
    ensures k in s.bots ==> !Busy(Step(s, Stop(k)), k) && Step(s, Stop(k)).launches[s.bots[k]].cancelled
    ensures k in s.starting ==> Busy(Step(s, Stop(k)), k) && Step(s, Stop(k)).launches[s.starting[k]].cancelled
    ensures k in s.bots && In(s, s.bots[k], {Returned}) ==> !Busy(Step(s, Cleanup(s.bots[k])), k)
    ensures In(s, id, {Returned}) ==> In(Step(s, Cleanup(id)), id, {Finished})
    ensures In(s, id, {Failed, Finished}) ==> Step(s, Release(id)).launches[id].cancelled
  {
  }

  /** A bot that returns by itself is cleaned up and its context cancelled, and its session is free again. */
  lemma BotEndsByItself(s: State, k: Session)
    requires Consistent(s) && k in s.bots && In(s, s.bots[k], {Running})
    ensures var run := [Return(s.bots[k]), Cleanup(s.bots[k]), Release(s.bots[k])];
      && Possible(s, run) && !Busy(Run(s, run), k)
      && |Run(s, run).launches| == |s.launches| && Run(s, run).launches[s.bots[k]] == Launch(k, Finished, true)
  {
    var id := s.bots[k];
    var r := Step(s, Return(id));
    var c := Step(r, Cleanup(id));
    assert Enabled(r, Cleanup(id)) && Enabled(c, Release(id));
    var run := [Return(id), Cleanup(id), Release(id)];
    assert run[1..] == [Cleanup(id), Release(id)] && run[1..][1..] == [Release(id)] && run[1..][1..][1..] == [];
    RunThree(s, Return(id), Cleanup(id), Release(id));
  }

  lemma RunThree(s: State, a: Event, b: Event, c: Event)
    requires Enabled(s, a) && Enabled(Step(s, a), b) && Enabled(Step(Step(s, a), b), c)
    ensures Possible(s, [a, b, c]) && Run(s, [a, b, c]) == Step(Step(Step(s, a), b), c)
  {
    hide Enabled, Step;
    assert [a, b, c][1..] == [b, c];
    RunTwo(Step(s, a), b, c);
  }

  lemma RunTwo(s: State, a: Event, b: Event)
    requires Enabled(s, a) && Enabled(Step(s, a), b)
    ensures Possible(s, [a, b]) && Run(s, [a, b]) == Step(Step(s, a), b)
  {
    hide Enabled, Step;
    assert [a, b][1..] == [b] && [b][1..] == [];
    assert Possible(Step(s, a), [b]) && Run(Step(s, a), [b]) == Step(Step(s, a), b);
  }

  /** Starting a free session ends with a live bot of it. */
  lemma StartSucceeds(s: State, k: Session)
    requires Consistent(s) && !Busy(s, k)
    ensures var run := [Reserve(k), Register(|s.launches|, true)];
      && Possible(s, run) && k in Run(s, run).bots && Run(s, run).bots[k] == |s.launches|
      && |s.launches| < |Run(s, run).launches| && Live(Run(s, run).launches[|s.launches|])
  {
    var id := |s.launches|;
    ReserveTakesTheSession(s, k);
    ReserveKeepsConsistent(s, k);
    RunTwo(s, Reserve(k), Register(id, true));
    RegisterEndsTheStart(Step(s, Reserve(k)), id, true);
  }

  /** From every state that can be reached, every session can come to a live bot: the protocol never locks one out. */
  lemma EverySessionCanRun(s: State, k: Session) returns (run: seq<Event>)
    requires Consistent(s)
    ensures Possible(s, run) && k in Run(s, run).bots
    ensures Run(s, run).bots[k] < |Run(s, run).launches| && Live(Run(s, run).launches[Run(s, run).bots[k]])
  {
    if k in s.bots {
      run := [];
    } else if k in s.starting {
      var first := Register(s.starting[k], true);
      RegisterEndsTheStart(s, s.starting[k], true);
      RegisterKeepsConsistent(s, s.starting[k], true);
      var t := Step(s, first);
      if k in t.bots {
        run := [first];
        assert run[1..] == [];
        assert Run(t, []) == t;
      } else {
        StartSucceeds(t, k);
        var rest := [Reserve(k), Register(|t.launches|, true)];
        run := [first] + rest;
        assert run[1..] == rest;
      }
    } else {
      StartSucceeds(s, k);
      run := [Reserve(k), Register(|s.launches|, true)];
    }
  }

  // ----- the manager -----

  class SignalManager {
    var bots: map<Session, nat>
    var starting: map<Session, nat>
    var launches: seq<Launch>

    constructor ()
      ensures View() == INITIAL
    {
      bots, starting, launches := map[], map[], [];
    }

    ghost function View(): State
      reads this
    {
      State(bots, starting, launches)
    }

    /** Marks the session as starting; None if it already has a running or starting bot. */
    method ReserveSession(sessionId: Session) returns (r: Option<nat>)
      modifies this
      ensures View() == Step(old(View()), Reserve(sessionId))
      ensures r.None? <==> Busy(old(View()), sessionId)
      ensures r.None? ==> View() == old(View())
      ensures r.Some? ==> r.value == |old(launches)| && sessionId in starting && starting[sessionId] == r.value
      ensures r.Some? ==> launches == old(launches) + [Launch(sessionId, Reserved, false)]
    {
      if sessionId in bots { return None; }
      if sessionId in starting { return None; }
      var id := |launches|;
      launches := launches + [Launch(sessionId, Reserved, false)];
      starting := starting[sessionId := id];
      r := Some(id);
    }

    /** Undoes a reservation whose session row could not be updated. */
    method AbandonStart(id: nat)
      requires Enabled(View(), Abandon(id))
      modifies this
      ensures View() == Step(old(View()), Abandon(id))
    {
      starting := starting - {launches[id].session};
      launches := Moved(launches, id, Failed);
    }

    /** The critical section of a launch, after the bot was built or failed to build. */
    method RegisterBot(id: nat, built: bool) returns (ok: bool)
      requires Enabled(View(), Register(id, built))
      modifies this
      ensures View() == Step(old(View()), Register(id, built))
      ensures ok <==> built && !old(launches)[id].cancelled
    {
      var l := launches[id];
      starting := starting - {l.session};
      ok := built;
      if ok && l.cancelled { ok := false; }
      if !ok {
        launches := Moved(launches, id, Failed);
        return;
      }
      bots := bots[l.session := id];
      launches := Moved(launches, id, Running);
    }

    method StopSession(sessionId: Session) returns (running: bool, wasStarting: bool)
      requires Consistent(View())
      modifies this
      ensures View() == Step(old(View()), Stop(sessionId))
      ensures running == (sessionId in old(bots)) && wasStarting == (sessionId in old(starting))
    {
      running := sessionId in bots;
      if running {
        var instance := bots[sessionId];
        bots := bots - {sessionId};
        launches := Cancelled(launches, instance);
      }
      wasStarting := sessionId in starting;
      if wasStarting { launches := Cancelled(launches, starting[sessionId]); }
    }

    /** The critical section after a bot has returned; owned tells whether it still was the session's. */
    method CleanUp(id: nat) returns (owned: bool)
      requires Enabled(View(), Cleanup(id))
      modifies this
      ensures View() == Step(old(View()), Cleanup(id))
      ensures owned <==> (old(launches)[id].session in old(bots) && old(bots)[old(launches)[id].session] == id)
    {
      var sessionId := launches[id].session;
      owned := sessionId in bots && bots[sessionId] == id;
      if owned { bots := bots - {sessionId}; }
      launches := Moved(launches, id, Finished);
    }

    method CancelContext(id: nat)
      requires Enabled(View(), Release(id))
      modifies this
      ensures View() == Step(old(View()), Release(id))
    {
      launches := Cancelled(launches, id);
    }

    method IsRunning(sessionId: Session) returns (r: bool)
      requires Consistent(View())
      ensures r <==> exists id :: 0 <= id < |launches| && launches[id].session == sessionId
                       && (Live(launches[id]) || launches[id].phase == Reserved)
    {
      r := sessionId in bots || sessionId in starting;
      if sessionId in bots { assert Live(launches[bots[sessionId]]); }
      if sessionId in starting { assert launches[starting[sessionId]].phase == Reserved; }
    }
  }
}
