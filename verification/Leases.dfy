/** Shared and exclusive session leases of a client: reservation, creation, release with a detach request, and
    invalidation. Every segment between two awaits is one atomic action. */
module Leases {

  import opened Wrappers

  datatype LeaseState = Active | Releasing | Released | Invalidated

  /** A token is reserved while its acquire is in flight, becomes a lease, or is dropped when the acquire fails. */
  datatype Stage = Reserved | Leased(generation: nat, state: LeaseState) | Dropped

  datatype Token = Token(exclusive: bool, stage: Stage)

  /** What the client holds for one session id: the entries of its maps (a missing count or generation is 0) and the
      tokens handed out so far. Of the tokens whose release sent a detach request, `detaching` await the response;
      for `resolved` and `rejected` the request's promise has settled and the release is about to go on. */
  datatype Session = Session(
    count: nat, exclusive: Option<nat>, generation: nat, cleanup: bool,
    tokens: seq<Token>, detaching: set<nat>, resolved: set<nat>, rejected: set<nat>)

  const NO_LEASES := Session(0, None, 0, false, [], {}, {}, {})

  // ---------------------------------------------------------------------------------------------
  // Transitions
  // ---------------------------------------------------------------------------------------------

  function WithStage(s: Session, t: nat, stage: Stage): Session
    requires t < |s.tokens|
  {
    s.(tokens := s.tokens[t := s.tokens[t].(stage := stage)])
  }

  predicate MayReserve(s: Session, exclusive: bool) { if exclusive then s.count == 0 else s.exclusive.None? }

  function Reserve(s: Session, exclusive: bool): Session {
    s.(count := s.count + 1,
       exclusive := if exclusive then Some(|s.tokens|) else s.exclusive,
       tokens := s.tokens + [Token(exclusive, Reserved)])
  }

  /** `releaseSessionLease`. */
  function Give(s: Session, t: nat): Session {
    s.(count := if s.count <= 1 then 0 else s.count - 1,
       exclusive := if s.exclusive == Some(t) then None else s.exclusive)
  }

  function Invalidate(s: Session): Session {
    s.(count := 0, exclusive := None, cleanup := false, generation := s.generation + 1)
  }

  /** `invalidateAllSessionLeases` invalidates the sessions that have a count. */
  function InvalidateCounted(s: Session): Session { if s.count > 0 then Invalidate(s) else s.(cleanup := false) }

  /** A disconnection, which rejects the requests that await a response; one that is resolved stays so. */
  function Disconnect(s: Session): Session {
    InvalidateCounted(s).(detaching := {}, rejected := s.rejected + s.detaching)
  }

  /** `refreshState`: a lease of an older generation is invalidated. */
  function Refresh(s: Session, t: nat): LeaseState
    requires t < |s.tokens| && s.tokens[t].stage.Leased?
  {
    var lease := s.tokens[t].stage;
    if lease.state in {Active, Releasing} && lease.generation != s.generation then Invalidated else lease.state
  }

  function SetState(s: Session, t: nat, state: LeaseState): Session
    requires t < |s.tokens| && s.tokens[t].stage.Leased?
  {
    WithStage(s, t, s.tokens[t].stage.(state := state))
  }

  /** The synchronous part of `release`; the sole holder sends a detach request, others give the token back. */
  function AfterRelease(s: Session, t: nat, usable: bool): Session
    requires t < |s.tokens| && s.tokens[t].stage.Leased?
  {
    if Refresh(s, t) != Active || !usable then SetState(s, t, Refresh(s, t))
    else if s.count <= 1 then SetState(s, t, Releasing).(detaching := s.detaching + {t})
    else Give(SetState(s, t, Released), t)
  }

  predicate SendsDetach(s: Session, t: nat, usable: bool)
    requires t < |s.tokens| && s.tokens[t].stage.Leased?
  {
    Refresh(s, t) == Active && usable && s.count <= 1
  }

  /** The response to the detach request arrived and settled its promise. */
  function Answer(s: Session, t: nat, ok: bool): Session {
    s.(detaching := s.detaching - {t},
       resolved := if ok then s.resolved + {t} else s.resolved,
       rejected := if ok then s.rejected else s.rejected + {t})
  }

  /** The release goes on after its detach request succeeded: the token is given back. */
  function Resume(s: Session, t: nat): Session
    requires t < |s.tokens| && s.tokens[t].stage.Leased?
  {
    Give(SetState(s.(resolved := s.resolved - {t}), t, Released), t)
  }

  /** The release goes on after its detach request failed. */
  function Recover(s: Session, t: nat, relinquish: bool): Session
    requires t < |s.tokens| && s.tokens[t].stage.Leased?
  {
    var s' := s.(rejected := s.rejected - {t});
    if Refresh(s, t) == Invalidated then SetState(s', t, Invalidated)
    else if relinquish then Give(SetState(s', t, Released), t).(cleanup := true)
    else SetState(s', t, Active)
  }

  datatype Action =
    | Reserves(exclusive: bool)
    | Drops(t: nat)
    | Creates(t: nat)
    | Releases(t: nat, usable: bool)
    | Answers(t: nat, ok: bool)
    | Resumes(t: nat)
    | Recovers(t: nat, relinquish: bool)
    | Disconnects
    | Removes

  predicate IsReserved(s: Session, t: nat) { t < |s.tokens| && s.tokens[t].stage == Reserved }

  predicate IsLeased(s: Session, t: nat) { t < |s.tokens| && s.tokens[t].stage.Leased? }

  predicate Enabled(s: Session, a: Action) {
    match a
    case Reserves(exclusive) => MayReserve(s, exclusive)
    case Drops(t) => IsReserved(s, t)
    case Creates(t) => IsReserved(s, t)
    case Releases(t, _) => IsLeased(s, t)
    case Answers(t, _) => t in s.detaching
    case Resumes(t) => t in s.resolved && IsLeased(s, t)
    case Recovers(t, _) => t in s.rejected && IsLeased(s, t)
    case Disconnects => true
    case Removes => true
  }

  function Next(s: Session, a: Action): Session
    requires Enabled(s, a)
  {
    match a
    case Reserves(exclusive) => Reserve(s, exclusive)
    case Drops(t) => Give(WithStage(s, t, Dropped), t)
    case Creates(t) => WithStage(s, t, Leased(s.generation, Active))
    case Releases(t, usable) => AfterRelease(s, t, usable)
    case Answers(t, ok) => Answer(s, t, ok)
    case Resumes(t) => Resume(s, t)
    case Recovers(t, relinquish) => Recover(s, t, relinquish)
    case Disconnects => Disconnect(s)
    case Removes => Invalidate(s)
  }

  // ---------------------------------------------------------------------------------------------
  // The invariant
  // ---------------------------------------------------------------------------------------------

  /** A lease that is active or being released, of the current generation. */
  ghost predicate Live(s: Session, t: nat) {
    IsLeased(s, t) && s.tokens[t].stage.generation == s.generation && s.tokens[t].stage.state in {Active, Releasing}
  }

  ghost predicate IsOut(s: Session, t: nat) { IsReserved(s, t) || Live(s, t) }

  /** The outstanding tokens: reservations in flight and live leases. */
  ghost function Outstanding(s: Session): set<nat> { set t: nat | t < |s.tokens| && IsOut(s, t) }

  /** A lease is live and being released exactly while its detach request is on its way or its release is about to
      go on; a rejected one may also be of an older generation, which it then finds out. */
  ghost predicate TokenOk(s: Session, t: nat) {
    && (t in s.detaching || t in s.resolved ==> Live(s, t) && s.tokens[t].stage.state == Releasing)
    && !(t in s.detaching && t in s.resolved)
    && (t in s.rejected ==> t !in s.detaching && t !in s.resolved && IsLeased(s, t) && s.tokens[t].stage.state in {Releasing, Invalidated})
    && (t in s.rejected && s.tokens[t].stage.generation == s.generation ==> s.tokens[t].stage.state == Releasing)
    && (Live(s, t) && s.tokens[t].stage.state == Releasing ==> t in s.detaching || t in s.resolved || t in s.rejected)
    && (IsLeased(s, t) ==> s.tokens[t].stage.generation <= s.generation)
  }

  ghost predicate IsExclusive(s: Session, t: nat) { t < |s.tokens| && s.tokens[t].exclusive }

  /** The count is the number of outstanding tokens, and an exclusive token is the only one. */
  ghost predicate Counted(s: Session) {
    && s.count == |Outstanding(s)|
    && (s.exclusive.Some? ==> Outstanding(s) == {s.exclusive.value} && IsExclusive(s, s.exclusive.value))
    && (forall t :: t in Outstanding(s) && s.tokens[t].exclusive ==> s.exclusive == Some(t))
  }

  ghost predicate Inv(s: Session) { Counted(s) && forall t: nat :: TokenOk(s, t) }

  /** The token `t` alone changed. */
  ghost predicate OnlyChanged(s: Session, s': Session, t: nat) {
    && t < |s.tokens| == |s'.tokens| && s'.generation == s.generation
    && s'.tokens[t].exclusive == s.tokens[t].exclusive
    && forall u :: 0 <= u < |s.tokens| && u != t ==> s'.tokens[u] == s.tokens[u]
  }

  lemma OutChanged(s: Session, s': Session, t: nat)
    requires OnlyChanged(s, s', t)
    ensures Outstanding(s') == if IsOut(s', t) then Outstanding(s) + {t} else Outstanding(s) - {t}
  {
    forall u
      ensures u in Outstanding(s') <==> u in (if IsOut(s', t) then Outstanding(s) + {t} else Outstanding(s) - {t})
    {
    }
  }

  /** A token given back leaves the outstanding ones, and the count follows. */
  lemma GivesBack(s: Session, s': Session, t: nat)
    requires Counted(s) && OnlyChanged(s, s', t) && IsOut(s, t) && !IsOut(s', t)
    requires s'.count == Give(s, t).count && s'.exclusive == Give(s, t).exclusive
    ensures Counted(s')
  {
    OutChanged(s, s', t);
    assert t in Outstanding(s);
    if |Outstanding(s)| == 1 {
      Single(Outstanding(s), t);
    }
  }

  lemma Single(a: set<nat>, t: nat)
    requires |a| == 1 && t in a
    ensures a == {t}
  {
    assert |a - {t}| == 0;
    assert a == (a - {t}) + {t};
  }

  /** A token that stays outstanding, or stays settled, leaves the count as it is. */
  lemma KeepsCount(s: Session, s': Session, t: nat)
    requires Counted(s) && OnlyChanged(s, s', t) && (IsOut(s, t) <==> IsOut(s', t))
    requires s'.count == s.count && s'.exclusive == s.exclusive
    ensures Counted(s')
  {
    OutChanged(s, s', t);
    assert Outstanding(s') == Outstanding(s);
  }

  lemma OthersOk(s: Session, s': Session, t: nat)
    requires (forall u: nat :: TokenOk(s, u)) && OnlyChanged(s, s', t)
    requires forall u :: u != t ==>
      && (u in s'.detaching <==> u in s.detaching)
      && (u in s'.resolved <==> u in s.resolved)
      && (u in s'.rejected <==> u in s.rejected)
    requires TokenOk(s', t)
    ensures forall u: nat :: TokenOk(s', u)
  {
    forall u: nat
      ensures TokenOk(s', u)
    {
      assert TokenOk(s, u);
    }
  }

  lemma ReserveKeeps(s: Session, exclusive: bool)
    requires Inv(s) && MayReserve(s, exclusive)
    ensures Inv(Reserve(s, exclusive))
  {
    var s', n := Reserve(s, exclusive), |s.tokens|;
    ReserveCounts(s, exclusive);
    forall u: nat
      ensures TokenOk(s', u)
    {
      assert TokenOk(s, u) && TokenOk(s, n);
      assert u < n ==> s'.tokens[u] == s.tokens[u];
    }
  }

  lemma ReserveCounts(s: Session, exclusive: bool)
    requires Counted(s) && MayReserve(s, exclusive)
    ensures Counted(Reserve(s, exclusive))
  {
    var s', n := Reserve(s, exclusive), |s.tokens|;
    ReserveOut(s, exclusive);
    assert n !in Outstanding(s);
    if exclusive {
      assert Outstanding(s) == {};
    }
    forall t | t in Outstanding(s') && s'.tokens[t].exclusive
      ensures s'.exclusive == Some(t)
    {
      assert t != n ==> t in Outstanding(s) && s.tokens[t].exclusive;
    }
  }

  lemma ReserveOut(s: Session, exclusive: bool)
    ensures Outstanding(Reserve(s, exclusive)) == Outstanding(s) + {|s.tokens|}
  {
    var s', n := Reserve(s, exclusive), |s.tokens|;
    forall u: nat
      ensures u in Outstanding(s') <==> u in Outstanding(s) || u == n
    {
      assert u < n ==> s'.tokens[u] == s.tokens[u];
    }
  }

  lemma DropKeeps(s: Session, t: nat)
    requires Inv(s) && IsReserved(s, t)
    ensures Inv(Next(s, Drops(t)))
  {
    var s' := Next(s, Drops(t));
    GivesBack(s, s', t);
    assert TokenOk(s, t);
    OthersOk(s, s', t);
  }

  lemma CreateKeeps(s: Session, t: nat)
    requires Inv(s) && IsReserved(s, t)
    ensures Inv(Next(s, Creates(t)))
  {
    var s' := Next(s, Creates(t));
    assert TokenOk(s, t);
    KeepsCount(s, s', t);
    OthersOk(s, s', t);
  }

  lemma ReleaseKeeps(s: Session, t: nat, usable: bool)
    requires Inv(s) && IsLeased(s, t)
    ensures Inv(AfterRelease(s, t, usable))
  {
    var s' := AfterRelease(s, t, usable);
    assert TokenOk(s, t);
    if Refresh(s, t) == Active && usable && s.count > 1 {
      GivesBack(s, s', t);
    } else {
      KeepsCount(s, s', t);
    }
    OthersOk(s, s', t);
  }

  lemma AnswerKeeps(s: Session, t: nat, ok: bool)
    requires Inv(s) && t in s.detaching
    ensures Inv(Answer(s, t, ok))
  {
    var s' := Answer(s, t, ok);
    assert TokenOk(s, t);
    SameTokens(s, s');
    OthersOk(s, s', t);
  }

  lemma ResumeKeeps(s: Session, t: nat)
    requires Inv(s) && IsLeased(s, t) && t in s.resolved
    ensures Inv(Resume(s, t))
  {
    var s' := Resume(s, t);
    assert TokenOk(s, t);
    GivesBack(s, s', t);
    OthersOk(s, s', t);
  }

  lemma RecoverKeeps(s: Session, t: nat, relinquish: bool)
    requires Inv(s) && IsLeased(s, t) && t in s.rejected
    ensures Inv(Recover(s, t, relinquish))
  {
    var s' := Recover(s, t, relinquish);
    assert TokenOk(s, t);
    if Refresh(s, t) != Invalidated && relinquish {
      GivesBack(s, s', t);
    } else {
      KeepsCount(s, s', t);
    }
    OthersOk(s, s', t);
  }

  lemma SameTokens(s: Session, s': Session)
    requires s'.tokens == s.tokens && s'.generation == s.generation && s'.count == s.count && s'.exclusive == s.exclusive
    ensures Counted(s') <==> Counted(s)
  {
    forall t: nat
      ensures t in Outstanding(s') <==> t in Outstanding(s)
    {
    }
    assert Outstanding(s') == Outstanding(s);
  }

  ghost predicate InFlight(s: Session) { exists t: nat :: IsReserved(s, t) }

  /** Invalidation clears the count, so right after it the count is right exactly when no acquire is in flight. */
  lemma InvalidateCounts(s: Session)
    requires forall t: nat :: TokenOk(s, t)
    ensures Counted(Invalidate(s)) <==> !InFlight(s)
  {
    var s' := Invalidate(s);
    if InFlight(s) {
      var t: nat :| IsReserved(s, t);
      assert IsReserved(s', t);
      assert t in Outstanding(s');
    } else {
      forall t: nat
        ensures !IsOut(s', t)
      {
        assert TokenOk(s, t);
        assert IsReserved(s', t) ==> IsReserved(s, t);
      }
      assert Outstanding(s') == {};
    }
  }

  /** The hypothesis under which leases are counted right: at an invalidation no acquire is in flight and no release
      whose detach request succeeded is about to go on; and a session is not removed while the request of a release
      is on its way. */
  ghost predicate Calm(s: Session, a: Action) {
    match a
    case Disconnects => !InFlight(s) && s.resolved == {}
    case Removes => !InFlight(s) && s.resolved == {} && s.detaching == {}
    case _ => true
  }

  lemma NothingOut(s: Session)
    requires Inv(s) && s.count == 0
    ensures !InFlight(s) && s.detaching == {} && s.resolved == {}
  {
    forall t: nat
      ensures !IsReserved(s, t) && t !in s.detaching && t !in s.resolved
    {
      assert TokenOk(s, t);
      assert IsOut(s, t) ==> t in Outstanding(s);
    }
  }

  lemma DisconnectKeeps(s: Session)
    requires Inv(s) && Calm(s, Disconnects)
    ensures Inv(Disconnect(s))
  {
    var s' := Disconnect(s);
    if s.count == 0 {
      NothingOut(s);
      SameTokens(s, s');
    } else {
      InvalidateCounts(s);
      SameTokens(Invalidate(s), s');
    }
    forall t: nat
      ensures TokenOk(s', t)
    {
      assert TokenOk(s, t);
    }
  }

  lemma RemoveKeeps(s: Session)
    requires Inv(s) && Calm(s, Removes)
    ensures Inv(Invalidate(s))
  {
    InvalidateCounts(s);
    forall t: nat
      ensures TokenOk(Invalidate(s), t)
    {
      assert TokenOk(s, t);
    }
  }

  /** Every calm step keeps the invariant. */
  lemma NextKeeps(s: Session, a: Action)
    requires Inv(s) && Enabled(s, a) && Calm(s, a)
    ensures Inv(Next(s, a))
  {
    if a.Reserves? {
      ReserveKeeps(s, a.exclusive);
    } else if a.Drops? {
      DropKeeps(s, a.t);
    } else if a.Creates? {
      CreateKeeps(s, a.t);
    } else if a.Releases? {
      ReleaseKeeps(s, a.t, a.usable);
    } else if a.Answers? {
      AnswerKeeps(s, a.t, a.ok);
    } else if a.Resumes? {
      ResumeKeeps(s, a.t);
    } else if a.Recovers? {
      RecoverKeeps(s, a.t, a.relinquish);
    } else if a.Disconnects? {
      DisconnectKeeps(s);
    } else {
      RemoveKeeps(s);
    }
  }

  /** A run from a state. */
  ghost predicate IsRun(s: Session, run: seq<Action>)
    decreases |run|
  {
    run == [] || (Enabled(s, run[0]) && IsRun(Next(s, run[0]), run[1..]))
  }

  ghost function After(s: Session, run: seq<Action>): Session
    requires IsRun(s, run)
    decreases |run|
  {
    if run == [] then s else After(Next(s, run[0]), run[1..])
  }

  ghost predicate CalmRun(s: Session, run: seq<Action>)
    requires IsRun(s, run)
    decreases |run|
  {
    run == [] || (Calm(s, run[0]) && CalmRun(Next(s, run[0]), run[1..]))
  }

  lemma {:induction false} RunKeeps(s: Session, run: seq<Action>)
    requires Inv(s) && IsRun(s, run) && CalmRun(s, run)
    ensures Inv(After(s, run))
    decreases |run|
  {
    if run != [] {
      NextKeeps(s, run[0]);
      RunKeeps(Next(s, run[0]), run[1..]);
    }
  }

  /** However a calm run goes on from here, the count stays right. */
  ghost predicate Safe(s: Session) { forall run :: IsRun(s, run) && CalmRun(s, run) ==> Counted(After(s, run)) }

  lemma InvIsSafe(s: Session)
    requires Inv(s)
    ensures Safe(s)
  {
    forall run | IsRun(s, run) && CalmRun(s, run)
      ensures Counted(After(s, run))
    {
      RunKeeps(s, run);
    }
  }

  /** A release that goes on after an invalidation gives back a token nobody counts: with one acquire reserved in
      between, the count is lost. */
  lemma StaleGiveBack(s: Session, t: nat)
    requires Outstanding(s) == {} && s.count == 0 && s.exclusive.None? && IsLeased(s, t) && !Live(s, t)
    requires t in s.resolved
    ensures !Safe(s)
  {
    var s1, n := Reserve(s, false), |s.tokens|;
    var s2 := Resume(s1, t);
    var run := [Reserves(false), Resumes(t)];
    TwoSteps(s, run);
    assert IsReserved(s2, n);
    assert n in Outstanding(s2) && s2.count == 0;
    assert !Counted(After(s, run));
  }

  lemma TwoSteps(s: Session, run: seq<Action>)
    requires |run| == 2 && Enabled(s, run[0]) && Enabled(Next(s, run[0]), run[1]) && run[0].Reserves? && run[1].Resumes?
    ensures IsRun(s, run) && CalmRun(s, run) && After(s, run) == Next(Next(s, run[0]), run[1])
  {
    var s' := Next(s, run[0]);
    assert run[1..][0] == run[1] && run[1..][1..] == [];
    assert IsRun(s', run[1..]) && After(s', run[1..]) == After(Next(s', run[1]), []);
  }

  /** A response that arrives after the removal leads there. */
  lemma StaleAnswer(s: Session, t: nat)
    requires Outstanding(s) == {} && s.count == 0 && s.exclusive.None? && IsLeased(s, t) && !Live(s, t)
    requires t in s.detaching
    ensures !Safe(s)
  {
    var s' := Answer(s, t, true);
    assert Outstanding(s') == {} by {
      forall u: nat
        ensures u in Outstanding(s') <==> u in Outstanding(s)
      {
      }
    }
    StaleGiveBack(s', t);
    var run :| IsRun(s', run) && CalmRun(s', run) && !Counted(After(s', run));
    var longer := [Answers(t, true)] + run;
    assert longer[1..] == run;
    assert IsRun(s, longer) && CalmRun(s, longer) && After(s, longer) == After(s', run);
  }

  lemma ClearedOut(s: Session)
    requires Inv(s) && !InFlight(s)
    ensures Outstanding(Invalidate(s)) == {}
    ensures forall t: nat :: t in s.detaching || t in s.resolved ==> IsLeased(s, t) && IsLeased(Invalidate(s), t) && !Live(Invalidate(s), t)
  {
    var s' := Invalidate(s);
    forall t: nat
      ensures !IsOut(s', t)
      ensures t in s.detaching || t in s.resolved ==> IsLeased(s, t)
    {
      assert TokenOk(s, t);
      assert IsReserved(s', t) ==> IsReserved(s, t);
    }
  }

  lemma UncalmDisconnect(s: Session)
    requires Inv(s) && !Calm(s, Disconnects)
    ensures !Safe(Disconnect(s))
  {
    var s' := Disconnect(s);
    if s.count == 0 {
      NothingOut(s);
    } else if InFlight(s) {
      InvalidateCounts(s);
      SameTokens(Invalidate(s), s');
      NotCountedNow(s');
    } else {
      ClearedOut(s);
      var t :| t in s.resolved;
      assert Outstanding(s') == Outstanding(Invalidate(s)) by {
        forall u: nat
          ensures u in Outstanding(s') <==> u in Outstanding(Invalidate(s))
        {
        }
      }
      assert !Live(Invalidate(s), t);
      StaleGiveBack(s', t);
    }
  }

  lemma UncalmRemove(s: Session)
    requires Inv(s) && !Calm(s, Removes)
    ensures !Safe(Invalidate(s))
  {
    var s' := Invalidate(s);
    if InFlight(s) {
      InvalidateCounts(s);
      NotCountedNow(s');
    } else {
      ClearedOut(s);
      if s.resolved != {} {
        var t :| t in s.resolved;
        StaleGiveBack(s', t);
      } else {
        var t :| t in s.detaching;
        StaleAnswer(s', t);
      }
    }
  }

  lemma NotCountedNow(s: Session)
    requires !Counted(s)
    ensures !Safe(s)
  {
    assert IsRun(s, []) && CalmRun(s, []) && After(s, []) == s;
  }

  /** The condition is exact: after a step, every calm continuation keeps the count right if and only if the step was
      calm. */
  lemma SafeIffCalm(s: Session, a: Action)
    requires Inv(s) && Enabled(s, a)
    ensures Safe(Next(s, a)) <==> Calm(s, a)
  {
    if Calm(s, a) {
      NextKeeps(s, a);
      InvIsSafe(Next(s, a));
    } else if a.Disconnects? {
      UncalmDisconnect(s);
    } else {
      UncalmRemove(s);
    }
  }

  /** After every calm run: the count is the number of reservations in flight and live leases; an exclusive token is the
      only one outstanding; a shared reservation is granted if and only if no outstanding token is exclusive, and an
      exclusive one if and only if nothing is outstanding; and a usable release sends detach if and only if it is that
      of the sole outstanding token. */
  lemma LeaseSafety(run: seq<Action>)
    requires IsRun(NO_LEASES, run) && CalmRun(NO_LEASES, run)
    ensures var s := After(NO_LEASES, run);
            && s.count == |Outstanding(s)|
            && (forall t :: t in Outstanding(s) && s.tokens[t].exclusive ==> Outstanding(s) == {t})
            && (Enabled(s, Reserves(false)) <==> forall t :: t in Outstanding(s) ==> !s.tokens[t].exclusive)
            && (Enabled(s, Reserves(true)) <==> Outstanding(s) == {})
            && (forall t: nat, usable :: IsLeased(s, t) ==>
                  (SendsDetach(s, t, usable)
                   <==> usable && s.tokens[t].stage.state == Active && Outstanding(s) == {t}))
  {
    var s := After(NO_LEASES, run);
    assert Outstanding(NO_LEASES) == {};
    assert Inv(NO_LEASES);
    RunKeeps(NO_LEASES, run);
    GrantedIff(s);
    forall t: nat, usable | IsLeased(s, t)
      ensures SendsDetach(s, t, usable) <==> usable && s.tokens[t].stage.state == Active && Outstanding(s) == {t}
    {
      DetachIff(s, t, usable);
    }
  }

  lemma GrantedIff(s: Session)
    requires Inv(s)
    ensures MayReserve(s, false) <==> forall t :: t in Outstanding(s) ==> !s.tokens[t].exclusive
    ensures MayReserve(s, true) <==> Outstanding(s) == {}
  {
    if s.exclusive.Some? {
      assert s.exclusive.value in Outstanding(s);
    }
  }

  lemma DetachIff(s: Session, t: nat, usable: bool)
    requires Inv(s) && IsLeased(s, t)
    ensures SendsDetach(s, t, usable) <==> usable && s.tokens[t].stage.state == Active && Outstanding(s) == {t}
  {
    if SendsDetach(s, t, usable) {
      assert t in Outstanding(s);
      Single(Outstanding(s), t);
    }
    if Outstanding(s) == {t} {
      assert t in Outstanding(s);
    }
  }

  /** The token a step is about. */
  ghost predicate About(a: Action, t: nat) {
    (a.Drops? || a.Creates? || a.Releases? || a.Resumes? || a.Recovers?) && a.t == t
  }

  /** A step changes the stage of no token but its own, and never a token's kind; a reservation adds one of the kind
      asked for. */
  lemma TokensStay(s: Session, a: Action, t: nat)
    requires Enabled(s, a) && t < |s.tokens|
    ensures var s' := Next(s, a);
            && |s'.tokens| == |s.tokens| + (if a.Reserves? then 1 else 0)
            && s'.tokens[t].exclusive == s.tokens[t].exclusive
            && (!About(a, t) ==> s'.tokens[t].stage == s.tokens[t].stage)
            && (a.Reserves? ==> s'.tokens[|s.tokens|] == Token(a.exclusive, Reserved))
            && s'.generation == s.generation + (if a.Removes? || (a.Disconnects? && s.count > 0) then 1 else 0)
            && (if a.Removes? || a.Disconnects? then !s'.cleanup else a.Recovers? || s'.cleanup == s.cleanup)
  {
  }

  /** A detach request is on its way from the release that sends it until its response or the disconnection, which fails
      it; its release then goes on once, after a success or after a failure. */
  lemma RequestStep(s: Session, a: Action, t: nat)
    requires Enabled(s, a)
    ensures var s', answered := Next(s, a), a.Answers? && a.t == t;
            && (t in s'.detaching <==>
                  || (t in s.detaching && !answered && !a.Disconnects?)
                  || (a.Releases? && a.t == t && SendsDetach(s, t, a.usable)))
            && (t in s'.resolved <==> (t in s.resolved && a != Resumes(t)) || (answered && a.ok))
            && (t in s'.rejected <==>
                  || (t in s.rejected && !(a.Recovers? && a.t == t))
                  || (answered && !a.ok)
                  || (a.Disconnects? && t in s.detaching))
  {
  }

  /** A usable active lease is released at once unless it is the only one outstanding, which waits for its detach request;
      one that is no longer of this generation finds out that it is invalidated; another release does nothing. */
  lemma ReleaseStep(s: Session, t: nat, usable: bool)
    requires Inv(s) && Enabled(s, Releases(t, usable))
    ensures var s', lease := Next(s, Releases(t, usable)), s.tokens[t].stage;
            && s'.tokens[t].stage.Leased?
            && s'.tokens[t].stage.state
               == (if lease.state in {Active, Releasing} && lease.generation != s.generation then Invalidated
                   else if lease.state != Active || !usable then lease.state
                   else if Outstanding(s) == {t} then Releasing
                   else Released)
            && s'.detaching == s.detaching + (if SendsDetach(s, t, usable) then {t} else {})
  {
    DetachIff(s, t, usable);
  }

  /** A release whose detach request succeeded is over. One whose request failed is over too when the lease was invalidated
      meanwhile; or else when its caller gives the lease up, which leaves a clean-up to be done; otherwise the lease is
      active again. */
  lemma DetachStep(s: Session, a: Action)
    requires Inv(s) && Enabled(s, a) && (a.Resumes? || a.Recovers?)
    ensures var s' := Next(s, a);
            && s'.tokens[a.t].stage.Leased?
            && s'.tokens[a.t].stage.state
               == (if a.Resumes? then Released
                   else if s.tokens[a.t].stage.generation != s.generation then Invalidated
                   else if a.relinquish then Released
                   else Active)
            && (s'.cleanup <==> s.cleanup || (a.Recovers? && s'.tokens[a.t].stage.state == Released))
  {
    assert TokenOk(s, a.t);
  }

  /** A lease begins active and of the generation of its creation; a reservation that is dropped begins none. */
  lemma ReservationStep(s: Session, a: Action)
    requires Enabled(s, a) && (a.Creates? || a.Drops?)
    ensures Next(s, a).tokens[a.t].stage == if a.Creates? then Leased(s.generation, Active) else Dropped
  {
  }

  /** The states of a run, one after the other. */
  ghost predicate Steps(s: Session, states: seq<Session>, actions: seq<Action>) {
    && |states| == |actions| + 1 && states[0] == s
    && forall i :: 0 <= i < |actions| ==> Enabled(states[i], actions[i]) && states[i + 1] == Next(states[i], actions[i])
  }

  /** Why calm is needed: an acquire in flight while the session is removed yields a live lease nobody counts, and
      an exclusive lease can then be taken beside it, whose release detaches the session under the other. */
  lemma UncountedLease() returns (states: seq<Session>, actions: seq<Action>)
    ensures Steps(NO_LEASES, states, actions) && |actions| == 5 && !Calm(states[1], actions[1])
    ensures var s := states[|actions|];
            s.count == 1 && Live(s, 0) && Live(s, 1) && s.tokens[1].exclusive && SendsDetach(s, 1, true)
  {
    actions := [Reserves(false), Removes, Creates(0), Reserves(true), Creates(1)];
    var s1 := Next(NO_LEASES, actions[0]);
    var s2 := Next(s1, actions[1]);
    var s3 := Next(s2, actions[2]);
    var s4 := Next(s3, actions[3]);
    var s5 := Next(s4, actions[4]);
    states := [NO_LEASES, s1, s2, s3, s4, s5];
    assert IsReserved(s1, 0);
    assert !Calm(states[1], actions[1]);
  }

  /** A lease whose detach request just succeeded. */
  const HALF_RELEASED := Session(1, None, 0, false, [Token(false, Leased(0, Releasing))], {}, {0}, {})

  lemma HalfReleased() returns (states: seq<Session>, actions: seq<Action>)
    ensures Steps(NO_LEASES, states, actions) && states[|actions|] == HALF_RELEASED
  {
    actions := [Reserves(false), Creates(0), Releases(0, true), Answers(0, true)];
    var s1 := Next(NO_LEASES, actions[0]);
    var s2 := Next(s1, actions[1]);
    var s3 := Next(s2, actions[2]);
    states := [NO_LEASES, s1, s2, s3, HALF_RELEASED];
  }

  /** A disconnection between the success of a detach request and what follows it: the old token is given back at the
      expense of a new reservation, and an exclusive one is then accepted beside that. */
  lemma LostReservation() returns (states: seq<Session>, actions: seq<Action>)
    ensures Steps(HALF_RELEASED, states, actions) && |actions| == 4 && actions[0] == Disconnects
    ensures !InFlight(HALF_RELEASED) && !Calm(HALF_RELEASED, Disconnects)
    ensures var s := states[|actions|];
            s.count == 1 && IsReserved(s, 1) && IsReserved(s, 2) && s.tokens[2].exclusive
  {
    actions := [Disconnects, Reserves(false), Resumes(0), Reserves(true)];
    var s1 := Next(HALF_RELEASED, actions[0]);
    var s2 := Next(s1, actions[1]);
    var s3 := Next(s2, actions[2]);
    states := [HALF_RELEASED, s1, s2, s3, Next(s3, actions[3])];
    assert 0 in HALF_RELEASED.resolved;
  }

  // ---------------------------------------------------------------------------------------------
  // The client's maps
  // ---------------------------------------------------------------------------------------------

  function Get<T>(m: map<string, T>, id: string, missing: T): T { if id in m then m[id] else missing }

  function Lookup<T>(m: map<string, T>, id: string): Option<T> { if id in m then Some(m[id]) else None }

  class LeaseTable {
    var counts: map<string, nat>
    var exclusives: map<string, nat>
    var generations: map<string, nat>
    var cleanup: set<string>
    /** The leases' own state, and the requests on the way. */
    var tokens: map<string, seq<Token>>
    var detaching: map<string, set<nat>>
    var resolved: map<string, set<nat>>
    var rejected: map<string, set<nat>>

    constructor ()
      ensures Valid() && forall id :: View(id) == NO_LEASES
    {
      counts, exclusives, generations, cleanup := map[], map[], map[], {};
      tokens, detaching, resolved, rejected := map[], map[], map[], map[];
    }

    /** A count that would be 0 is not kept. */
    ghost predicate Valid()
      reads this
    {
      forall id :: id in counts ==> counts[id] > 0
    }

    /** What the maps hold for one session. */
    ghost function View(id: string): Session
      reads this
    {
      Session(Get(counts, id, 0), Lookup(exclusives, id), Get(generations, id, 0), id in cleanup,
              Get(tokens, id, []), Get(detaching, id, {}), Get(resolved, id, {}), Get(rejected, id, {}))
    }

    method ReserveSessionLease(id: string, exclusive: bool) returns (t: Option<nat>)
      requires Valid()
      modifies this
      ensures Valid()
      ensures t.Some? <==> MayReserve(old(View(id)), exclusive)
      ensures t.Some? ==> View(id) == Reserve(old(View(id)), exclusive) && t.value == |old(View(id)).tokens|
      ensures t.None? ==> View(id) == old(View(id))
      ensures forall other :: other != id ==> View(other) == old(View(other))
    {
      var count := Get(counts, id, 0);
      if exclusive && count > 0 {
        return None;
      }
      if !exclusive && id in exclusives {
        return None;
      }
      var held := Get(tokens, id, []);
      counts := counts[id := count + 1];
      if exclusive {
        exclusives := exclusives[id := |held|];
      }
      tokens := tokens[id := held + [Token(exclusive, Reserved)]];
      return Some(|held|);
    }

    method ReleaseSessionLease(id: string, t: nat)
      requires Valid()
      modifies this`counts, this`exclusives
      ensures Valid() && View(id) == Give(old(View(id)), t)
      ensures forall other :: other != id ==> View(other) == old(View(other))
    {
      var count := Get(counts, id, 0);
      if count <= 1 {
        counts := counts - {id};
      } else {
        counts := counts[id := count - 1];
      }
      if id in exclusives && exclusives[id] == t {
        exclusives := exclusives - {id};
      }
    }

    method CreateSessionLease(id: string, t: nat)
      requires IsReserved(View(id), t)
      modifies this
      ensures View(id) == Next(old(View(id)), Creates(t))
      ensures forall other :: other != id ==> View(other) == old(View(other))
    {
      var generation := Get(generations, id, 0);
      generations := generations[id := generation];
      SetStage(id, t, Leased(generation, Active));
    }

    method SetStage(id: string, t: nat, stage: Stage)
      requires t < |View(id).tokens|
      modifies this`tokens
      ensures View(id) == WithStage(old(View(id)), t, stage)
      ensures forall other :: other != id ==> View(other) == old(View(other))
    {
      var held := Get(tokens, id, []);
      tokens := tokens[id := held[t := held[t].(stage := stage)]];
    }

    /** `release` up to its first await; tells whether a detach request goes out. */
    method Release(id: string, t: nat, usable: bool) returns (detach: bool)
      requires Valid() && IsLeased(View(id), t)
      modifies this
      ensures Valid() && View(id) == AfterRelease(old(View(id)), t, usable) && detach == SendsDetach(old(View(id)), t, usable)
      ensures forall other :: other != id ==> View(other) == old(View(other))
    {
      detach := false;
      var lease := Get(tokens, id, [])[t].stage;
      if lease.state in {Active, Releasing} && Get(generations, id, 0) != lease.generation {
        SetStage(id, t, lease.(state := Invalidated));
        return;
      }
      if lease.state != Active || !usable {
        SetStage(id, t, lease);
        return;
      }
      if Get(counts, id, 0) <= 1 {
        SetStage(id, t, lease.(state := Releasing));
        detaching := detaching[id := Get(detaching, id, {}) + {t}];
        detach := true;
      } else {
        SetStage(id, t, lease.(state := Released));
        ReleaseSessionLease(id, t);
      }
    }

    method InvalidateSessionLeases(id: string)
      requires Valid()
      modifies this`counts, this`exclusives, this`cleanup, this`generations
      ensures Valid() && View(id) == Invalidate(old(View(id)))
      ensures forall other :: other != id ==> View(other) == old(View(other))
      ensures counts == old(counts) - {id}
    {
      counts, exclusives, cleanup := counts - {id}, exclusives - {id}, cleanup - {id};
      generations := generations[id := Get(generations, id, 0) + 1];
    }

    /** The response to a detach request settles its promise. */
    method DetachAnswered(id: string, t: nat, ok: bool)
      requires t in View(id).detaching
      modifies this`detaching, this`resolved, this`rejected
      ensures View(id) == Answer(old(View(id)), t, ok)
      ensures forall other :: other != id ==> View(other) == old(View(other))
    {
      detaching := detaching[id := Get(detaching, id, {}) - {t}];
      if ok {
        resolved := resolved[id := Get(resolved, id, {}) + {t}];
      } else {
        rejected := rejected[id := Get(rejected, id, {}) + {t}];
      }
    }

    /** `release` after its detach request succeeded. */
    method ReleaseResumes(id: string, t: nat)
      requires Valid() && IsLeased(View(id), t) && t in View(id).resolved
      modifies this
      ensures Valid() && View(id) == Resume(old(View(id)), t)
      ensures forall other :: other != id ==> View(other) == old(View(other))
    {
      var lease := Get(tokens, id, [])[t].stage;
      resolved := resolved[id := Get(resolved, id, {}) - {t}];
      SetStage(id, t, lease.(state := Released));
      ReleaseSessionLease(id, t);
    }

    /** `release` after its detach request failed. */
    method ReleaseRecovers(id: string, t: nat, relinquish: bool)
      requires Valid() && IsLeased(View(id), t) && t in View(id).rejected
      modifies this
      ensures Valid() && View(id) == Recover(old(View(id)), t, relinquish)
      ensures forall other :: other != id ==> View(other) == old(View(other))
    {
      var lease := Get(tokens, id, [])[t].stage;
      rejected := rejected[id := Get(rejected, id, {}) - {t}];
      if lease.state == Invalidated
         || (lease.state in {Active, Releasing} && Get(generations, id, 0) != lease.generation) {
        SetStage(id, t, lease.(state := Invalidated));
      } else if relinquish {
        cleanup := cleanup + {id};
        SetStage(id, t, lease.(state := Released));
        ReleaseSessionLease(id, t);
      } else {
        SetStage(id, t, lease.(state := Active));
      }
    }

    method InvalidateAllSessionLeases()
      requires Valid()
      modifies this`counts, this`exclusives, this`cleanup, this`generations
      ensures Valid()
      ensures forall id :: View(id) == InvalidateCounted(old(View(id)))
    {
      var rest := counts.Keys;
      while rest != {}
        invariant Valid() && rest == counts.Keys
        invariant forall id :: View(id) == if id in rest || id !in old(counts) then old(View(id)) else Invalidate(old(View(id)))
        decreases rest
      {
        var id :| id in rest;
        InvalidateSessionLeases(id);
        rest := rest - {id};
      }
      cleanup := {};
    }

    /** The connection ended: every counted session is invalidated, and the detach requests on their way are rejected. */
    method HandleDisconnected()
      requires Valid()
      modifies this
      ensures Valid() && forall id :: View(id) == Disconnect(old(View(id)))
    {
      InvalidateAllSessionLeases();
      rejected := map id | id in rejected.Keys + detaching.Keys :: Get(rejected, id, {}) + Get(detaching, id, {});
      detaching := map[];
    }
  }
}
